/** Seller listings and buyer inquiries. Every operation reads a listing, decides, and
    later writes under a guard on the status it read; other operations run in between. */
module Marketplace {
  import opened Wrappers

  type Id = string
  type UserId = string
  type OpId = nat
  type Content = string

  const EXPIRY_MS: int := 30 * 24 * 60 * 60 * 1000

  datatype Status = Draft | Submitted | Published | Rejected | Hidden | Sold | Expired

  /** `content` is all the seller can edit; `approved` is history: the content at the latest approval. */
  datatype Listing = Listing(
    seller: UserId, status: Status, publishedAt: Option<int>, expiresAt: Option<int>, content: Content,
    approved: Option<Content>)

  datatype InquiryStatus = Open | ClosedInterested | ClosedNotInterested | ClosedSold

  datatype Inquiry = Inquiry(status: InquiryStatus, closedAt: Option<int>)

  /** One inquiry per listing and buyer. */
  type Key = (Id, UserId)

  datatype Request =
    | Update(user: UserId, id: Id, content: Content)
    | Submit(user: UserId, id: Id, phone: bool)
    | Renew(user: UserId, id: Id, phone: bool)
    | Sell(user: UserId, id: Id)
    | Approve(id: Id, phone: bool)
    | Reject(id: Id)

  /** An operation between its read and its write, with what it read. */
  datatype Pending =
    | Change(req: Request, read: Listing)
    | Closing(key: Key, target: InquiryStatus)
    | Expiring(now: int, todo: set<Id>)

  datatype Refusal = NotFound | Forbidden | BadRequest | Conflict

  /** The verdict of the checks that precede the write. */
  datatype Check = Go(p: Pending) | NothingToDo | No(why: Refusal)

  datatype Market = Market(listings: map<Id, Listing>, inquiries: map<Key, Inquiry>, pending: map<OpId, Pending>)

  datatype Action =
    | Create(id: Id, seller: UserId, content: Content)
    | Begin(op: OpId, req: Request)
    | Write(op: OpId)
    | BeginClose(op: OpId, user: UserId, key: Key, wanted: Option<InquiryStatus>)
    | WriteClose(op: OpId)
    | BeginExpire(op: OpId)
    | ExpireOne(op: OpId, id: Id)
    | Reveal(id: Id, buyer: UserId, phones: bool)

  /** `now` is the clock reading the action uses, taken no later than it happens. */
  datatype Event = Event(now: int, act: Action)

  // ---------------------------------------------------------------------------
  // Reads and their checks
  // ---------------------------------------------------------------------------

  predicate Allowed(req: Request, status: Status) {
    match req
    case Update(_, _, _) => status.Draft? || status.Rejected? || status.Published?
    case Submit(_, _, _) => status.Draft? || status.Rejected?
    case Renew(_, _, _) => status.Published? || status.Expired?
    case Sell(_, _) => status.Published?
    case Approve(_, _) => status.Submitted?
    case Reject(_) => status.Submitted?
  }

  predicate BySeller(req: Request, seller: UserId) { req.Approve? || req.Reject? || req.user == seller }

  /** Submitting, renewing and approving need the seller's phone. */
  predicate HasPhone(req: Request) { req.Submit? || req.Renew? || req.Approve? ==> req.phone }

  function CheckRequest(listings: map<Id, Listing>, req: Request): Check {
    if req.id !in listings then No(NotFound)
    else
      var l := listings[req.id];
      if !BySeller(req, l.seller) then No(Forbidden)
      else if req.Sell? && l.status.Sold? then NothingToDo
      else if !HasPhone(req) || !Allowed(req, l.status) then No(BadRequest)
      else Go(Change(req, l))
  }

  function CheckClose(s: Market, user: UserId, key: Key, wanted: Option<InquiryStatus>): Check {
    if key !in s.inquiries || key.0 !in s.listings then No(NotFound)
    else
      var isBuyer, isSeller := key.1 == user, s.listings[key.0].seller == user;
      if !s.inquiries[key].status.Open? then No(BadRequest)
      else if !isBuyer && !isSeller then No(Forbidden)
      else if wanted.Some? && (wanted.value.ClosedSold? || wanted.value.Open?) then No(BadRequest)
      else if wanted.Some? && isBuyer && !wanted.value.ClosedNotInterested? then No(BadRequest)
      else if wanted.Some? && isSeller && !wanted.value.ClosedInterested? then No(BadRequest)
      else if wanted.Some? then Go(Closing(key, wanted.value))
      else Go(Closing(key, if isBuyer then ClosedNotInterested else ClosedInterested))
  }

  predicate Lapsed(l: Listing, now: int) { l.status.Published? && l.expiresAt.Some? && l.expiresAt.value <= now }

  function LapsedIds(listings: map<Id, Listing>, now: int): set<Id> {
    set id | id in listings && Lapsed(listings[id], now)
  }

  // ---------------------------------------------------------------------------
  // Guarded writes
  // ---------------------------------------------------------------------------

  /** The row a granted request leaves. */
  function Changed(l: Listing, req: Request, read: Listing, now: int): Listing {
    match req
    case Update(_, _, content) =>
      if read.status.Published? then l.(content := content, status := Submitted, publishedAt := None, expiresAt := None)
      else l.(content := content)
    case Submit(_, _, _) => l.(status := Submitted)
    case Renew(_, _, _) => l.(status := Published, expiresAt := Some(now + EXPIRY_MS))
    case Sell(_, _) => l.(status := Sold)
    case Approve(_, _) =>
      l.(status := Published, publishedAt := Some(now), expiresAt := Some(now + EXPIRY_MS), approved := Some(l.content))
    case Reject(_) => l.(status := Rejected)
  }

  /** A sale closes the listing's open inquiries in the same transaction. */
  function CloseOpen(inquiries: map<Key, Inquiry>, id: Id, now: int): map<Key, Inquiry> {
    map k | k in inquiries ::
      if k.0 == id && inquiries[k].status.Open? then Inquiry(ClosedSold, Some(now)) else inquiries[k]
  }

  /** The guard: the row still has the status that was read. */
  predicate GuardHolds(s: Market, p: Pending) {
    p.Change? && p.req.id in s.listings && s.listings[p.req.id].status == p.read.status
  }

  function WriteChange(s: Market, p: Pending, now: int): Market {
    if !GuardHolds(s, p) then s
    else
      s.(listings := s.listings[p.req.id := Changed(s.listings[p.req.id], p.req, p.read, now)],
         inquiries := if p.req.Sell? then CloseOpen(s.inquiries, p.req.id, now) else s.inquiries)
  }

  predicate Available(l: Listing, now: int) { l.status.Published? && l.expiresAt.Some? && l.expiresAt.value > now }

  function Done(s: Market, op: OpId): Market { s.(pending := s.pending - {op}) }

  function Noted(s: Market, op: OpId, c: Check): Market { if c.Go? then s.(pending := s.pending[op := c.p]) else s }

  predicate Enabled(s: Market, ev: Event) {
    match ev.act
    case Create(id, _, _) => id !in s.listings
    case Begin(op, _) => op !in s.pending
    case Write(op) => op in s.pending && s.pending[op].Change?
    case BeginClose(op, _, _, _) => op !in s.pending
    case WriteClose(op) => op in s.pending && s.pending[op].Closing?
    case BeginExpire(op) => op !in s.pending
    case ExpireOne(op, id) => op in s.pending && s.pending[op].Expiring? && id in s.pending[op].todo
    case Reveal(_, _, _) => true
  }

  function Apply(s: Market, ev: Event): Market
    requires Enabled(s, ev)
  {
    match ev.act
    case Create(id, seller, content) =>
      s.(listings := s.listings[id := Listing(seller, Draft, None, None, content, None)])
    case Begin(op, req) => Noted(s, op, CheckRequest(s.listings, req))
    case Write(op) => Done(WriteChange(s, s.pending[op], ev.now), op)
    case BeginClose(op, user, key, wanted) => Noted(s, op, CheckClose(s, user, key, wanted))
    case WriteClose(op) =>
      var p := s.pending[op];
      var closed := Inquiry(p.target, Some(ev.now));
      Done(if p.key in s.inquiries then s.(inquiries := s.inquiries[p.key := closed]) else s, op)
    case BeginExpire(op) => s.(pending := s.pending[op := Expiring(ev.now, LapsedIds(s.listings, ev.now))])
    case ExpireOne(op, id) =>
      var p := s.pending[op];
      var s' := s.(pending := s.pending[op := p.(todo := p.todo - {id})]);
      if id in s.listings && Lapsed(s.listings[id], p.now)
      then s'.(listings := s.listings[id := s.listings[id].(status := Expired)]) else s'
    case Reveal(id, buyer, phones) =>
      if id in s.listings && Available(s.listings[id], ev.now) && s.listings[id].seller != buyer && phones
      then s.(inquiries := s.inquiries[(id, buyer) := Inquiry(Open, None)]) else s
  }

  predicate Taken(s: seq<Market>, e: seq<Event>, i: nat)
    requires |s| == |e| + 1 && i < |e|
  {
    Enabled(s[i], e[i]) && s[i + 1] == Apply(s[i], e[i])
  }

  /** One interleaving of all operations. */
  ghost predicate Path(s: seq<Market>, e: seq<Event>) {
    |s| == |e| + 1 && forall i :: 0 <= i < |e| ==> Taken(s, e, i)
  }

  /** One that starts with an empty market. */
  ghost predicate Run(s: seq<Market>, e: seq<Event>) { Path(s, e) && s[0] == Market(map[], map[], map[]) }

  lemma OneStep(path: seq<Market>, e: seq<Event>, ev: Event)
    requires Path(path, e) && Enabled(path[|e|], ev)
    ensures Path(path + [Apply(path[|e|], ev)], e + [ev])
  {
    var path', e' := path + [Apply(path[|e|], ev)], e + [ev];
    forall i | 0 <= i < |e'| ensures Taken(path', e', i) {
      assert i < |e| ==> Taken(path, e, i);
    }
  }

  // ---------------------------------------------------------------------------
  // Invariants
  // ---------------------------------------------------------------------------

  /** A listing that is or was on sale has both dates, and its content is what was approved. */
  predicate ListingOk(l: Listing) {
    l.status.Published? || l.status.Expired? || l.status.Sold? ==>
      l.publishedAt.Some? && l.expiresAt.Some? && l.approved == Some(l.content)
  }

  /** No inquiry is open on a sold listing. */
  predicate InquiryOk(s: Market, k: Key)
    requires k in s.inquiries
  {
    k.0 in s.listings && (s.inquiries[k].status.Open? ==> !s.listings[k.0].status.Sold?)
  }

  /** A pending operation passed its checks against the row it read. */
  predicate PendingOk(p: Pending) {
    match p
    case Change(req, read) => Allowed(req, read.status) && BySeller(req, read.seller)
    case Closing(_, target) => target.ClosedInterested? || target.ClosedNotInterested?
    case Expiring(_, _) => true
  }

  predicate Inv(s: Market) {
    && (forall id :: id in s.listings ==> ListingOk(s.listings[id]))
    && (forall k :: k in s.inquiries ==> InquiryOk(s, k))
    && (forall op :: op in s.pending ==> PendingOk(s.pending[op]))
  }

  lemma ChangedOk(l: Listing, req: Request, read: Listing, now: int)
    requires ListingOk(l) && l.status == read.status && Allowed(req, read.status)
    ensures ListingOk(Changed(l, req, read, now))
    ensures Changed(l, req, read, now).status.Sold? <==> req.Sell?
  {
  }

  lemma WriteKeepsInv(s: Market, p: Pending, now: int)
    requires Inv(s) && PendingOk(p) && p.Change?
    ensures Inv(WriteChange(s, p, now))
  {
    if GuardHolds(s, p) {
      var s' := WriteChange(s, p, now);
      ChangedOk(s.listings[p.req.id], p.req, p.read, now);
      forall k | k in s'.inquiries ensures InquiryOk(s', k) {
        assert InquiryOk(s, k);
      }
    }
  }

  lemma StepKeepsInv(s: Market, ev: Event)
    requires Inv(s) && Enabled(s, ev)
    ensures Inv(Apply(s, ev))
  {
    match ev.act
    case Write(op) => WriteKeepsInv(s, s.pending[op], ev.now);
    case _ =>
      var s' := Apply(s, ev);
      forall k | k in s'.inquiries ensures InquiryOk(s', k) {
        assert k in s.inquiries ==> InquiryOk(s, k);
      }
  }

  /** In every interleaving: nothing is on sale, lapsed or sold without both dates and
      with content other than what was last approved, and no inquiry is ever open on a
      sold listing. */
  lemma {:induction false} InvHolds(s: seq<Market>, e: seq<Event>, i: nat)
    requires Run(s, e) && i <= |e|
    ensures Inv(s[i])
  {
    if i > 0 {
      InvHolds(s, e, i - 1);
      assert Taken(s, e, i - 1);
      StepKeepsInv(s[i - 1], e[i - 1]);
    }
  }

  // ---------------------------------------------------------------------------
  // What each operation asks for and leaves
  // ---------------------------------------------------------------------------

  /** A listing is created as a draft that was never on sale, and nothing else changes. */
  lemma CreatedIsDraft(s: Market, ev: Event)
    requires ev.act.Create? && Enabled(s, ev)
    ensures var l := Apply(s, ev).listings[ev.act.id];
      && l.seller == ev.act.seller && l.content == ev.act.content && l.status == Draft
      && l.publishedAt.None? && l.expiresAt.None? && l.approved.None?
    ensures Apply(s, ev).listings - {ev.act.id} == s.listings && Apply(s, ev).inquiries == s.inquiries
  {
  }

  /** Which requests pass their checks, by who asks and the status of the listing. */
  lemma CheckedExactly(listings: map<Id, Listing>, req: Request)
    ensures CheckRequest(listings, req) == No(NotFound) <==> req.id !in listings
    ensures req.id in listings ==>
      var l, bySeller := listings[req.id], req.Update? || req.Submit? || req.Renew? || req.Sell?;
      && (CheckRequest(listings, req) == No(Forbidden) <==> bySeller && req.user != l.seller)
      && (CheckRequest(listings, req) == NothingToDo <==> req.Sell? && req.user == l.seller && l.status == Sold)
      && (CheckRequest(listings, req).Go? <==>
            && (bySeller ==> req.user == l.seller)
            && (req.Update? ==> l.status in {Draft, Rejected, Published})
            && (req.Submit? ==> l.status in {Draft, Rejected} && req.phone)
            && (req.Renew? ==> l.status in {Published, Expired} && req.phone)
            && (req.Sell? ==> l.status == Published)
            && (req.Approve? ==> l.status == Submitted && req.phone)
            && (req.Reject? ==> l.status == Submitted))
      && (CheckRequest(listings, req).Go? ==> CheckRequest(listings, req).p == Change(req, l))
      && (CheckRequest(listings, req).No? ==> CheckRequest(listings, req).why in {Forbidden, BadRequest})
  {
  }

  /** What a write that takes effect leaves of its listing. */
  lemma WrittenExactly(s: Market, p: Pending, now: int)
    requires GuardHolds(s, p) && PendingOk(p)
    ensures p.req.id in WriteChange(s, p, now).listings
    ensures var l, after := s.listings[p.req.id], WriteChange(s, p, now).listings[p.req.id];
      && after.seller == l.seller && (!p.req.Update? ==> after.content == l.content)
      && (!p.req.Approve? ==> after.approved == l.approved)
      && (p.req.Update? && l.status == Published ==>
            && after.content == p.req.content && after.status == Submitted
            && after.publishedAt.None? && after.expiresAt.None?)
      && (p.req.Update? && l.status != Published ==> after == l.(content := p.req.content))
      && (p.req.Submit? ==> after == l.(status := Submitted))
      && (p.req.Renew? ==> after == l.(status := Published, expiresAt := Some(now + 2_592_000_000)))
      && (p.req.Sell? ==> after == l.(status := Sold))
      && (p.req.Approve? ==>
            && after.status == Published && after.publishedAt == Some(now)
            && after.expiresAt == Some(now + 2_592_000_000) && after.approved == Some(l.content))
      && (p.req.Reject? ==> after == l.(status := Rejected))
    ensures forall id :: id in s.listings && id != p.req.id ==>
      id in WriteChange(s, p, now).listings && WriteChange(s, p, now).listings[id] == s.listings[id]
    ensures forall k :: k in s.inquiries ==>
      && k in WriteChange(s, p, now).inquiries
      && WriteChange(s, p, now).inquiries[k] ==
         if p.req.Sell? && k.0 == p.req.id && s.inquiries[k].status == Open then Inquiry(ClosedSold, Some(now))
         else s.inquiries[k]
  {
  }

  /** Who may close an inquiry, and as what. */
  lemma CloseCheckedExactly(s: Market, user: UserId, key: Key, wanted: Option<InquiryStatus>)
    ensures CheckClose(s, user, key, wanted) == No(NotFound) <==> key !in s.inquiries || key.0 !in s.listings
    ensures key in s.inquiries && key.0 in s.listings ==>
      var buyer, seller, c := key.1 == user, s.listings[key.0].seller == user, CheckClose(s, user, key, wanted);
      && (c.Go? <==>
            && s.inquiries[key].status == Open && (buyer || seller)
            && (wanted.Some? && buyer ==> wanted == Some(ClosedNotInterested))
            && (wanted.Some? && seller ==> wanted == Some(ClosedInterested)))
      && (c.Go? ==> c.p == Closing(key, if buyer then ClosedNotInterested else ClosedInterested))
      && (c == No(Forbidden) <==> s.inquiries[key].status == Open && !buyer && !seller)
      && (c == No(BadRequest) <==> !c.Go? && c != No(Forbidden))
  {
  }

  /** What a buyer can see at a moment. */
  function Visible(s: Market, t: int): map<Id, Content> {
    map id | id in s.listings && Available(s.listings[id], t) :: s.listings[id].content
  }

  /** A listing is on sale until its expiry instant, and lapsed from then on. */
  lemma VisibleExactly(s: Market, t: int, id: Id)
    ensures id in Visible(s, t) <==>
      id in s.listings && s.listings[id].status == Published && s.listings[id].expiresAt.Some?
      && t < s.listings[id].expiresAt.value
    ensures id in LapsedIds(s.listings, t) <==>
      id in s.listings && s.listings[id].status == Published && s.listings[id].expiresAt.Some?
      && s.listings[id].expiresAt.value <= t
  {
  }

  lemma OnlyApprovedIsVisible(s: seq<Market>, e: seq<Event>, i: nat, t: int, id: Id)
    requires Run(s, e) && i <= |e| && id in Visible(s[i], t)
    ensures s[i].listings[id].approved == Some(Visible(s[i], t)[id]) && s[i].listings[id].publishedAt.Some?
  {
    InvHolds(s, e, i);
    assert ListingOk(s[i].listings[id]);
  }

  // ---------------------------------------------------------------------------
  // A sale is final
  // ---------------------------------------------------------------------------

  lemma SoldStep(s: Market, ev: Event, id: Id)
    requires Inv(s) && Enabled(s, ev) && id in s.listings && s.listings[id].status.Sold?
    ensures id in Apply(s, ev).listings && Apply(s, ev).listings[id] == s.listings[id]
  {
    if ev.act.Write? {
      assert PendingOk(s.pending[ev.act.op]);
    }
  }

  /** A sold listing never changes again, in any interleaving. */
  lemma {:induction false} SoldIsFinal(s: seq<Market>, e: seq<Event>, i: nat, j: nat, id: Id)
    requires Run(s, e) && i <= j <= |e| && id in s[i].listings && s[i].listings[id].status.Sold?
    ensures id in s[j].listings && s[j].listings[id] == s[i].listings[id]
    decreases j
  {
    if i < j {
      SoldIsFinal(s, e, i, j - 1, id);
      InvHolds(s, e, j - 1);
      assert Taken(s, e, j - 1);
      SoldStep(s[j - 1], e[j - 1], id);
    }
  }

  /** The write of a close of this inquiry. */
  predicate Closes(s: Market, ev: Event, k: Key) {
    ev.act.WriteClose? && ev.act.op in s.pending && s.pending[ev.act.op].Closing? && s.pending[ev.act.op].key == k
  }

  /** Once a listing is sold, an inquiry of it changes exactly by a close that had read it
      open, to what that close wanted; none is added and none reopened. */
  lemma InquiriesAfterSale(s: Market, ev: Event, k: Key)
    requires Inv(s) && Enabled(s, ev) && k.0 in s.listings && s.listings[k.0].status.Sold?
    ensures k in Apply(s, ev).inquiries <==> k in s.inquiries
    ensures k in s.inquiries ==>
      Apply(s, ev).inquiries[k] ==
      if Closes(s, ev, k) then Inquiry(s.pending[ev.act.op].target, Some(ev.now)) else s.inquiries[k]
    ensures k in s.inquiries ==> !Apply(s, ev).inquiries[k].status.Open?
    ensures k in s.inquiries ==>
      (Apply(s, ev).inquiries[k].status.ClosedSold? <==> s.inquiries[k].status.ClosedSold? && !Closes(s, ev, k))
  {
    if ev.act.Write? || ev.act.WriteClose? {
      assert PendingOk(s.pending[ev.act.op]);
    }
    if k in s.inquiries {
      assert InquiryOk(s, k);
    }
  }

  ghost predicate NoClose(s: seq<Market>, e: seq<Event>, i: nat, j: nat, k: Key)
    requires |s| == |e| + 1 && j <= |e|
  {
    forall m :: i <= m < j ==> !Closes(s[m], e[m], k)
  }

  /** So, in every run, the reason CLOSED_SOLD of a sold listing's inquiry survives
      exactly if no close of it that was begun before the sale is written after it. */
  lemma {:induction false} ClosedSoldSurvivesIff(s: seq<Market>, e: seq<Event>, i: nat, j: nat, k: Key)
    requires Run(s, e) && i <= j <= |e| && k.0 in s[i].listings && s[i].listings[k.0].status.Sold?
    requires k in s[i].inquiries && s[i].inquiries[k].status.ClosedSold?
    ensures k.0 in s[j].listings && s[j].listings[k.0].status.Sold? && k in s[j].inquiries
    ensures s[j].inquiries[k].status.ClosedSold? <==> NoClose(s, e, i, j, k)
    ensures NoClose(s, e, i, j, k) ==> s[j].inquiries[k] == s[i].inquiries[k]
    decreases j
  {
    hide Inv, Apply, Enabled, Closes;
    if i < j {
      ClosedSoldSurvivesIff(s, e, i, j - 1, k);
      InvHolds(s, e, j - 1);
      SoldIsFinal(s, e, i, j, k.0);
      assert Taken(s, e, j - 1);
      InquiriesAfterSale(s[j - 1], e[j - 1], k);
    }
  }

  /** A close that is begun before a sale and written after it. */
  function CloseAroundSale(close: OpId, sell: OpId, buyer: UserId, seller: UserId, id: Id, t: int): seq<Event> {
    [Event(t, BeginClose(close, buyer, (id, buyer), None)), Event(t, Begin(sell, Sell(seller, id))),
     Event(t, Write(sell)), Event(t, WriteClose(close))]
  }

  /** It does happen, from every published listing with an open inquiry: such a close
      replaces the sale's reason, because closing is not guarded by the status it read. */
  lemma LateCloseOverwritesSale(s: Market, close: OpId, sell: OpId, id: Id, buyer: UserId, t: int)
    requires close !in s.pending && sell !in s.pending && close != sell
    requires id in s.listings && s.listings[id].status.Published?
    requires (id, buyer) in s.inquiries && s.inquiries[(id, buyer)].status.Open?
    ensures exists path: seq<Market> ::
      && Path(path, CloseAroundSale(close, sell, buyer, s.listings[id].seller, id, t)) && path[0] == s
      && (id, buyer) in path[3].inquiries && path[3].inquiries[(id, buyer)] == Inquiry(ClosedSold, Some(t))
      && id in path[4].listings && path[4].listings[id].status.Sold?
      && (id, buyer) in path[4].inquiries && path[4].inquiries[(id, buyer)].status == ClosedNotInterested
  {
    var e := CloseAroundSale(close, sell, buyer, s.listings[id].seller, id, t);
    var s1 := Apply(s, e[0]);
    var s2 := Apply(s1, e[1]);
    var s3 := Apply(s2, e[2]);
    OneStep([s], [], e[0]);
    OneStep([s, s1], [e[0]], e[1]);
    OneStep([s, s1, s2], [e[0], e[1]], e[2]);
    OneStep([s, s1, s2, s3], [e[0], e[1], e[2]], e[3]);
    assert [] + [e[0]] == [e[0]] && [e[0], e[1], e[2]] + [e[3]] == e;
  }

  // ---------------------------------------------------------------------------
  // Expiry
  // ---------------------------------------------------------------------------

  /** Expiring a listing never changes what anyone can see from the reconciliation's own
      clock reading on; in particular a renewal made since the read is left alone. */
  lemma ExpireChangesNothingVisible(s: Market, ev: Event, t: int)
    requires ev.act.ExpireOne? && Enabled(s, ev) && s.pending[ev.act.op].now <= t
    ensures Visible(Apply(s, ev), t) == Visible(s, t)
    ensures var id := ev.act.id; id in s.listings && Available(s.listings[id], s.pending[ev.act.op].now) ==>
      Apply(s, ev).listings == s.listings
  {
  }

  /** A renewal of the listing that takes effect. */
  predicate Renews(s: Market, ev: Event, id: Id) {
    && ev.act.Write? && ev.act.op in s.pending && GuardHolds(s, s.pending[ev.act.op])
    && s.pending[ev.act.op].req.Renew? && s.pending[ev.act.op].req.id == id
  }

  /** A renewal that takes effect puts the listing on sale for thirty days, expired or not. */
  lemma RenewedIsVisible(s: Market, ev: Event, id: Id, t: int)
    requires Inv(s) && Enabled(s, ev) && Renews(s, ev, id) && ev.now <= t < ev.now + 2_592_000_000
    ensures s.listings[id].status == Published || s.listings[id].status == Expired
    ensures id in Visible(Apply(s, ev), t) && Visible(Apply(s, ev), t)[id] == s.listings[id].content
    ensures Apply(s, ev).listings[id] ==
      s.listings[id].(status := Published, expiresAt := Some(ev.now + 2_592_000_000))
  {
    assert PendingOk(s.pending[ev.act.op]);
  }

  /** The listing is not on sale with an expiry a reading at `t` would call lapsed. */
  predicate LastsBeyond(s: Market, id: Id, t: int) {
    && id in s.listings
    && (s.listings[id].status.Published? ==> s.listings[id].expiresAt.Some? && s.listings[id].expiresAt.value > t)
  }

  lemma RenewLasts(s: Market, ev: Event, id: Id, t: int)
    requires Enabled(s, ev) && Renews(s, ev, id) && t - EXPIRY_MS < ev.now
    ensures LastsBeyond(Apply(s, ev), id, t)
  {
  }

  lemma StepLasts(s: Market, ev: Event, id: Id, t: int)
    requires Enabled(s, ev) && LastsBeyond(s, id, t) && t - EXPIRY_MS < ev.now
    ensures LastsBeyond(Apply(s, ev), id, t)
  {
  }

  lemma {:induction false} RenewedLasts(s: seq<Market>, e: seq<Event>, i: nat, j: nat, id: Id, t: int)
    requires Path(s, e) && i < j <= |e| && Renews(s[i], e[i], id)
    requires forall k :: i <= k < j ==> t - EXPIRY_MS < e[k].now
    ensures LastsBeyond(s[j], id, t)
    decreases j
  {
    assert Taken(s, e, j - 1);
    if i == j - 1 {
      RenewLasts(s[i], e[i], id, t);
    } else {
      RenewedLasts(s, e, i, j - 1, id, t);
      StepLasts(s[j - 1], e[j - 1], id, t);
    }
  }

  /** In every interleaving: once a renewal has taken effect, an expiry write of that
      listing does nothing, whatever happened in between, unless the reconciliation took
      its clock reading thirty days after the renewal or something later. */
  lemma RenewalSurvivesReconciliation(s: seq<Market>, e: seq<Event>, i: nat, j: nat, id: Id)
    requires Path(s, e) && i < j < |e| && Renews(s[i], e[i], id)
    requires e[j].act.ExpireOne? && e[j].act.id == id && e[j].act.op in s[j].pending
    requires s[j].pending[e[j].act.op].Expiring?
    requires forall k :: i <= k < j ==> s[j].pending[e[j].act.op].now - EXPIRY_MS < e[k].now
    ensures s[j + 1].listings == s[j].listings
  {
    assert Taken(s, e, j);
    RenewedLasts(s, e, i, j, id, s[j].pending[e[j].act.op].now);
  }

  // ---------------------------------------------------------------------------
  // What a moderator approves
  // ---------------------------------------------------------------------------

  /** A seller's edit of the listing that takes effect. */
  predicate Edits(s: Market, ev: Event, id: Id) {
    && ev.act.Write? && ev.act.op in s.pending && GuardHolds(s, s.pending[ev.act.op])
    && s.pending[ev.act.op].req.Update? && s.pending[ev.act.op].req.id == id
  }

  function EditOf(s: Market, ev: Event, id: Id): Content
    requires Edits(s, ev, id)
  {
    s.pending[ev.act.op].req.content
  }

  /** Step `k` is the last edit of the listing among the steps from `i` up to `j`. */
  ghost predicate LastEdit(s: seq<Market>, e: seq<Event>, i: nat, j: nat, k: int, id: Id)
    requires |s| == |e| + 1 && j <= |e|
  {
    i <= k < j && Edits(s[k], e[k], id) && forall m :: k < m < j ==> !Edits(s[m], e[m], id)
  }

  ghost predicate Unedited(s: seq<Market>, e: seq<Event>, i: nat, j: nat, id: Id)
    requires |s| == |e| + 1 && j <= |e|
  {
    forall k :: i <= k < j ==> !Edits(s[k], e[k], id)
  }

  lemma ContentStep(s: Market, ev: Event, id: Id)
    requires Enabled(s, ev) && id in s.listings
    ensures id in Apply(s, ev).listings
    ensures Apply(s, ev).listings[id].content ==
      if Edits(s, ev, id) then EditOf(s, ev, id) else s.listings[id].content
  {
  }

  lemma {:induction false} UneditedContent(s: seq<Market>, e: seq<Event>, i: nat, j: nat, id: Id)
    requires Path(s, e) && i <= j <= |e| && id in s[i].listings
    ensures id in s[j].listings
    ensures Unedited(s, e, i, j, id) ==> s[j].listings[id].content == s[i].listings[id].content
    decreases j
  {
    if i < j {
      UneditedContent(s, e, i, j - 1, id);
      assert Taken(s, e, j - 1);
      ContentStep(s[j - 1], e[j - 1], id);
    }
  }

  lemma LastEditContent(s: seq<Market>, e: seq<Event>, i: nat, j: nat, k: nat, id: Id)
    requires Path(s, e) && j <= |e| && LastEdit(s, e, i, j, k, id)
    ensures id in s[j].listings && s[j].listings[id].content == EditOf(s[k], e[k], id)
  {
    assert Taken(s, e, k);
    ContentStep(s[k], e[k], id);
    UneditedContent(s, e, k + 1, j, id);
  }

  lemma {:induction false} FindLastEdit(s: seq<Market>, e: seq<Event>, i: nat, j: nat, id: Id)
    requires |s| == |e| + 1 && i <= j <= |e|
    ensures Unedited(s, e, i, j, id) || exists k :: LastEdit(s, e, i, j, k, id)
    decreases j
  {
    if i < j && !Unedited(s, e, i, j, id) {
      if Edits(s[j - 1], e[j - 1], id) {
        assert LastEdit(s, e, i, j, j - 1, id);
      } else {
        FindLastEdit(s, e, i, j - 1, id);
        var k :| LastEdit(s, e, i, j - 1, k, id);
        assert LastEdit(s, e, i, j, k, id);
      }
    }
  }

  /** A listing's content is that of the last edit to take effect, whatever else was done. */
  lemma ContentIsLastEdit(s: seq<Market>, e: seq<Event>, i: nat, j: nat, id: Id)
    requires Path(s, e) && i <= j <= |e| && id in s[i].listings
    ensures id in s[j].listings
    ensures Unedited(s, e, i, j, id) ==> s[j].listings[id].content == s[i].listings[id].content
    ensures Unedited(s, e, i, j, id) || exists k :: LastEdit(s, e, i, j, k, id)
    ensures forall k :: LastEdit(s, e, i, j, k, id) ==> s[j].listings[id].content == EditOf(s[k], e[k], id)
  {
    UneditedContent(s, e, i, j, id);
    FindLastEdit(s, e, i, j, id);
    forall k | LastEdit(s, e, i, j, k, id) ensures s[j].listings[id].content == EditOf(s[k], e[k], id) {
      LastEditContent(s, e, i, j, k, id);
    }
  }

  /** What an approval publishes, in every interleaving: it takes effect if the listing is
      SUBMITTED when it writes, and then publishes the last edit since its moderator read
      the listing, or what was read if there was none. So the content read is published
      exactly if no last edit since changed it. */
  lemma ApprovalPublishesLastEdit(s: seq<Market>, e: seq<Event>, i: nat, j: nat, op: OpId, id: Id, phone: bool)
    requires Path(s, e) && i <= j < |e| && id in s[i].listings && s[i].listings[id].status.Submitted?
    requires e[j].act == Write(op) && op in s[j].pending
    requires s[j].pending[op] == Change(Approve(id, phone), s[i].listings[id])
    ensures id in s[j].listings && id in s[j + 1].listings
    ensures !s[j].listings[id].status.Submitted? ==> s[j + 1].listings == s[j].listings
    ensures s[j].listings[id].status.Submitted? ==>
      var row := s[j + 1].listings[id];
      && row.status.Published? && row.approved == Some(row.content)
      && (forall k :: LastEdit(s, e, i, j, k, id) ==> row.content == EditOf(s[k], e[k], id))
      && (row.content == s[i].listings[id].content <==>
            forall k :: LastEdit(s, e, i, j, k, id) ==> EditOf(s[k], e[k], id) == s[i].listings[id].content)
  {
    ContentIsLastEdit(s, e, i, j, id);
    assert Taken(s, e, j);
    ContentStep(s[j], e[j], id);
  }

  predicate StaysSubmitted(s: seq<Market>, i: nat, j: nat, id: Id)
    requires i <= j < |s|
  {
    forall k :: i <= k <= j ==> id in s[k].listings && s[k].listings[id].status.Submitted?
  }

  /** No edit takes effect on a submitted listing. */
  lemma SubmittedIsUnedited(s: seq<Market>, e: seq<Event>, i: nat, j: nat, id: Id)
    requires Run(s, e) && i <= j <= |e| && StaysSubmitted(s, i, j, id)
    ensures Unedited(s, e, i, j, id)
  {
    forall k | i <= k < j ensures !Edits(s[k], e[k], id) {
      InvHolds(s, e, k);
      assert e[k].act.Write? && e[k].act.op in s[k].pending ==> PendingOk(s[k].pending[e[k].act.op]);
    }
  }

  /** So while a listing stays submitted its content does not change. */
  lemma SubmittedContentFrozen(s: seq<Market>, e: seq<Event>, i: nat, j: nat, id: Id)
    requires Run(s, e) && i <= j <= |e| && StaysSubmitted(s, i, j, id)
    ensures s[j].listings[id].content == s[i].listings[id].content
  {
    SubmittedIsUnedited(s, e, i, j, id);
    ContentIsLastEdit(s, e, i, j, id);
  }

  /** And an approval publishes the content its moderator read, if the listing has not
      left SUBMITTED between the read and the write. */
  lemma ApprovalPublishesWhatWasRead(s: seq<Market>, e: seq<Event>, i: nat, j: nat, op: OpId, id: Id, phone: bool)
    requires Run(s, e) && i <= j < |e| && StaysSubmitted(s, i, j, id)
    requires e[j].act == Write(op) && op in s[j].pending
    requires s[j].pending[op] == Change(Approve(id, phone), s[i].listings[id])
    ensures id in s[j + 1].listings
    ensures s[j + 1].listings[id].status.Published? && s[j + 1].listings[id].content == s[i].listings[id].content
  {
    SubmittedIsUnedited(s, e, i, j, id);
    ApprovalPublishesLastEdit(s, e, i, j, op, id, phone);
  }

  function Replay(s: Market, e: seq<Event>): Market {
    if e == [] then s
    else
      var before, ev := Replay(s, e[..|e| - 1]), e[|e| - 1];
      if Enabled(before, ev) then Apply(before, ev) else before
  }

  /** An operation that nothing interrupts. */
  function Uninterrupted(op: OpId, req: Request, t: int): seq<Event> { [Event(t, Begin(op, req)), Event(t, Write(op))] }

  /** While an approval waits: another moderator rejects, the seller edits and resubmits. */
  function Detour(free: OpId, seller: UserId, id: Id, unread: Content, t: int): seq<Event> {
    Uninterrupted(free, Reject(id), t) + Uninterrupted(free, Update(seller, id, unread), t)
      + Uninterrupted(free, Submit(seller, id, true), t)
  }

  /** Performs one operation that nothing interrupts. */
  lemma Perform(path: seq<Market>, e: seq<Event>, free: OpId, req: Request, t: int) returns (path': seq<Market>)
    requires Path(path, e) && free !in path[|e|].pending
    requires CheckRequest(path[|e|].listings, req).Go? && !req.Sell?
    ensures Path(path', e + Uninterrupted(free, req, t)) && path <= path'
    ensures var s, row := path[|e|], path[|e|].listings[req.id];
      && path'[|e| + 1] == s.(pending := s.pending[free := Change(req, row)])
      && path'[|e| + 2] == s.(listings := s.listings[req.id := Changed(row, req, row, t)])
  {
    var s := path[|e|];
    OneStep(path, e, Event(t, Begin(free, req)));
    var mid := Apply(s, Event(t, Begin(free, req)));
    OneStep(path + [mid], e + [Event(t, Begin(free, req))], Event(t, Write(free)));
    path' := path + [mid] + [Apply(mid, Event(t, Write(free)))];
    assert mid.pending - {free} == s.pending;
    assert e + Uninterrupted(free, req, t) == e + [Event(t, Begin(free, req))] + [Event(t, Write(free))];
  }

  /** The listing as it is back in SUBMITTED with the edit. */
  function Resubmitted(s: Market, id: Id, unread: Content): Market
    requires id in s.listings
  {
    s.(listings := s.listings[id := s.listings[id].(status := Submitted, content := unread)])
  }

  lemma TakeDetour(s: Market, free: OpId, id: Id, unread: Content, t: int) returns (path: seq<Market>)
    requires free !in s.pending && id in s.listings && s.listings[id].status.Submitted?
    ensures var e := Detour(free, s.listings[id].seller, id, unread, t);
      Path(path, e) && path[0] == s && path[6] == Resubmitted(s, id, unread) && LastEdit(path, e, 0, 6, 3, id)
      && EditOf(path[3], e[3], id) == unread
  {
    var seller := s.listings[id].seller;
    var e := Uninterrupted(free, Reject(id), t);
    path := Perform([s], [], free, Reject(id), t);
    assert [] + e == e;
    path := Perform(path, e, free, Update(seller, id, unread), t);
    e := e + Uninterrupted(free, Update(seller, id, unread), t);
    path := Perform(path, e, free, Submit(seller, id, true), t);
  }

  /** Otherwise it need not be: from every state in which an approval waits, there is an
      interleaving whose last edit no moderator has read, and the approval publishes it. */
  lemma ApprovalCanPublishUnread(s: Market, op: OpId, free: OpId, id: Id, unread: Content, t: int)
    requires op in s.pending && free !in s.pending && id in s.listings && s.listings[id].status.Submitted?
    requires s.pending[op] == Change(Approve(id, true), s.listings[id])
    ensures exists path: seq<Market> ::
      && Path(path, Detour(free, s.listings[id].seller, id, unread, t) + [Event(t, Write(op))]) && path[0] == s
      && id in path[7].listings
      && path[7].listings[id].status.Published? && path[7].listings[id].content == unread
  {
    var e := Detour(free, s.listings[id].seller, id, unread, t);
    var path := TakeDetour(s, free, id, unread, t);
    OneStep(path, e, Event(t, Write(op)));
    path, e := path + [Apply(path[6], Event(t, Write(op)))], e + [Event(t, Write(op))];
    assert LastEdit(path, e, 0, 6, 3, id);
    ApprovalPublishesLastEdit(path, e, 0, 6, op, id, true);
  }

  // ---------------------------------------------------------------------------
  // The service
  // ---------------------------------------------------------------------------

  datatype Reply = Ok | Refused(why: Refusal)

  /** The operation a step belongs to. */
  function OpOf(act: Action): Option<OpId> {
    match act
    case Begin(op, _) => Some(op)
    case Write(op) => Some(op)
    case BeginClose(op, _, _, _) => Some(op)
    case WriteClose(op) => Some(op)
    case BeginExpire(op) => Some(op)
    case ExpireOne(op, _) => Some(op)
    case _ => None
  }

  predicate Others(events: seq<Event>, op: OpId) { forall i :: 0 <= i < |events| ==> OpOf(events[i].act) != Some(op) }

  lemma {:induction false} OthersLeavePending(s: Market, events: seq<Event>, op: OpId)
    requires Others(events, op)
    ensures op in Replay(s, events).pending <==> op in s.pending
    ensures op in s.pending ==> Replay(s, events).pending[op] == s.pending[op]
  {
    if events != [] {
      OthersLeavePending(s, events[..|events| - 1], op);
    }
  }

  /** What one call does, whatever the others do between its read and its write: refused
      by its checks it changes nothing; otherwise its write is the guarded one. */
  ghost predicate Outcome(
      before: Market, after: Market, req: Request, op: OpId, others: seq<Event>, now: int, conflict: Refusal,
      reply: Reply)
  {
    match CheckRequest(before.listings, req)
    case NothingToDo => after == before && reply == Ok
    case No(why) => after == before && reply == Refused(why)
    case Go(p) =>
      var mid := Replay(before.(pending := before.pending[op := p]), others);
      && op in mid.pending && mid.pending[op] == p
      && after == Apply(mid, Event(now, Write(op)))
      && reply == if GuardHolds(mid, p) then Ok else Refused(conflict)
  }

  lemma {:induction false} ReplayKeepsInv(s: Market, events: seq<Event>)
    requires Inv(s)
    ensures Inv(Replay(s, events))
  {
    if events != [] {
      ReplayKeepsInv(s, events[..|events| - 1]);
      var before, ev := Replay(s, events[..|events| - 1]), events[|events| - 1];
      if Enabled(before, ev) {
        StepKeepsInv(before, ev);
      }
    }
  }

  /** So no call of the service, whatever runs in between, can break the invariant. */
  lemma OutcomeKeepsInv(
      before: Market, after: Market, req: Request, op: OpId, others: seq<Event>, now: int, conflict: Refusal,
      reply: Reply)
    requires Inv(before) && Outcome(before, after, req, op, others, now, conflict, reply)
    ensures Inv(after)
  {
    var c := CheckRequest(before.listings, req);
    if c.Go? {
      var start := before.(pending := before.pending[op := c.p]);
      forall k | k in start.inquiries ensures InquiryOk(start, k) {
        assert InquiryOk(before, k);
      }
      ReplayKeepsInv(start, others);
      StepKeepsInv(Replay(start, others), Event(now, Write(op)));
    }
  }

  class MarketplaceService {
    var listings: map<Id, Listing>
    var inquiries: map<Key, Inquiry>
    var pending: map<OpId, Pending> // history: what operations in progress have read

    constructor ()
      ensures View() == Market(map[], map[], map[])
    {
      listings, inquiries, pending := map[], map[], map[];
    }

    ghost function View(): Market
      reads this
    {
      Market(listings, inquiries, pending)
    }

    /** Everything other operations do between this one's read and its write. */
    method Interleave(op: OpId, p: Pending, others: seq<Event>)
      requires op !in pending && Others(others, op)
      modifies this
      ensures View() == Replay(old(View()).(pending := old(pending)[op := p]), others)
      ensures op in pending && pending[op] == p
    {
      pending := pending[op := p];
      ghost var s := View();
      for i := 0 to |others|
        invariant View() == Replay(s, others[..i])
      {
        assert others[..i + 1][..i] == others[..i];
        var before := Market(listings, inquiries, pending);
        if Enabled(before, others[i]) {
          var after := Apply(before, others[i]);
          listings, inquiries, pending := after.listings, after.inquiries, after.pending;
        }
      }
      assert others[..|others|] == others;
      OthersLeavePending(s, others, op);
    }

    /** `updateMany` with the status that was read in its where clause. */
    method UpdateWhereStatus(id: Id, status: Status, row: Listing) returns (count: nat)
      modifies this`listings
      ensures count == (if id in old(listings) && old(listings)[id].status == status then 1 else 0)
      ensures listings == if count == 1 then old(listings)[id := row] else old(listings)
    {
      count := 0;
      if id in listings && listings[id].status == status {
        listings := listings[id := row];
        count := 1;
      }
    }

    method UpdateListing(user: UserId, id: Id, content: Content, op: OpId, others: seq<Event>, now: int)
      returns (reply: Reply)
      requires op !in pending && Others(others, op)
      modifies this
      ensures Outcome(old(View()), View(), Request.Update(user, id, content), op, others, now, Conflict, reply)
    {
      if id !in listings {
        return Refused(NotFound);
      }
      var listing := listings[id];
      if listing.seller != user {
        return Refused(Forbidden);
      }
      if listing.status !in {Draft, Rejected, Published} {
        return Refused(BadRequest);
      }
      var resubmitForModeration := listing.status.Published?;
      Interleave(op, Change(Request.Update(user, id, content), listing), others);
      reply := Refused(Conflict);
      if id in listings {
        var row :=
          if resubmitForModeration then listings[id].(status := Submitted, publishedAt := None, expiresAt := None)
          else listings[id];
        var count := UpdateWhereStatus(id, listing.status, row.(content := content));
        reply := if count == 1 then Ok else Refused(Conflict);
      }
      pending := pending - {op};
    }

    method SubmitListing(user: UserId, id: Id, phone: bool, op: OpId, others: seq<Event>, now: int)
      returns (reply: Reply)
      requires op !in pending && Others(others, op)
      modifies this
      ensures Outcome(old(View()), View(), Request.Submit(user, id, phone), op, others, now, BadRequest, reply)
    {
      if id !in listings {
        return Refused(NotFound);
      }
      var listing := listings[id];
      if listing.seller != user {
        return Refused(Forbidden);
      }
      if !phone || (!listing.status.Draft? && !listing.status.Rejected?) {
        return Refused(BadRequest);
      }
      Interleave(op, Change(Request.Submit(user, id, phone), listing), others);
      reply := Refused(BadRequest);
      if id in listings {
        var count := UpdateWhereStatus(id, listing.status, listings[id].(status := Submitted));
        reply := if count == 1 then Ok else Refused(BadRequest);
      }
      pending := pending - {op};
    }

    method RenewListing(user: UserId, id: Id, phone: bool, op: OpId, others: seq<Event>, now: int)
      returns (reply: Reply)
      requires op !in pending && Others(others, op)
      modifies this
      ensures Outcome(old(View()), View(), Request.Renew(user, id, phone), op, others, now, BadRequest, reply)
      ensures reply == Ok ==> forall t :: now <= t < now + 2_592_000_000 ==> id in Visible(View(), t)
    {
      if id !in listings {
        return Refused(NotFound);
      }
      var listing := listings[id];
      if listing.seller != user {
        return Refused(Forbidden);
      }
      if !phone || (!listing.status.Published? && !listing.status.Expired?) {
        return Refused(BadRequest);
      }
      Interleave(op, Change(Request.Renew(user, id, phone), listing), others);
      var newExpiresAt := now + EXPIRY_MS;
      var newStatus := if listing.status.Expired? then Published else listing.status;
      reply := Refused(BadRequest);
      if id in listings {
        var count :=
          UpdateWhereStatus(id, listing.status, listings[id].(status := newStatus, expiresAt := Some(newExpiresAt)));
        reply := if count == 1 then Ok else Refused(BadRequest);
      }
      pending := pending - {op};
    }

    method MarkSold(user: UserId, id: Id, op: OpId, others: seq<Event>, now: int) returns (reply: Reply)
      requires op !in pending && Others(others, op)
      modifies this
      ensures Outcome(old(View()), View(), Request.Sell(user, id), op, others, now, Conflict, reply)
    {
      if id !in listings {
        return Refused(NotFound);
      }
      var listing := listings[id];
      if listing.seller != user {
        return Refused(Forbidden);
      }
      if listing.status.Sold? {
        return Ok;
      }
      if !listing.status.Published? {
        return Refused(BadRequest);
      }
      Interleave(op, Change(Request.Sell(user, id), listing), others);
      reply := Refused(Conflict);
      if id in listings {
        var count := UpdateWhereStatus(id, Published, listings[id].(status := Sold));
        if count == 1 {
          inquiries := map k | k in inquiries ::
            if k.0 == id && inquiries[k].status.Open? then Inquiry(ClosedSold, Some(now)) else inquiries[k];
          reply := Ok;
        }
      }
      pending := pending - {op};
    }

    method ApproveListing(id: Id, phone: bool, op: OpId, others: seq<Event>, now: int) returns (reply: Reply)
      requires op !in pending && Others(others, op)
      modifies this
      ensures Outcome(old(View()), View(), Request.Approve(id, phone), op, others, now, BadRequest, reply)
    {
      if id !in listings {
        return Refused(NotFound);
      }
      var listing := listings[id];
      if !listing.status.Submitted? || !phone {
        return Refused(BadRequest);
      }
      Interleave(op, Change(Request.Approve(id, phone), listing), others);
      reply := Refused(BadRequest);
      if id in listings {
        var row := listings[id].(
          status := Published, publishedAt := Some(now), expiresAt := Some(now + EXPIRY_MS),
          approved := Some(listings[id].content));
        var count := UpdateWhereStatus(id, Submitted, row);
        reply := if count == 1 then Ok else Refused(BadRequest);
      }
      pending := pending - {op};
    }

    method RejectListing(id: Id, op: OpId, others: seq<Event>, now: int) returns (reply: Reply)
      requires op !in pending && Others(others, op)
      modifies this
      ensures Outcome(old(View()), View(), Request.Reject(id), op, others, now, BadRequest, reply)
    {
      if id !in listings {
        return Refused(NotFound);
      }
      var listing := listings[id];
      if !listing.status.Submitted? {
        return Refused(BadRequest);
      }
      Interleave(op, Change(Request.Reject(id), listing), others);
      reply := Refused(BadRequest);
      if id in listings {
        var count := UpdateWhereStatus(id, Submitted, listings[id].(status := Rejected));
        reply := if count == 1 then Ok else Refused(BadRequest);
      }
      pending := pending - {op};
    }

    method CloseInquiry(user: UserId, key: Key, wanted: Option<InquiryStatus>, op: OpId, others: seq<Event>, now: int)
      returns (reply: Reply)
      requires op !in pending && Others(others, op)
      modifies this
      ensures match CheckClose(old(View()), user, key, wanted)
        case Go(p) =>
          var mid := Replay(old(View()).(pending := old(pending)[op := p]), others);
          op in mid.pending && mid.pending[op] == p && View() == Apply(mid, Event(now, WriteClose(op))) && reply == Ok
        case No(why) => View() == old(View()) && reply == Refused(why)
        case NothingToDo => false
    {
      if key !in inquiries || key.0 !in listings {
        return Refused(NotFound);
      }
      if !inquiries[key].status.Open? {
        return Refused(BadRequest);
      }
      var isBuyer, isSeller := key.1 == user, listings[key.0].seller == user;
      if !isBuyer && !isSeller {
        return Refused(Forbidden);
      }
      if wanted.Some? {
        if wanted.value.ClosedSold? || wanted.value.Open? {
          return Refused(BadRequest);
        }
        if isBuyer && !wanted.value.ClosedNotInterested? {
          return Refused(BadRequest);
        }
        if isSeller && !wanted.value.ClosedInterested? {
          return Refused(BadRequest);
        }
      }
      var target := if wanted.Some? then wanted.value else if isBuyer then ClosedNotInterested else ClosedInterested;
      Interleave(op, Closing(key, target), others);
      if key in inquiries {
        inquiries := inquiries[key := Inquiry(target, Some(now))];
      }
      pending := pending - {op};
      reply := Ok;
    }

    method RevealContact(buyer: UserId, id: Id, phones: bool, now: int) returns (reply: Reply)
      modifies this`inquiries
      ensures View() == Apply(old(View()), Event(now, Action.Reveal(id, buyer, phones)))
      ensures reply == Ok <==> phones && id in Visible(old(View()), now) && old(listings)[id].seller != buyer
      ensures reply == Ok ==>
        id in Visible(View(), now) && (id, buyer) in inquiries && inquiries[(id, buyer)].status.Open?
      ensures reply == Ok ==> inquiries == old(inquiries)[(id, buyer) := Inquiry(Open, None)]
      ensures reply != Ok ==> View() == old(View())
    {
      if !phones || id !in listings || !listings[id].status.Published? || listings[id].expiresAt.None?
         || listings[id].expiresAt.value <= now
      {
        return Refused(BadRequest);
      }
      if listings[id].seller == buyer {
        return Refused(BadRequest);
      }
      inquiries := inquiries[(id, buyer) := Inquiry(Open, None)];
      reply := Ok;
    }

    /** Expires the listings that had lapsed at `now`, one guarded write each, with other
        operations between the read and the writes. What is visible at `now` changes only
        by theirs. */
    method ReconcileExpiredListings(op: OpId, others: seq<Event>, now: int) returns (reconciled: set<Id>)
      requires op !in pending && Others(others, op)
      modifies this
      ensures var mid :=
        Replay(old(View()).(pending := old(pending)[op := Expiring(now, LapsedIds(old(listings), now))]), others);
        && reconciled == LapsedIds(old(listings), now) * LapsedIds(mid.listings, now)
        && listings.Keys == mid.listings.Keys && inquiries == mid.inquiries
        && (forall id :: id in listings ==>
              listings[id] == if id in reconciled then mid.listings[id].(status := Expired) else mid.listings[id])
        && Visible(View(), now) == Visible(mid, now)
    {
      hide Replay, Others;
      var expired := set id |
        && id in listings && listings[id].status.Published? && listings[id].expiresAt.Some?
        && listings[id].expiresAt.value <= now;
      assert expired == LapsedIds(listings, now);
      Interleave(op, Expiring(now, expired), others);
      ghost var mid := View();
      var todo := expired;
      reconciled := {};
      while todo != {}
        invariant todo <= expired && reconciled == (expired - todo) * LapsedIds(mid.listings, now)
        invariant listings == MarkExpired(mid.listings, reconciled) && inquiries == mid.inquiries
        decreases todo
      {
        var id :| id in todo;
        todo := todo - {id};
        if id in listings && listings[id].status.Published? && listings[id].expiresAt.Some?
           && listings[id].expiresAt.value <= now
        {
          listings := listings[id := listings[id].(status := Expired)];
          reconciled := reconciled + {id};
        }
      }
      pending := pending - {op};
    }
  }

  function MarkExpired(listings: map<Id, Listing>, ids: set<Id>): map<Id, Listing> {
    map id | id in listings :: if id in ids then listings[id].(status := Expired) else listings[id]
  }
}
