/** One import job: pages are fetched until a stop signal, a page that repeats the lots
    of an earlier one ends the job, and every received item is accounted for. */
module ImportJob {
  import opened Wrappers
  import B = Budget
  import T = Transport

  type LotId = string
  type PageIdentity = seq<string>

  // ---------------------------------------------------------------------------
  // Page identities
  // ---------------------------------------------------------------------------

  datatype Item = Scalar | List | NoLotNumber | Lot(id: LotId)

  predicate IsObject(item: Item) { item.NoLotNumber? || item.Lot? }

  predicate HasObject(items: seq<Item>) { exists k :: 0 <= k < |items| && IsObject(items[k]) }

  /** The body of a response, as far as its shape goes. */
  datatype Envelope = NotAnObject | NoCollection | Data(items: seq<Item>)

  /** Usable, if it is a list that is empty or has at least one object. */
  function ValidateProviderResponse(body: Envelope): (items: Option<seq<Item>>)
    ensures items.Some? <==> body.Data? && (body.items == [] || HasObject(body.items))
    ensures items.Some? ==> items.value == body.items
  {
    match body
    case Data(items) =>
      if items == [] || HasObject(items) then Some(items) else None
    case _ => None
  }

  /** An object is anything but a scalar, null included, or a list. */
  lemma UsableExactly(body: Envelope)
    ensures ValidateProviderResponse(body).Some? <==>
      body.Data? && (body.items == [] || exists item :: item in body.items && !item.Scalar? && !item.List?)
  {
    if body.Data? && HasObject(body.items) {
      var k :| 0 <= k < |body.items| && IsObject(body.items[k]);
      assert body.items[k] in body.items;
    }
  }

  function KeyOf(item: Item): string {
    match item
    case Lot(id) => id
    case NoLotNumber => "__missing_lot_id__"
    case _ => "__non_object__"
  }

  function Keys(items: seq<Item>): (keys: seq<string>)
    ensures |keys| == |items| && forall k :: 0 <= k < |items| ==> keys[k] == KeyOf(items[k])
  {
    seq(|items|, k requires 0 <= k < |items| => KeyOf(items[k]))
  }

  predicate LessEq(a: string, b: string) {
    a == "" || (b != "" && (a[0] < b[0] || (a[0] == b[0] && LessEq(a[1..], b[1..]))))
  }

  lemma {:induction false} Total(a: string, b: string)
    ensures LessEq(a, b) || LessEq(b, a)
  {
    if a != "" && b != "" && a[0] == b[0] {
      Total(a[1..], b[1..]);
    }
  }

  lemma {:induction false} Antisymmetric(a: string, b: string)
    requires LessEq(a, b) && LessEq(b, a)
    ensures a == b
  {
    if a != "" && b != "" {
      Antisymmetric(a[1..], b[1..]);
      assert a == [a[0]] + a[1..] && b == [b[0]] + b[1..];
    }
  }

  lemma {:induction false} Transitive(a: string, b: string, c: string)
    requires LessEq(a, b) && LessEq(b, c)
    ensures LessEq(a, c)
  {
    if a != "" && a[0] == b[0] == c[0] {
      Transitive(a[1..], b[1..], c[1..]);
    }
  }

  predicate Sorted(s: seq<string>) { forall i, j :: 0 <= i < j < |s| ==> LessEq(s[i], s[j]) }

  function Insert(x: string, s: seq<string>): seq<string> {
    if s == [] then [x] else if LessEq(x, s[0]) then [x] + s else [s[0]] + Insert(x, s[1..])
  }

  function Sort(s: seq<string>): seq<string> { if s == [] then [] else Insert(s[0], Sort(s[1..])) }

  lemma {:induction false} InsertAdds(x: string, s: seq<string>)
    ensures multiset(Insert(x, s)) == multiset(s) + multiset{x}
  {
    if s != [] && !LessEq(x, s[0]) {
      InsertAdds(x, s[1..]);
      assert s == [s[0]] + s[1..];
    }
  }

  predicate Bounds(x: string, s: seq<string>) { forall j :: 0 <= j < |s| ==> LessEq(x, s[j]) }

  lemma {:induction false} InsertSorts(x: string, s: seq<string>)
    requires Sorted(s)
    ensures Sorted(Insert(x, s))
    ensures forall y :: Bounds(y, s) && LessEq(y, x) ==> Bounds(y, Insert(x, s))
  {
    if s != [] {
      if LessEq(x, s[0]) {
        forall j | 0 <= j < |s| ensures LessEq(x, s[j]) {
          if j > 0 { Transitive(x, s[0], s[j]); }
        }
      } else {
        Total(x, s[0]);
        InsertSorts(x, s[1..]);
        assert Bounds(s[0], s[1..]);
        forall y | Bounds(y, s) && LessEq(y, x) ensures Bounds(y, Insert(x, s)) {
          assert LessEq(y, s[0]) && Bounds(y, s[1..]);
        }
      }
    }
  }

  lemma {:induction false} SortSorts(s: seq<string>)
    ensures Sorted(Sort(s)) && multiset(Sort(s)) == multiset(s)
  {
    if s != [] {
      SortSorts(s[1..]);
      InsertSorts(s[0], Sort(s[1..]));
      InsertAdds(s[0], Sort(s[1..]));
      assert s == [s[0]] + s[1..];
    }
  }

  lemma TailMultiset(s: seq<string>)
    requires s != []
    ensures multiset(s[1..]) == multiset(s) - multiset{s[0]}
  {
    assert s == [s[0]] + s[1..];
  }

  /** Sorted sequences with the same elements are the same sequence. */
  lemma {:induction false} SortedUnique(a: seq<string>, b: seq<string>)
    requires Sorted(a) && Sorted(b) && multiset(a) == multiset(b)
    ensures a == b
  {
    assert |a| == |multiset(a)| == |b|;
    if a != [] {
      SameHead(a, b);
      TailMultiset(a);
      TailMultiset(b);
      SortedUnique(a[1..], b[1..]);
      assert a == [a[0]] + a[1..] && b == [b[0]] + b[1..];
    }
  }

  lemma SameHead(a: seq<string>, b: seq<string>)
    requires Sorted(a) && Sorted(b) && multiset(a) == multiset(b) && a != [] && b != []
    ensures a[0] == b[0]
  {
    assert a[0] in multiset(b) && b[0] in multiset(a);
    HeadIsLeast(a, b[0]);
    HeadIsLeast(b, a[0]);
    Antisymmetric(a[0], b[0]);
  }

  lemma Reflexive(a: string)
    ensures LessEq(a, a)
  {
    Total(a, a);
  }

  lemma HeadIsLeast(s: seq<string>, x: string)
    requires Sorted(s) && x in s
    ensures LessEq(s[0], x)
  {
    var k :| 0 <= k < |s| && s[k] == x;
    if k == 0 { Reflexive(x); }
  }

  function BuildPageIdentity(items: seq<Item>): PageIdentity { Sort(Keys(items)) }

  /** The lots of a page with their multiplicity, whatever their order. */
  function LotsOf(items: seq<Item>): multiset<string> { multiset(Keys(items)) }

  /** How often a page identity counts a key: lots under their number, objects without a
      number and everything else under a name of their own. */
  function KeyCount(items: multiset<Item>, key: string): nat {
    items[Lot(key)]
    + (if key == "__missing_lot_id__" then items[NoLotNumber] else 0)
    + (if key == "__non_object__" then items[Scalar] + items[List] else 0)
  }

  lemma OneMoreKey(items: multiset<Item>, item: Item, key: string)
    ensures KeyCount(items + multiset{item}, key) == KeyCount(items, key) + multiset{KeyOf(item)}[key]
  {
    match item
    case Lot(id) => assert multiset{item}[Lot(key)] == multiset{id}[key];
    case _ =>
  }

  lemma {:induction false} LotsExactly(items: seq<Item>, key: string)
    ensures LotsOf(items)[key] == KeyCount(multiset(items), key)
  {
    if items == [] {
      assert KeyCount(multiset(items), key) == 0;
    } else {
      hide KeyOf, KeyCount;
      var init, last := items[..|items| - 1], items[|items| - 1];
      LotsExactly(init, key);
      assert items == init + [last];
      assert Keys(items) == Keys(init) + [KeyOf(last)];
      OneMoreKey(multiset(init), last, key);
    }
  }

  /** Identities are equal exactly when the pages hold the same lots equally often. */
  lemma SameIdentityIffSameLots(p: seq<Item>, q: seq<Item>)
    ensures BuildPageIdentity(p) == BuildPageIdentity(q) <==> LotsOf(p) == LotsOf(q)
  {
    SortSorts(Keys(p));
    SortSorts(Keys(q));
    if LotsOf(p) == LotsOf(q) {
      SortedUnique(BuildPageIdentity(p), BuildPageIdentity(q));
    }
  }

  method IdentitiesEqual(a: PageIdentity, b: PageIdentity) returns (equal: bool)
    ensures equal <==> a == b
  {
    if |a| != |b| {
      return false;
    }
    for i := 0 to |a|
      invariant a[..i] == b[..i]
    {
      if a[i] != b[i] {
        return false;
      }
    }
    assert a[..|a|] == a && b[..|b|] == b;
    equal := true;
  }

  // ---------------------------------------------------------------------------
  // The page loop
  // ---------------------------------------------------------------------------

  datatype Fetch = Failed(kind: T.FetchKind, attempts: nat) | Received(body: Envelope, next: Option<string>)

  /** What the surroundings answer while page number `page` is being fetched. */
  datatype Turn = Turn(
    budgetBlocked: bool, deadlinePassed: bool, stillOwner: bool, renewed: bool, requestAllowed: bool, fetch: Fetch)

  datatype Terminal =
    | AllPagesFailed | DeadlineExceeded | NonRetryableHttpError | MalformedResponse | EmptyPage | RepeatedPage
    | MaxPagesReached

  datatype Pages = Pages(
    lots: seq<LotId>, attempted: nat, completed: nat, received: nat, skipped: nat, retryCount: int,
    terminal: Terminal, repeats: Option<(nat, nat)>)

  /** The lot ids of the items that pass item-level validation, in order. */
  function ValidLots(items: seq<Item>): seq<LotId> {
    if items == [] then []
    else ValidLots(items[..|items| - 1]) + (if items[|items| - 1].Lot? then [items[|items| - 1].id] else [])
  }

  /** A lot is kept as often as it was received under a lot number, and in that order. */
  lemma {:induction false} ValidLotsExactly(items: seq<Item>, id: LotId)
    ensures multiset(ValidLots(items))[id] == multiset(items)[Lot(id)]
  {
    if items != [] {
      ValidLotsExactly(items[..|items| - 1], id);
      assert items == items[..|items| - 1] + [items[|items| - 1]];
    }
  }

  lemma {:induction false} ValidLotsInOrder(a: seq<Item>, b: seq<Item>)
    ensures ValidLots(a + b) == ValidLots(a) + ValidLots(b)
  {
    if b == [] {
      assert a + b == a;
    } else {
      assert (a + b)[..|a + b| - 1] == a + b[..|b| - 1];
      ValidLotsInOrder(a, b[..|b| - 1]);
    }
  }

  /** Keeps the items that have a lot number and counts the others. */
  method FilterItems(items: seq<Item>) returns (valid: seq<LotId>, skipped: nat)
    ensures valid == ValidLots(items) && |valid| + skipped == |items|
  {
    valid, skipped := [], 0;
    for i := 0 to |items|
      invariant valid == ValidLots(items[..i]) && |valid| + skipped == i
    {
      assert items[..i + 1][..i] == items[..i];
      match items[i] {
        case Lot(id) => valid := valid + [id];
        case _ => skipped := skipped + 1;
      }
    }
    assert items[..|items|] == items;
  }

  /** A page that was kept, with its page number. */
  datatype Kept = Kept(page: nat, items: seq<Item>)

  predicate SameLots(p: Kept, q: Kept) { LotsOf(p.items) == LotsOf(q.items) }

  /** Kept pages are numbered upwards and no two hold the same lots. */
  predicate Different(kept: seq<Kept>) {
    forall i, j {:trigger SameLots(kept[i], kept[j])} {:trigger kept[i].page, kept[j].page} :: 0 <= i < j < |kept| ==>
      kept[i].page < kept[j].page && !SameLots(kept[i], kept[j])
  }

  /** The page holds the same lots as none of the kept ones. */
  predicate New(kept: seq<Kept>, k: Kept) {
    forall i {:trigger SameLots(kept[i], k)} :: 0 <= i < |kept| ==> !SameLots(kept[i], k)
  }

  /** The page repeats the kept page of this number. */
  predicate Repeats(kept: seq<Kept>, k: Kept, earlier: nat) {
    exists i {:trigger SameLots(kept[i], k)} :: 0 <= i < |kept| && kept[i].page == earlier && SameLots(kept[i], k)
  }

  function AllLots(kept: seq<Kept>): seq<LotId> {
    if kept == [] then [] else AllLots(kept[..|kept| - 1]) + ValidLots(kept[|kept| - 1].items)
  }

  function ItemCount(kept: seq<Kept>): nat {
    if kept == [] then 0 else ItemCount(kept[..|kept| - 1]) + |kept[|kept| - 1].items|
  }

  /** The identities remembered are those of the kept pages. */
  predicate Remembered(identities: seq<(nat, PageIdentity)>, kept: seq<Kept>) {
    && |identities| == |kept|
    && forall k {:trigger identities[k]} :: 0 <= k < |kept| ==>
      identities[k] == (kept[k].page, BuildPageIdentity(kept[k].items))
  }

  /** The kept page this one repeats, if any: the earliest. */
  method FindRepeated(identities: seq<(nat, PageIdentity)>, ghost kept: seq<Kept>, page: Kept)
    returns (earlier: Option<nat>)
    requires Remembered(identities, kept)
    ensures earlier.None? ==> New(kept, page)
    ensures earlier.Some? ==> Repeats(kept, page, earlier.value)
  {
    var current := BuildPageIdentity(page.items);
    for k := 0 to |identities|
      invariant forall j {:trigger SameLots(kept[j], page)} :: 0 <= j < k ==> !SameLots(kept[j], page)
    {
      SameIdentityIffSameLots(page.items, kept[k].items);
      var equal := IdentitiesEqual(current, identities[k].1);
      assert SameLots(kept[k], page) <==> equal;
      if equal {
        return Some(identities[k].0);
      }
    }
    earlier := None;
  }

  lemma KeepOneDifferent(kept: seq<Kept>, k: Kept)
    requires Different(kept) && New(kept, k) && Below(kept, k.page)
    ensures Different(kept + [k])
  {
    var longer := kept + [k];
    forall i, j | 0 <= i < j < |longer| ensures longer[i].page < longer[j].page && !SameLots(longer[i], longer[j]) {
      if j < |kept| {
        assert !SameLots(kept[i], kept[j]);
      } else {
        assert !SameLots(kept[i], k);
      }
    }
  }

  predicate Below(kept: seq<Kept>, page: int) { forall k :: 0 <= k < |kept| ==> kept[k].page < page }

  lemma KeepOneCounts(kept: seq<Kept>, k: Kept)
    ensures AllLots(kept + [k]) == AllLots(kept) + ValidLots(k.items)
    ensures ItemCount(kept + [k]) == ItemCount(kept) + |k.items|
  {
    assert (kept + [k])[..|kept|] == kept;
  }

  /** The running totals of the kept pages. */
  predicate Totals(kept: seq<Kept>, lots: seq<LotId>, received: nat, skipped: nat) {
    lots == AllLots(kept) && received == ItemCount(kept) == |lots| + skipped
  }

  /** Every kept page is what the surroundings delivered under its number. */
  predicate Delivered(turns: nat -> Turn, kept: seq<Kept>, page: int) {
    forall k :: 0 <= k < |kept| ==>
      1 <= kept[k].page < page && turns(kept[k].page).fetch.Received?
        && turns(kept[k].page).fetch.body == Data(kept[k].items)
  }

  /** Every kept page has an object, so a page identity. */
  predicate Identifiable(kept: seq<Kept>) { forall k :: 0 <= k < |kept| ==> HasObject(kept[k].items) }

  /** Every page up to this one whose body was received was kept. */
  predicate NothingSkipped(turns: nat -> Turn, kept: seq<Kept>, page: int) {
    forall q {:trigger turns(q)} :: 1 <= q < page && turns(q).fetch.Received? ==>
      exists k :: 0 <= k < |kept| && kept[k].page == q
  }

  lemma SkipsNothing(turns: nat -> Turn, kept: seq<Kept>, kept': seq<Kept>, page: nat)
    requires NothingSkipped(turns, kept, page) && kept <= kept' && page >= 1
    requires turns(page).fetch.Received? ==> |kept'| > |kept| && kept'[|kept|].page == page
    ensures NothingSkipped(turns, kept', page + 1)
  {
    StillKept(turns, kept, kept', page);
  }

  lemma StillKept(turns: nat -> Turn, kept: seq<Kept>, kept': seq<Kept>, page: int)
    requires NothingSkipped(turns, kept, page) && kept <= kept'
    ensures NothingSkipped(turns, kept', page)
  {
    forall q {:trigger turns(q)} | 1 <= q < page && turns(q).fetch.Received?
      ensures exists k :: 0 <= k < |kept'| && kept'[k].page == q
    {
      var k :| 0 <= k < |kept| && kept[k].page == q;
      assert kept'[k] == kept[k];
    }
  }

  lemma DeliveredGrows(turns: nat -> Turn, kept: seq<Kept>, kept': seq<Kept>, page: nat)
    requires Delivered(turns, kept, page) && Below(kept, page) && page >= 1
    requires kept' == kept
      || (turns(page).fetch.Received? && turns(page).fetch.body.Data?
        && kept' == kept + [Kept(page, turns(page).fetch.body.items)])
    ensures Delivered(turns, kept', page + 1) && Below(kept', page + 1)
  {
  }

  lemma DeliveredWider(turns: nat -> Turn, kept: seq<Kept>, page: int, wider: int)
    requires Delivered(turns, kept, page) && page <= wider
    ensures Delivered(turns, kept, wider)
  {
  }

  lemma NothingYet(turns: nat -> Turn)
    ensures Consistent(Progress([], [], 0, 0, 0, 0, None), [])
    ensures Delivered(turns, [], 1) && Below([], 1) && Identifiable([]) && NothingSkipped(turns, [], 1)
    ensures AllPass(turns, 1) && Retries(turns, 1) == 0
  {
  }

  lemma ConsistentFacts(p: Progress, kept: seq<Kept>)
    requires Consistent(p, kept)
    ensures Different(kept) && Totals(kept, p.lots, p.received, p.skipped) && |p.identities| == |kept| <= p.attempted
    ensures p.received == |p.lots| + p.skipped
  {
  }

  /** What a visit to a page adds to what is known of the kept pages. */
  lemma PageVisited(turns: nat -> Turn, kept: seq<Kept>, kept': seq<Kept>, page: nat)
    requires Delivered(turns, kept, page) && Below(kept, page) && Identifiable(kept)
    requires NothingSkipped(turns, kept, page) && AllPass(turns, page) && page >= 1
    requires VisitKeeps(turns(page), page, kept, kept')
    ensures Delivered(turns, kept', page + 1) && Below(kept', page + 1) && Identifiable(kept')
    ensures NothingSkipped(turns, kept', page)
    ensures (turns(page).fetch.Received? ==> kept' != kept) ==> NothingSkipped(turns, kept', page + 1)
    ensures Passes(turns(page)) ==> Attempted(turns(page)) && AllPass(turns, page + 1)
    ensures Retries(turns, page + 1) == Retries(turns, page) + RetriesOf(turns(page))
  {
    DeliveredGrows(turns, kept, kept', page);
    StillKept(turns, kept, kept', page);
    if turns(page).fetch.Received? ==> kept' != kept {
      SkipsNothing(turns, kept, kept', page);
    }
  }

  /** The page is kept exactly if it has lots and repeats no page kept before. */
  predicate VisitKeeps(turn: Turn, page: nat, kept: seq<Kept>, kept': seq<Kept>) {
    if HasLots(turn) && New(kept, Kept(page, turn.fetch.body.items))
    then kept' == kept + [Kept(page, turn.fetch.body.items)]
    else kept' == kept
  }

  /** Keeps a page unless it repeats an earlier one. */
  method KeepPage(
      identities: seq<(nat, PageIdentity)>, ghost kept: seq<Kept>, page: nat, data: seq<Item>, lots: seq<LotId>,
      received: nat, skipped: nat)
    returns (identities': seq<(nat, PageIdentity)>, ghost kept': seq<Kept>, lots': seq<LotId>, received': nat,
      skipped': nat, earlier: Option<nat>)
    requires Different(kept) && Remembered(identities, kept) && Totals(kept, lots, received, skipped)
    requires Below(kept, page)
    ensures Different(kept') && Remembered(identities', kept') && Totals(kept', lots', received', skipped')
    ensures earlier.None? ==> kept' == kept + [Kept(page, data)]
    ensures earlier.Some? ==> kept' == kept && Repeats(kept, Kept(page, data), earlier.value)
  {
    identities', kept', lots', received', skipped' := identities, kept, lots, received, skipped;
    earlier := FindRepeated(identities, kept, Kept(page, data));
    if earlier.None? {
      var valid, skippedHere := FilterItems(data);
      KeepOneDifferent(kept, Kept(page, data));
      KeepOneCounts(kept, Kept(page, data));
      identities', kept' := identities + [(page, BuildPageIdentity(data))], kept + [Kept(page, data)];
      lots', received', skipped' := lots + valid, received + |data|, skipped + skippedHere;
    }
  }

  /** A failed fetch ends the job at once only if no later page could fare better. */
  function AfterFailure(kind: T.FetchKind): Option<Terminal> {
    match kind
    case Http4xx => Some(NonRetryableHttpError)
    case DeadlineExceeded => Some(Terminal.DeadlineExceeded)
    case _ => None
  }

  /** The page is counted as attempted: budget, deadline and lease allow it. */
  predicate Attempted(turn: Turn) {
    !turn.budgetBlocked && !turn.deadlinePassed && turn.stillOwner && turn.renewed
  }

  /** The page is asked for: the ledger allows that too. */
  predicate Requested(turn: Turn) { Attempted(turn) && turn.requestAllowed }

  /** The page is asked for and objects come with it. */
  predicate HasLots(turn: Turn) {
    Requested(turn) && turn.fetch.Received? && turn.fetch.body.Data? && HasObject(turn.fetch.body.items)
  }

  /** Nothing in the answers of the surroundings stops the job at this page. */
  predicate Passes(turn: Turn) {
    && Requested(turn)
    && match turn.fetch
       case Failed(kind, _) => !kind.Http4xx? && !kind.DeadlineExceeded?
       case Received(_, next) => HasLots(turn) && next.Some? && next.value != ""
  }

  /** The one answer that stops the job at a page, tests in their order; of the pages that
      have lots only a last one is kept. */
  predicate StopSignal(turn: Turn, page: nat, kept: seq<Kept>, terminal: Terminal, repeats: Option<(nat, nat)>) {
    match terminal
    case MaxPagesReached => false
    case AllPagesFailed => turn.budgetBlocked || (!turn.deadlinePassed && !Requested(turn))
    case DeadlineExceeded =>
      && !turn.budgetBlocked
      && (turn.deadlinePassed || (Requested(turn) && turn.fetch.Failed? && turn.fetch.kind.DeadlineExceeded?))
    case NonRetryableHttpError => Requested(turn) && turn.fetch.Failed? && turn.fetch.kind.Http4xx?
    case MalformedResponse =>
      Requested(turn) && turn.fetch.Received? && turn.fetch.body != Data([]) && !HasLots(turn)
    case EmptyPage =>
      && Requested(turn) && turn.fetch.Received?
      && (turn.fetch.body == Data([])
          || (HasLots(turn) && turn.fetch.next in {None, Some("")} && kept != []
              && kept[|kept| - 1] == Kept(page, turn.fetch.body.items)))
    case RepeatedPage =>
      && HasLots(turn) && repeats.Some? && repeats.value.0 == page
      && Repeats(kept, Kept(page, turn.fetch.body.items), repeats.value.1)
  }

  /** Repetitions of the request for a page. */
  function RetriesOf(turn: Turn): int {
    if Requested(turn) && turn.fetch.Failed? then turn.fetch.attempts - 1 else 0
  }

  /** Repetitions over the pages before `page`. */
  function Retries(turns: nat -> Turn, page: nat): int {
    if page <= 1 then 0 else Retries(turns, page - 1) + RetriesOf(turns(page - 1))
  }

  /** The pages from the first up to this one were all passed. */
  predicate AllPass(turns: nat -> Turn, page: int) {
    forall q {:trigger turns(q)} :: 1 <= q < page ==> Passes(turns(q))
  }

  /** The local variables of the loop besides the page number. */
  datatype Progress = Progress(
    identities: seq<(nat, PageIdentity)>, lots: seq<LotId>, attempted: nat, received: nat, skipped: nat,
    retryCount: int,
    repeats: Option<(nat, nat)>)

  ghost predicate Consistent(p: Progress, kept: seq<Kept>) {
    && Different(kept) && Remembered(p.identities, kept) && Totals(kept, p.lots, p.received, p.skipped)
    && |kept| <= p.attempted
  }

  /** A response body: kept, or a reason to stop. */
  method TakeBody(ghost turn: Turn, body: Envelope, next: Option<string>, page: nat, p: Progress, ghost kept: seq<Kept>)
    returns (p': Progress, ghost kept': seq<Kept>, terminal: Option<Terminal>)
    requires Consistent(p, kept) && |kept| < p.attempted && Below(kept, page) && turn.fetch == Received(body, next)
    ensures Consistent(p', kept') && p'.attempted == p.attempted
    requires Requested(turn)
    ensures p'.retryCount == p.retryCount && VisitKeeps(turn, page, kept, kept')
    ensures terminal.None? <==> Passes(turn) && kept' != kept
    ensures terminal.Some? && !terminal.value.EmptyPage? ==> kept' == kept
    ensures terminal.Some? ==> StopSignal(turn, page, kept', terminal.value, p'.repeats)
  {
    p', kept' := p, kept;
    var validation := ValidateProviderResponse(body);
    if validation.None? {
      return p', kept', Some(MalformedResponse);
    }
    var data := validation.value;
    if |data| == 0 {
      return p', kept', Some(EmptyPage);
    }
    var identities, lots, received, skipped, earlier;
    identities, kept', lots, received, skipped, earlier :=
      KeepPage(p.identities, kept, page, data, p.lots, p.received, p.skipped);
    p' := p.(identities := identities, lots := lots, received := received, skipped := skipped);
    if earlier.Some? {
      p' := p'.(repeats := Some((page, earlier.value)));
      return p', kept', Some(RepeatedPage);
    }
    terminal := if next.None? || next.value == "" then Some(EmptyPage) else None;
  }

  /** One pass of the page loop. */
  method VisitPage(turn: Turn, page: nat, p: Progress, ghost kept: seq<Kept>)
    returns (p': Progress, ghost kept': seq<Kept>, terminal: Option<Terminal>)
    requires Consistent(p, kept) && Below(kept, page)
    ensures Consistent(p', kept') && VisitKeeps(turn, page, kept, kept')
    ensures p'.attempted == p.attempted + B.One(Attempted(turn)) && p'.retryCount == p.retryCount + RetriesOf(turn)
    ensures terminal.None? <==> Passes(turn) && (turn.fetch.Received? ==> kept' != kept)
    ensures terminal.Some? && !terminal.value.EmptyPage? ==> kept' == kept
    ensures terminal.Some? ==> StopSignal(turn, page, kept', terminal.value, p'.repeats)
  {
    p', kept' := p, kept;
    if turn.budgetBlocked {
      return p', kept', Some(AllPagesFailed);
    }
    if turn.deadlinePassed {
      return p', kept', Some(DeadlineExceeded);
    }
    if !turn.stillOwner || !turn.renewed {
      return p', kept', Some(AllPagesFailed);
    }
    p' := p.(attempted := p.attempted + 1);
    if !turn.requestAllowed {
      return p', kept', Some(AllPagesFailed);
    }
    match turn.fetch {
      case Failed(kind, attempts) =>
        p' := p'.(retryCount := p'.retryCount + attempts - 1);
        terminal := AfterFailure(kind);
      case Received(body, next) =>
        p', kept', terminal := TakeBody(turn, body, next, page, p', kept);
    }
  }

  /** Fetches pages until a stop signal. What is kept is pairwise different, and every
      item of it is either among the lots or counted as skipped. */
  method Paginate(turns: nat -> Turn, maxPages: int) returns (r: Pages, ghost kept: seq<Kept>, ghost last: nat)
    ensures r.completed == |kept| <= r.attempted <= Max(0, maxPages) && r.received == |r.lots| + r.skipped
    ensures Different(kept) && Delivered(turns, kept, Max(0, maxPages) + 1)
    ensures Totals(kept, r.lots, r.received, r.skipped) && Identifiable(kept)
    ensures Stopped(turns, maxPages, kept, r, last) && NothingSkipped(turns, kept, last)
    ensures AllPass(turns, last) && CountsPages(turns, maxPages, r, last)
    ensures !r.terminal.EmptyPage? ==> Below(kept, last)
  {
    NothingYet(turns);
    hide Consistent, Delivered, Below, Identifiable, NothingSkipped, Different, Totals, Remembered;
    hide AllPass, Passes, Retries, RetriesOf, StopSignal, VisitKeeps, Attempted;
    var page := 1;
    var p := Progress([], [], 0, 0, 0, 0, None);
    var terminal: Option<Terminal> := None;
    kept := [];
    while page <= maxPages
      invariant 1 <= page <= Max(0, maxPages) + 1
      invariant Consistent(p, kept) && Delivered(turns, kept, page) && Below(kept, page) && terminal.None?
      invariant Identifiable(kept) && NothingSkipped(turns, kept, page) && AllPass(turns, page)
      invariant p.attempted == page - 1 && p.retryCount == Retries(turns, page)
      decreases maxPages - page
    {
      ghost var before := kept;
      p, kept, terminal := VisitPage(turns(page), page, p, kept);
      PageVisited(turns, before, kept, page);
      if terminal.Some? {
        break;
      }
      page := page + 1;
    }
    last := page;
    DeliveredWider(turns, kept, if terminal.Some? then page + 1 else page, Max(0, maxPages) + 1);
    if terminal.None? {
      terminal := Some(if |p.identities| > 0 then MaxPagesReached else AllPagesFailed);
    }
    ConsistentFacts(p, kept);
    r := Pages(p.lots, p.attempted, |p.identities|, p.received, p.skipped, p.retryCount, terminal.value, p.repeats);
  }

  /** Why the loop ended: a signal at the page it had reached, or the last page was passed. */
  predicate Stopped(turns: nat -> Turn, maxPages: int, kept: seq<Kept>, r: Pages, page: nat) {
    if page <= maxPages then StopSignal(turns(page), page, kept, r.terminal, r.repeats)
    else r.terminal == if r.completed > 0 then MaxPagesReached else AllPagesFailed
  }

  /** Every page passed counts as attempted, the last one if it came to a request; the
      repetitions are those of all pages. */
  predicate CountsPages(turns: nat -> Turn, maxPages: int, r: Pages, last: nat) {
    && last >= 1
    && r.attempted == last - 1 + B.One(last <= maxPages && Attempted(turns(last)))
    && r.retryCount == Retries(turns, last) + if last <= maxPages then RetriesOf(turns(last)) else 0
  }

  // ---------------------------------------------------------------------------
  // Processing
  // ---------------------------------------------------------------------------

  datatype JobStatus = JobSuccess | JobPartialSuccess | JobFailed

  datatype Tally = Tally(created: nat, updated: nat, errors: nat)

  /** The lots among the first `n` whose processing does not throw. */
  function Processed(lots: seq<LotId>, fails: nat -> bool, n: nat): set<LotId>
    requires n <= |lots|
  {
    if n == 0 then {} else Processed(lots, fails, n - 1) + if fails(n - 1) then {} else {lots[n - 1]}
  }

  function Failures(fails: nat -> bool, n: nat): nat {
    if n == 0 then 0 else Failures(fails, n - 1) + B.One(fails(n - 1))
  }

  /** A lot is among the processed ones exactly if one of its occurrences did not throw. */
  lemma {:induction false} ProcessedExactly(lots: seq<LotId>, fails: nat -> bool, n: nat, id: LotId)
    requires n <= |lots|
    ensures id in Processed(lots, fails, n) <==> exists k: nat :: k < n && lots[k] == id && !fails(k)
  {
    if n > 0 {
      ProcessedExactly(lots, fails, n - 1, id);
    }
  }

  lemma {:induction false} FailuresExactly(fails: nat -> bool, n: nat)
    ensures Failures(fails, n) == |set k: nat | k < n && fails(k)|
  {
    if n > 0 {
      FailuresExactly(fails, n - 1);
      var before, now := set k: nat | k < n - 1 && fails(k), set k: nat | k < n && fails(k);
      assert now == if fails(n - 1) then before + {n - 1} else before;
    }
  }

  /** Writes the collected lots; `fails(k)` when processing lot `k` throws before its
      binding is written. A lot gets one binding, however often it was received, and the
      new bindings are exactly the lots counted as created. */
  method ProcessLots(lots: seq<LotId>, fails: nat -> bool, bindings: set<LotId>) returns (t: Tally, bound: set<LotId>)
    ensures t.created + t.updated + t.errors == |lots| && t.errors == Failures(fails, |lots|)
    ensures bound == bindings + Processed(lots, fails, |lots|)
    ensures |bound| == |bindings| + t.created
  {
    var created, updated, errors := 0, 0, 0;
    bound := bindings;
    for i := 0 to |lots|
      invariant created + updated + errors == i && errors == Failures(fails, i)
      invariant bound == bindings + Processed(lots, fails, i) && |bound| == |bindings| + created
    {
      if fails(i) {
        errors := errors + 1;
      } else if lots[i] in bound {
        updated := updated + 1;
      } else {
        bound := bound + {lots[i]};
        created := created + 1;
      }
    }
    t := Tally(created, updated, errors);
  }

  function FinalStatus(t: Tally): JobStatus {
    if t.errors > 0 && t.created + t.updated == 0 then JobFailed
    else if t.errors > 0 then JobPartialSuccess
    else JobSuccess
  }

  /** The whole job up to its fenced final write. Nothing received is lost from the
      summary; the status looks at processing errors only, so a job that kept no page
      at all still reports success. */
  method RunImport(turns: nat -> Turn, maxPages: int, fails: nat -> bool, bindings: set<LotId>)
    returns (r: Pages, t: Tally, bound: set<LotId>, status: JobStatus, ghost kept: seq<Kept>, ghost last: nat)
    ensures Different(kept) && r.completed == |kept| <= Max(0, maxPages) && r.received == ItemCount(kept)
    ensures t.created + t.updated + t.errors + r.skipped == r.received
    ensures |bound| == |bindings| + t.created && bindings <= bound
    ensures Stopped(turns, maxPages, kept, r, last) && NothingSkipped(turns, kept, last)
    ensures AllPass(turns, last) && CountsPages(turns, maxPages, r, last)
    ensures status.JobFailed? <==> t.errors > 0 && t.created + t.updated == 0
    ensures status.JobSuccess? <==> t.errors == 0
    ensures kept == [] ==> status.JobSuccess?
  {
    r, kept, last := Paginate(turns, maxPages);
    t, bound := ProcessLots(r.lots, fails, bindings);
    status := FinalStatus(t);
  }

  // ---------------------------------------------------------------------------
  // The job's use of the ledger
  // ---------------------------------------------------------------------------

  /** One attempt of a page: what other callers do before it, and its reservation. */
  datatype Try = Try(id: B.AttemptId, others: seq<B.Op>, now: nat)

  /** The end of a page: what other callers do before its two calls, and how the fetch failed, if it did. */
  datatype Ending = Ending(
    before: seq<B.Op>, confirmedAt: nat, between: seq<B.Op>, failure: Option<T.FetchKind>, completedAt: nat)

  /** The column a failed fetch is booked in; an unreadable body has none. */
  function BookAs(kind: T.FetchKind): Option<B.FailureKind> {
    match kind
    case Http429 => Some(B.RateLimit)
    case Http5xx => Some(B.Server)
    case NetworkError => Some(B.Network)
    case Http4xx => Some(B.Client)
    case MalformedResponse => None
    case _ => Some(B.Timeout)
  }

  /** The call that completes the attempt. */
  function Completion(id: B.AttemptId, e: Ending): B.Op {
    B.Complete(id, e.failure.None?, if e.failure.Some? then BookAs(e.failure.value) else None, e.completedAt)
  }

  /** The ledger once a page's attempts are reserved one by one until one is denied, and
      the number granted. */
  function Reserving(c: B.Config, l: B.Ledger, tries: seq<Try>, p: B.Provider): (r: (B.Ledger, nat))
    ensures r.1 <= |tries|
  {
    if tries == [] then (l, 0)
    else
      var (m, n) := Reserving(c, l, tries[..|tries| - 1], p);
      var last := tries[|tries| - 1];
      if n < |tries| - 1 then (m, n)
      else
        var (l', reply) := B.Step(c, B.Run(c, m, last.others), B.Reserve(last.id, p, B.Routine, last.now));
        (l', if reply.Allowed? then n + 1 else n)
  }

  /** The page's two calls at its end, with what others do around them. */
  function EndOps(id: B.AttemptId, e: Ending): seq<B.Op> {
    e.before + [B.Confirm(id, e.confirmedAt)] + e.between + [Completion(id, e)]
  }

  /** What a page leaves in the ledger: only the last granted attempt is confirmed and completed. */
  function PageLedger(c: B.Config, l: B.Ledger, tries: seq<Try>, p: B.Provider, e: Ending): B.Ledger {
    var (m, n) := Reserving(c, l, tries, p);
    if n == 0 then m else B.Run(c, m, EndOps(tries[n - 1].id, e))
  }

  /** The hook before each attempt reserves it and remembers it, if it was granted. */
  method ReserveTries(service: B.RequestBudgetService, tries: seq<Try>, p: B.Provider)
    returns (lastAttemptId: Option<B.AttemptId>, ghost granted: nat)
    modifies service
    ensures (service.View(), granted) == Reserving(service.config, old(service.View()), tries, p)
    ensures lastAttemptId == LastOf(tries, granted)
  {
    hide B.Run, B.Step;
    lastAttemptId, granted := None, 0;
    var i, denied := 0, false;
    while i < |tries| && !denied
      invariant i <= |tries| && (granted == if denied then i - 1 else i) && lastAttemptId == LastOf(tries, granted)
      invariant (service.View(), granted) == Reserving(service.config, old(service.View()), tries[..i], p)
    {
      assert tries[..i + 1][..i] == tries[..i];
      service.Serve(tries[i].others);
      var reply := service.Reserve(tries[i].id, p, B.Routine, tries[i].now);
      denied := !reply.Allowed?;
      if !denied {
        lastAttemptId, granted := Some(tries[i].id), granted + 1;
      }
      i := i + 1;
    }
    DeniedIsFinal(service.config, old(service.View()), tries, p, i);
  }

  function LastOf(tries: seq<Try>, n: nat): Option<B.AttemptId> {
    if 0 < n <= |tries| then Some(tries[n - 1].id) else None
  }

  /** The remembered attempt is settled when the fetch has ended. */
  method SettleLast(service: B.RequestBudgetService, id: B.AttemptId, e: Ending)
    modifies service
    ensures service.View() == B.Run(service.config, old(service.View()), EndOps(id, e))
  {
    service.Serve(e.before + [B.Confirm(id, e.confirmedAt)] + e.between);
    service.Complete(id, e.failure.None?, if e.failure.Some? then BookAs(e.failure.value) else None, e.completedAt);
    EndInOrder(service.config, old(service.View()), id, e);
  }

  /** The ledger calls of one page. */
  method UseLedger(service: B.RequestBudgetService, tries: seq<Try>, p: B.Provider, e: Ending)
    modifies service
    ensures service.View() == PageLedger(service.config, old(service.View()), tries, p, e)
  {
    var lastAttemptId, _ := ReserveTries(service, tries, p);
    if lastAttemptId.Some? {
      SettleLast(service, lastAttemptId.value, e);
    }
  }

  lemma EndInOrder(c: B.Config, l: B.Ledger, id: B.AttemptId, e: Ending)
    ensures B.Run(c, l, EndOps(id, e)) ==
      B.Step(c, B.Run(c, l, e.before + [B.Confirm(id, e.confirmedAt)] + e.between),
             Completion(id, e)).0
  {
    var ops := EndOps(id, e);
    assert ops[..|ops| - 1] == e.before + [B.Confirm(id, e.confirmedAt)] + e.between;
  }

  lemma {:induction false} DeniedIsFinal(c: B.Config, l: B.Ledger, tries: seq<Try>, p: B.Provider, i: nat)
    requires i <= |tries| && (i < |tries| ==> Reserving(c, l, tries[..i], p).1 < i)
    ensures Reserving(c, l, tries, p) == Reserving(c, l, tries[..i], p)
    decreases |tries|
  {
    if i == |tries| {
      assert tries[..i] == tries;
    } else {
      var init := tries[..|tries| - 1];
      assert init[..i] == tries[..i];
      DeniedIsFinal(c, l, init, p, i);
    }
  }

  function IdsOf(tries: seq<Try>): set<B.AttemptId> { set k | 0 <= k < |tries| :: tries[k].id }

  /** Attempt ids are fresh random identifiers: distinct, unused, and unknown to others. */
  ghost predicate FreshTries(l: B.Ledger, tries: seq<Try>, e: Ending) {
    && DistinctTries(tries)
    && (forall i :: 0 <= i < |tries| ==> tries[i].id !in l.reservations && B.Foreign(tries[i].others, IdsOf(tries)))
    && B.Foreign(e.before, IdsOf(tries)) && B.Foreign(e.between, IdsOf(tries))
  }

  /** The first `n` attempts are reserved and still open, the others unknown. */
  ghost predicate AllOpen(l: B.Ledger, tries: seq<Try>, n: nat) {
    forall k :: 0 <= k < |tries| ==>
      && (tries[k].id in l.reservations <==> k < n)
      && (k < n ==> l.reservations[tries[k].id].status.Allocated?)
  }

  /** The attempt is settled with the outcome of the fetch. */
  predicate Booked(r: B.Reservation, failure: Option<T.FetchKind>) {
    && r.status == (if failure.None? then B.Succeeded else B.Failed)
    && (r.failure == Some(B.RateLimit) <==> failure == Some(T.Http429))
    && (r.failure == Some(B.Server) <==> failure == Some(T.Http5xx))
    && (r.failure == Some(B.Network) <==> failure == Some(T.NetworkError))
    && (r.failure == Some(B.Client) <==> failure == Some(T.Http4xx))
    && (r.failure == Some(B.Timeout) <==> failure in {Some(T.Aborted), Some(T.DeadlineExceeded)})
    && (r.failure.None? <==> failure in {None, Some(T.MalformedResponse)})
  }

  /** As above, but the last of the `n` is settled. */
  ghost predicate LastSettled(l: B.Ledger, tries: seq<Try>, n: nat, e: Ending) {
    forall k :: 0 <= k < |tries| ==>
      && (tries[k].id in l.reservations <==> k < n)
      && (k < n - 1 ==> l.reservations[tries[k].id].status.Allocated?)
      && (k == n - 1 ==> Booked(l.reservations[tries[k].id], e.failure))
  }

  lemma OthersKeepOpen(c: B.Config, l: B.Ledger, tries: seq<Try>, n: nat, ops: seq<B.Op>)
    requires AllOpen(l, tries, n) && B.Foreign(ops, IdsOf(tries))
    ensures AllOpen(B.Run(c, l, ops), tries, n)
  {
    B.ForeignOpsKeep(c, l, ops, IdsOf(tries));
  }

  lemma {:induction false} ReservedAreOpen(
      c: B.Config, l: B.Ledger, tries: seq<Try>, p: B.Provider, e: Ending, i: nat)
    requires FreshTries(l, tries, e) && i <= |tries|
    ensures var (m, n) := Reserving(c, l, tries[..i], p); AllOpen(m, tries, n)
    decreases i
  {
    if i > 0 {
      assert tries[..i][..i - 1] == tries[..i - 1];
      ReservedAreOpen(c, l, tries, p, e, i - 1);
      var (m, n) := Reserving(c, l, tries[..i - 1], p);
      OthersKeepOpen(c, m, tries, n, tries[i - 1].others);
    }
  }

  /** As above, but the last of the `n` is confirmed. */
  ghost predicate LastConfirmed(l: B.Ledger, tries: seq<Try>, n: nat) {
    forall k :: 0 <= k < |tries| ==>
      && (tries[k].id in l.reservations <==> k < n)
      && (k < n - 1 ==> l.reservations[tries[k].id].status.Allocated?)
      && (k == n - 1 ==> l.reservations[tries[k].id].status.Confirmed?)
  }

  predicate DistinctTries(tries: seq<Try>) { forall i, j :: 0 <= i < j < |tries| ==> tries[i].id != tries[j].id }

  lemma ConfirmLast(c: B.Config, l: B.Ledger, tries: seq<Try>, n: nat, now: nat)
    requires DistinctTries(tries) && 1 <= n <= |tries| && AllOpen(l, tries, n)
    ensures LastConfirmed(B.Step(c, l, B.Confirm(tries[n - 1].id, now)).0, tries, n)
  {
  }

  lemma CompleteLast(c: B.Config, l: B.Ledger, tries: seq<Try>, n: nat, e: Ending)
    requires DistinctTries(tries) && 1 <= n <= |tries| && LastConfirmed(l, tries, n)
    ensures LastSettled(B.Step(c, l, Completion(tries[n - 1].id, e)).0, tries, n, e)
  {
  }

  lemma EndSettles(c: B.Config, l: B.Ledger, tries: seq<Try>, n: nat, e: Ending)
    requires DistinctTries(tries) && 1 <= n <= |tries|
    requires AllOpen(l, tries, n) && B.Foreign(e.before, IdsOf(tries)) && B.Foreign(e.between, IdsOf(tries))
    ensures LastSettled(B.Run(c, l, EndOps(tries[n - 1].id, e)), tries, n, e)
  {
    var id := tries[n - 1].id;
    var mid := B.Run(c, l, e.before);
    OthersKeepOpen(c, l, tries, n, e.before);
    var confirmed := B.Step(c, mid, B.Confirm(id, e.confirmedAt)).0;
    var late := B.Run(c, confirmed, e.between);
    B.ForeignOpsKeep(c, confirmed, e.between, IdsOf(tries));
    EndByCalls(c, l, id, e);
    ConfirmLast(c, mid, tries, n, e.confirmedAt);
    CompleteLast(c, late, tries, n, e);
  }

  lemma EndByCalls(c: B.Config, l: B.Ledger, id: B.AttemptId, e: Ending)
    ensures var confirmed := B.Step(c, B.Run(c, l, e.before), B.Confirm(id, e.confirmedAt)).0;
      B.Run(c, l, EndOps(id, e)) ==
      B.Step(c, B.Run(c, confirmed, e.between), Completion(id, e)).0
  {
    EndInOrder(c, l, id, e);
    B.RunConcat(c, l, e.before + [B.Confirm(id, e.confirmedAt)], e.between);
    assert (e.before + [B.Confirm(id, e.confirmedAt)])[..|e.before|] == e.before;
  }

  lemma PageSettlesLast(c: B.Config, l: B.Ledger, tries: seq<Try>, p: B.Provider, e: Ending)
    requires FreshTries(l, tries, e)
    ensures LastSettled(PageLedger(c, l, tries, p, e), tries, Reserving(c, l, tries, p).1, e)
  {
    hide B.Run, B.Step;
    var (m, n) := Reserving(c, l, tries, p);
    assert tries[..|tries|] == tries;
    ReservedAreOpen(c, l, tries, p, e, |tries|);
    if n > 0 {
      EndSettles(c, m, tries, n, e);
    }
  }

  lemma LaterKeepsSettled(c: B.Config, l: B.Ledger, tries: seq<Try>, n: nat, e: Ending, later: seq<B.Op>)
    requires LastSettled(l, tries, n, e) && B.Foreign(later, IdsOf(tries))
    ensures LastSettled(B.Run(c, l, later), tries, n, e)
  {
    B.ForeignOpsKeep(c, l, later, IdsOf(tries));
  }

  /** Of the attempts a page was granted exactly the last is settled, and every other one
      stays reserved and unsettled for ever, whatever other callers do from then on. */
  lemma OnlyLastAttemptSettles(
      c: B.Config, l: B.Ledger, tries: seq<Try>, p: B.Provider, e: Ending, later: seq<B.Op>, k: nat)
    requires FreshTries(l, tries, e) && B.Foreign(later, IdsOf(tries)) && k < |tries|
    ensures var n := Reserving(c, l, tries, p).1; var l' := B.Run(c, PageLedger(c, l, tries, p, e), later);
      && (tries[k].id in l'.reservations <==> k < n)
      && (k < n ==> (B.Settled(l'.reservations[tries[k].id].status) <==> k == n - 1))
      && (k < n - 1 ==> l'.reservations[tries[k].id].status.Allocated?)
      && (k == n - 1 ==> Booked(l'.reservations[tries[k].id], e.failure))
  {
    PageSettlesLast(c, l, tries, p, e);
    LaterKeepsSettled(c, PageLedger(c, l, tries, p, e), tries, Reserving(c, l, tries, p).1, e, later);
  }

  /** So a page settles all its attempts exactly if it was granted no more than one, that
      is, if its fetch was not retried. */
  lemma AllSettledIffNotRetried(
      c: B.Config, l: B.Ledger, tries: seq<Try>, p: B.Provider, e: Ending, later: seq<B.Op>)
    requires FreshTries(l, tries, e) && B.Foreign(later, IdsOf(tries))
    ensures var l' := B.Run(c, PageLedger(c, l, tries, p, e), later);
      (forall k :: 0 <= k < |tries| && tries[k].id in l'.reservations ==>
         B.Settled(l'.reservations[tries[k].id].status))
      <==> Reserving(c, l, tries, p).1 <= 1
  {
    var l' := B.Run(c, PageLedger(c, l, tries, p, e), later);
    forall k: nat | k < |tries|
      ensures var n := Reserving(c, l, tries, p).1;
        && (tries[k].id in l'.reservations <==> k < n)
        && (k < n ==> (B.Settled(l'.reservations[tries[k].id].status) <==> k == n - 1))
    {
      OnlyLastAttemptSettles(c, l, tries, p, e, later, k);
    }
    if Reserving(c, l, tries, p).1 > 1 {
      assert tries[0].id in l'.reservations && !B.Settled(l'.reservations[tries[0].id].status);
    }
  }
}
