/** The discovery sweep of one provider: workers claim the lease, read a checkpoint,
    fetch pages outside any transaction and commit page and checkpoint together
    inside a leased transaction. Workers keep stale local values, may stop or crash
    anywhere, and interleave with import jobs, searches and the scheduler. */
module Discovery {
  import opened Wrappers
  import L = Leases

  type Token = L.Token
  type Cursor = string
  type LotId = string

  const CYCLE_INTERVAL_MS: int := 6 * 60 * 60 * 1000
  const MAX_PAGES_PER_RUN: nat := 2

  /** A checkpoint's query; `scoped` when it names a make or a model. */
  datatype Query = Query(fingerprint: string, scoped: bool)

  datatype Lifecycle = NotReady | Upcoming | Open | Live | Ended | SoldOut | Gone
  datatype LotState = Discovered | Importing | Imported | SoldLot | RemovedLot | Unavailable

  /** What a page says about one lot. */
  datatype Facts = Facts(passenger: bool, lifecycle: Lifecycle)

  /** A validated page, keyed by lot id. */
  datatype Page = Page(lots: map<LotId, Facts>, next: Option<Cursor>)

  /** The provider's answer to a query in one cycle at one cursor. */
  type Provider = (Query, nat, Option<Cursor>) -> Page

  datatype LotRow = LotRow(
    lastSeenAt: int, misses: nat, lifecycle: Lifecycle, state: LotState, nextRefreshAt: Option<int>)

  /** `cycle` and `pages` are history: how often the sweep restarted, and the pages
      committed since. */
  datatype Checkpoint = Checkpoint(
    cursor: Option<Cursor>, cycleStartedAt: Option<int>, exhaustedAt: Option<int>, nextDueAt: Option<int>,
    cycle: nat, pages: seq<Page>)

  datatype Phase = Claimed | NeedRestart | NeedStart | Ready | Fetched(page: Page, observedAt: int) | Ending | Finished

  /** One run of `runDiscovery` with its local variables. */
  datatype Worker = Worker(
    query: Query, fence: nat, limit: nat, readAt: int, cursor: Option<Cursor>, cycleStart: int, committed: nat,
    phase: Phase)

  /** History: an exhausting commit that charged misses. */
  datatype Sweep = Sweep(query: Query, cycle: nat, startedAt: int)

  datatype System = System(
    lease: L.Lease, checkpoints: map<Query, Checkpoint>, lots: map<LotId, LotRow>, workers: map<Token, Worker>,
    charges: map<LotId, seq<Sweep>>, clock: int)

  datatype Action =
    | Claim(w: Token, query: Query, ttl: int, maxPages: int)
    | Read(w: Token)
    | Restart(w: Token)
    | StartCycle(w: Token)
    | Fetch(w: Token)
    | Commit(w: Token)
    | NoteError(w: Token)
    | Stop(w: Token)
    | Release(w: Token)
    | Crash(w: Token)
    | Foreign(op: L.Op)
    | Search(lot: LotId, facts: Facts, observedAt: int)
    | Rewrite(lot: LotId, lifecycle: Lifecycle, state: LotState, nextRefreshAt: Option<int>)

  /** Events are ordered by the instant `now` they take effect; a transaction checked
      its clock at `checked`, while it already held its locks. */
  datatype Event = Event(now: int, checked: int, act: Action)

  // ---------------------------------------------------------------------------
  // The provider's cursor chain
  // ---------------------------------------------------------------------------

  /** An empty cursor is not sent, so it asks for the first page. */
  function Effective(c: Option<Cursor>): Option<Cursor> { if c == Some("") then None else c }

  function Request(provider: Provider, q: Query, cycle: nat, c: Option<Cursor>): Page {
    provider(q, cycle, Effective(c))
  }

  /** The cursor that leads to page `k` of a chain started from null. */
  function CursorAt(pages: seq<Page>, k: nat): Option<Cursor>
    requires k <= |pages|
  {
    if k == 0 then None else pages[k - 1].next
  }

  /** Each page answers the cursor of the one before it, and only the last can be final. */
  ghost predicate Chain(provider: Provider, q: Query, cycle: nat, pages: seq<Page>) {
    && (forall k {:trigger CursorAt(pages, k)} :: 0 <= k < |pages| ==>
          pages[k] == Request(provider, q, cycle, CursorAt(pages, k)))
    && (forall k :: 0 <= k < |pages| - 1 ==> pages[k].next.Some?)
  }

  /** The first `n` pages the provider serves in a cycle, or all of them if there are fewer. */
  ghost function ServedPrefix(provider: Provider, q: Query, cycle: nat, n: nat): seq<Page> {
    if n == 0 then []
    else
      var before := ServedPrefix(provider, q, cycle, n - 1);
      if before != [] && before[|before| - 1].next.None? then before
      else before + [Request(provider, q, cycle, CursorAt(before, |before|))]
  }

  lemma ChainPrefix(provider: Provider, q: Query, cycle: nat, pages: seq<Page>)
    requires Chain(provider, q, cycle, pages) && pages != []
    ensures Chain(provider, q, cycle, pages[..|pages| - 1])
  {
    var before := pages[..|pages| - 1];
    forall k | 0 <= k < |before| ensures before[k] == Request(provider, q, cycle, CursorAt(before, k)) {
      assert CursorAt(before, k) == CursorAt(pages, k);
    }
  }

  lemma {:induction false} ChainIsServedPrefix(provider: Provider, q: Query, cycle: nat, pages: seq<Page>)
    requires Chain(provider, q, cycle, pages)
    ensures pages == ServedPrefix(provider, q, cycle, |pages|)
  {
    if pages != [] {
      var before := pages[..|pages| - 1];
      ChainPrefix(provider, q, cycle, pages);
      ChainIsServedPrefix(provider, q, cycle, before);
      assert CursorAt(before, |before|) == CursorAt(pages, |before|);
      assert pages == before + [pages[|pages| - 1]];
    }
  }

  lemma {:induction false} ServedIsChain(provider: Provider, q: Query, cycle: nat, n: nat)
    ensures Chain(provider, q, cycle, ServedPrefix(provider, q, cycle, n)) && |ServedPrefix(provider, q, cycle, n)| <= n
  {
    if n > 0 {
      ServedIsChain(provider, q, cycle, n - 1);
      var before := ServedPrefix(provider, q, cycle, n - 1);
      if !Final(before) {
        ExtendChain(provider, q, cycle, before, Request(provider, q, cycle, CursorAt(before, |before|)));
      }
    }
  }

  lemma ExtendChain(provider: Provider, q: Query, cycle: nat, pages: seq<Page>, page: Page)
    requires Chain(provider, q, cycle, pages) && !Final(pages)
    requires page == Request(provider, q, cycle, CursorAt(pages, |pages|))
    ensures Chain(provider, q, cycle, pages + [page])
  {
    var longer := pages + [page];
    forall k | 0 <= k < |longer|
      ensures longer[k] == Request(provider, q, cycle, CursorAt(longer, k))
      ensures k < |longer| - 1 ==> longer[k].next.Some?
    {
      assert CursorAt(longer, k) == CursorAt(pages, k);
      assert k < |pages| ==> longer[k] == pages[k];
    }
  }

  // ---------------------------------------------------------------------------
  // Cursors that come back
  // ---------------------------------------------------------------------------

  /** The last page has no successor. */
  predicate Final(pages: seq<Page>) { pages != [] && pages[|pages| - 1].next.None? }

  /** The request after `b` pages, as it is sent, is the one that was sent after `a`. */
  predicate Loops(pages: seq<Page>, a: nat, b: nat) {
    && a < b <= |pages| && pages[b - 1].next.Some?
    && Effective(CursorAt(pages, a)) == Effective(CursorAt(pages, b))
  }

  /** From there on the chain repeats itself. */
  lemma {:induction false} LoopRepeatsPages(
      provider: Provider, q: Query, cycle: nat, pages: seq<Page>, a: nat, b: nat, k: nat)
    requires Chain(provider, q, cycle, pages) && Loops(pages, a, b) && b + k < |pages|
    ensures pages[a + k] == pages[b + k]
  {
    if k > 0 {
      LoopRepeatsPages(provider, q, cycle, pages, a, b, k - 1);
    }
    assert CursorAt(pages, a + k) == CursorAt(pages, b + k)
      || (k == 0 && Effective(CursorAt(pages, a)) == Effective(CursorAt(pages, b)));
  }

  lemma LoopIsNeverFinal(provider: Provider, q: Query, cycle: nat, pages: seq<Page>, a: nat, b: nat)
    requires Chain(provider, q, cycle, pages) && Loops(pages, a, b)
    ensures !Final(pages)
  {
    var last := |pages| - 1;
    if b <= last {
      LoopRepeatsPages(provider, q, cycle, pages, a, b, last - b);
      assert pages[last] == pages[last - (b - a)];
    }
  }

  lemma LoopStays(pages: seq<Page>, longer: seq<Page>, a: nat, b: nat)
    requires Loops(pages, a, b) && pages <= longer
    ensures Loops(longer, a, b)
  {
    assert CursorAt(longer, a) == CursorAt(pages, a) && CursorAt(longer, b) == CursorAt(pages, b);
  }

  lemma {:induction false} ServedGrows(provider: Provider, q: Query, cycle: nat, m: nat, n: nat)
    requires m <= n
    ensures ServedPrefix(provider, q, cycle, m) <= ServedPrefix(provider, q, cycle, n)
    ensures Final(ServedPrefix(provider, q, cycle, m))
      ==> ServedPrefix(provider, q, cycle, n) == ServedPrefix(provider, q, cycle, m)
    decreases n
  {
    if m < n {
      ServedGrows(provider, q, cycle, m, n - 1);
    }
  }

  /** The provider has a last page in this cycle. */
  ghost predicate Exhausts(provider: Provider, q: Query, cycle: nat) {
    exists n: nat :: Final(ServedPrefix(provider, q, cycle, n))
  }

  ghost predicate NeverLoops(provider: Provider, q: Query, cycle: nat) {
    forall n: nat, a: nat, b: nat :: !Loops(ServedPrefix(provider, q, cycle, n), a, b)
  }

  /** A cycle with a last page sends no request twice. */
  lemma ExhaustsNeverLoops(provider: Provider, q: Query, cycle: nat)
    requires Exhausts(provider, q, cycle)
    ensures NeverLoops(provider, q, cycle)
  {
    var n: nat :| Final(ServedPrefix(provider, q, cycle, n));
    forall m: nat, a: nat, b: nat ensures !Loops(ServedPrefix(provider, q, cycle, m), a, b) {
      var pages, all := ServedPrefix(provider, q, cycle, m), ServedPrefix(provider, q, cycle, n);
      ServedGrows(provider, q, cycle, if m <= n then m else n, if m <= n then n else m);
      ServedIsChain(provider, q, cycle, n);
      if Loops(pages, a, b) {
        LoopStays(pages, all, a, b);
        LoopIsNeverFinal(provider, q, cycle, all, a, b);
        assert false;
      }
    }
  }

  /** Every cursor of the cycle, as it is sent, is one of these. */
  ghost predicate CursorsIn(provider: Provider, q: Query, cycle: nat, cursors: set<Option<Cursor>>) {
    && None in cursors
    && forall c :: c in cursors && provider(q, cycle, c).next.Some? ==> Effective(provider(q, cycle, c).next) in cursors
  }

  function Requests(pages: seq<Page>): (r: seq<Option<Cursor>>)
    ensures |r| == |pages| && forall k :: 0 <= k < |pages| ==> r[k] == Effective(CursorAt(pages, k))
  {
    seq(|pages|, k requires 0 <= k < |pages| => Effective(CursorAt(pages, k)))
  }

  lemma {:induction false} RequestsIn(
      provider: Provider, q: Query, cycle: nat, cursors: set<Option<Cursor>>, pages: seq<Page>, k: nat)
    requires CursorsIn(provider, q, cycle, cursors) && Chain(provider, q, cycle, pages) && k < |pages|
    ensures Requests(pages)[k] in cursors
  {
    if k > 0 {
      RequestsIn(provider, q, cycle, cursors, pages, k - 1);
      assert provider(q, cycle, Effective(CursorAt(pages, k - 1))) == pages[k - 1];
    }
  }

  lemma {:induction false} Pigeonhole(r: seq<Option<Cursor>>, c: set<Option<Cursor>>)
    requires (forall i, j :: 0 <= i < j < |r| ==> r[i] != r[j]) && forall i :: 0 <= i < |r| ==> r[i] in c
    ensures |r| <= |c|
  {
    if r != [] {
      Pigeonhole(r[..|r| - 1], c - {r[|r| - 1]});
    }
  }

  /** So, with finitely many cursors, a sweep can finish exactly if no next cursor is
      ever one that was already sent in the cycle: the current one, which the code
      rejects, or any earlier one, which it does not. */
  lemma ExhaustsIffNeverLoops(provider: Provider, q: Query, cycle: nat, cursors: set<Option<Cursor>>)
    requires CursorsIn(provider, q, cycle, cursors)
    ensures Exhausts(provider, q, cycle) <==> NeverLoops(provider, q, cycle)
    ensures Exhausts(provider, q, cycle) ==> Final(ServedPrefix(provider, q, cycle, |cursors| + 1))
  {
    var n := |cursors| + 1;
    var pages := ServedPrefix(provider, q, cycle, n);
    if Exhausts(provider, q, cycle) {
      ExhaustsNeverLoops(provider, q, cycle);
    }
    if NeverLoops(provider, q, cycle) && !Final(pages) {
      NotFinalIsLong(provider, q, cycle, n);
      ServedIsChain(provider, q, cycle, n);
      forall i, j | 0 <= i < j < |pages| ensures Requests(pages)[i] != Requests(pages)[j] {
        assert !Loops(pages, i, j);
      }
      forall k | 0 <= k < |pages| ensures Requests(pages)[k] in cursors {
        RequestsIn(provider, q, cycle, cursors, pages, k);
      }
      Pigeonhole(Requests(pages), cursors);
      assert false;
    }
  }

  lemma {:induction false} NotFinalIsLong(provider: Provider, q: Query, cycle: nat, n: nat)
    requires !Final(ServedPrefix(provider, q, cycle, n))
    ensures |ServedPrefix(provider, q, cycle, n)| == n
  {
    if n > 0 {
      NotFinalIsLong(provider, q, cycle, n - 1);
    }
  }

  // ---------------------------------------------------------------------------
  // Page and miss accounting
  // ---------------------------------------------------------------------------

  /** A page's lots are written with its observation time; unknown lots outside the market are dropped. */
  function Persist(lots: map<LotId, LotRow>, page: Page, observedAt: int): map<LotId, LotRow> {
    map l | l in lots.Keys + page.lots.Keys && (l in lots || page.lots[l].passenger) ::
      if l !in page.lots then lots[l]
      else if l in lots then lots[l].(lastSeenAt := observedAt, misses := 0, lifecycle := page.lots[l].lifecycle)
      else LotRow(observedAt, 0, page.lots[l].lifecycle, Discovered, None)
  }

  /** What a page's write leaves of every lot. */
  lemma PageRowsExactly(lots: map<LotId, LotRow>, page: Page, at: int, l: LotId)
    ensures l !in page.lots ==>
      (l in Persist(lots, page, at) <==> l in lots) && (l in lots ==> Persist(lots, page, at)[l] == lots[l])
    ensures l in page.lots ==>
      (l in Persist(lots, page, at) <==> l in lots || page.lots[l].passenger)
    ensures l in page.lots && l in Persist(lots, page, at) ==>
      var row := Persist(lots, page, at)[l];
      && row.lastSeenAt == at && row.misses == 0 && row.lifecycle == page.lots[l].lifecycle
      && row.state == (if l in lots then lots[l].state else Discovered)
      && row.nextRefreshAt == (if l in lots then lots[l].nextRefreshAt else None)
  {
  }

  predicate Chargeable(row: LotRow, cycleStart: int) {
    && (row.state.Discovered? || row.state.Imported?)
    && !row.lifecycle.SoldOut? && !row.lifecycle.Ended? && !row.lifecycle.Gone?
    && row.lastSeenAt < cycleStart
    && (row.nextRefreshAt.Some? ==> row.nextRefreshAt.value <= cycleStart)
  }

  function ChargeMisses(lots: map<LotId, LotRow>, cycleStart: int): map<LotId, LotRow> {
    map l | l in lots :: if Chargeable(lots[l], cycleStart) then lots[l].(misses := lots[l].misses + 1) else lots[l]
  }

  function PersistCharges(
      charges: map<LotId, seq<Sweep>>, lots: map<LotId, LotRow>, page: Page): map<LotId, seq<Sweep>>
  {
    map l | l in lots :: if l in page.lots || l !in charges then [] else charges[l]
  }

  function AddCharges(charges: map<LotId, seq<Sweep>>, lots: map<LotId, LotRow>, sweep: Sweep): map<LotId, seq<Sweep>> {
    map l | l in charges ::
      if l in lots && Chargeable(lots[l], sweep.startedAt) then charges[l] + [sweep] else charges[l]
  }

  // ---------------------------------------------------------------------------
  // Steps
  // ---------------------------------------------------------------------------

  function SetWorker(s: System, w: Token, x: Worker): System { s.(workers := s.workers[w := x]) }

  predicate Usable(s: System, w: Token, checked: int)
    requires w in s.workers
  {
    L.Usable(s.lease, w, s.workers[w].fence, checked)
  }

  function SetCheckpoint(s: System, q: Query, cp: Checkpoint): System { s.(checkpoints := s.checkpoints[q := cp]) }

  function EndWorker(s: System, w: Token, phase: Phase): System
    requires w in s.workers
  {
    SetWorker(s, w, s.workers[w].(phase := phase))
  }

  /** The token an import job or another lease user presents. */
  function ForeignOwner(op: L.Op): Token
  {
    match op
    case Claim(_, owner, _, _) => owner
    case ClaimWithRecovery(_, owner, _, _) => owner
    case Renew(_, owner, _, _) => owner
    case Release(_, owner, _) => owner
    case Verify(_, owner, _) => owner
    case Leased(_, owner, _, _, _) => owner
    case _ => L.NO_OWNER
  }

  /** The lease service's own step, applied to this provider's row. */
  function ForeignLease(l: L.Lease, op: L.Op, checked: int): L.Lease {
    if L.RowOf(op).None? then l
    else L.Row(L.Step(L.Db(map[op.p := l], map[]), L.Event(checked, op)).0, op.p, checked)
  }

  predicate Enabled(s: System, ev: Event) {
    && s.clock <= ev.now && ev.checked <= ev.now
    && match ev.act
       case Claim(w, _, ttl, _) => w != L.NO_OWNER && w !in s.workers && w != s.lease.owner && ttl >= 0
       case Read(w) => w in s.workers && s.workers[w].phase.Claimed?
       case Restart(w) => w in s.workers && s.workers[w].phase.NeedRestart? && s.workers[w].query in s.checkpoints
       case StartCycle(w) => w in s.workers && s.workers[w].phase.NeedStart? && s.workers[w].query in s.checkpoints
       case Fetch(w) =>
         w in s.workers && s.workers[w].phase.Ready? && s.workers[w].committed < s.workers[w].limit
         && s.workers[w].query in s.checkpoints
       case Commit(w) => w in s.workers && s.workers[w].phase.Fetched? && s.workers[w].query in s.checkpoints
       case NoteError(w) => w in s.workers && s.workers[w].phase.Ending?
       case Stop(w) => w in s.workers && !s.workers[w].phase.Finished?
       case Release(w) => w in s.workers && s.workers[w].phase.Ending?
       case Crash(w) => w in s.workers
       case Foreign(op) => L.WellFormed(L.Event(ev.checked, op)) && ForeignOwner(op) !in s.workers
       case Search(_, _, observedAt) => observedAt <= ev.now
       case Rewrite(lot, _, _, _) => lot in s.lots
  }

  function ReadCheckpoint(s: System, q: Query, now: int): Checkpoint {
    if q in s.checkpoints then s.checkpoints[q] else Checkpoint(None, Some(now), None, None, 0, [])
  }

  function PhaseAfterRead(cp: Checkpoint, now: int): Phase {
    if cp.exhaustedAt.Some? then (if cp.nextDueAt.Some? && cp.nextDueAt.value > now then Ending else NeedRestart)
    else if cp.cycleStartedAt.None? then NeedStart
    else Ready
  }

  function CommitPage(s: System, w: Token, now: int): System
    requires w in s.workers && s.workers[w].phase.Fetched? && s.workers[w].query in s.checkpoints
  {
    var x := s.workers[w];
    var page, observedAt := x.phase.page, x.phase.observedAt;
    var cp := s.checkpoints[x.query];
    var seen := Persist(s.lots, page, observedAt);
    var kept := PersistCharges(s.charges, seen, page);
    var charging := page.next.None? && !x.query.scoped;
    s.(lease := L.Heartbeat(s.lease, now),
       lots := if charging then ChargeMisses(seen, x.cycleStart) else seen,
       charges := if charging then AddCharges(kept, seen, Sweep(x.query, cp.cycle, x.cycleStart)) else kept,
       checkpoints := s.checkpoints[x.query := cp.(
         cursor := page.next,
         exhaustedAt := if page.next.None? then Some(observedAt) else None,
         nextDueAt := if page.next.None? then Some(observedAt + CYCLE_INTERVAL_MS) else None,
         pages := cp.pages + [page])],
       workers := s.workers[w := x.(
         cursor := page.next, committed := x.committed + 1, phase := if page.next.None? then Ending else Ready)])
  }

  function Apply(provider: Provider, s: System, ev: Event): System
    requires Enabled(s, ev)
  {
    var now, checked := ev.now, ev.checked;
    var after :=
      match ev.act
      case Claim(w, q, ttl, maxPages) =>
        (match L.ClaimRow(s.lease, w, ttl, None, checked)
         case None => SetWorker(s, w, Worker(q, 0, 0, now, None, 0, 0, Finished))
         case Some(l) =>
           SetWorker(s.(lease := l), w,
             Worker(q, l.fence, Min(MAX_PAGES_PER_RUN, Max(1, maxPages)), now, None, 0, 0, Claimed)))
      case Read(w) =>
        var x := s.workers[w];
        var cp := ReadCheckpoint(s, x.query, now);
        SetWorker(SetCheckpoint(s, x.query, cp), w, x.(
          readAt := now, phase := PhaseAfterRead(cp, now), cursor := cp.cursor,
          cycleStart := if cp.cycleStartedAt.Some? then cp.cycleStartedAt.value else now))
      case Restart(w) =>
        var x := s.workers[w];
        var cp := s.checkpoints[x.query];
        if !Usable(s, w, checked) then EndWorker(s, w, Ending)
        else SetWorker(SetCheckpoint(s.(lease := L.Heartbeat(s.lease, now)), x.query,
                                     Checkpoint(None, Some(x.readAt), None, None, cp.cycle + 1, [])),
                       w, x.(cursor := None, cycleStart := x.readAt, phase := Ready))
      case StartCycle(w) =>
        var x := s.workers[w];
        var cp := s.checkpoints[x.query];
        if !Usable(s, w, checked) then EndWorker(s, w, Ending)
        else SetWorker(SetCheckpoint(s.(lease := L.Heartbeat(s.lease, now)), x.query,
                                     cp.(cycleStartedAt := Some(x.readAt))),
                       w, x.(cursor := cp.cursor, cycleStart := x.readAt, phase := Ready))
      case Fetch(w) =>
        var x := s.workers[w];
        var page := Request(provider, x.query, s.checkpoints[x.query].cycle, x.cursor);
        EndWorker(s, w, if page.next.Some? && page.next == x.cursor then Ending else Fetched(page, now))
      case Commit(w) => if Usable(s, w, checked) then CommitPage(s, w, now) else EndWorker(s, w, Ending)
      case NoteError(w) => if Usable(s, w, checked) then s.(lease := L.Heartbeat(s.lease, now)) else s
      case Stop(w) => EndWorker(s, w, Ending)
      case Release(w) =>
        EndWorker(if s.lease.owner == w && s.lease.fence == s.workers[w].fence
                  then s.(lease := s.lease.(owner := L.NO_OWNER, expiresAt := 0, heartbeatAt := 0, job := None)) else s,
                  w, Finished)
      case Crash(w) => EndWorker(s, w, Finished)
      case Foreign(op) => s.(lease := ForeignLease(s.lease, op, checked))
      case Search(lot, facts, observedAt) =>
        s.(lots := s.lots[lot := if lot in s.lots
                                 then s.lots[lot].(lastSeenAt := observedAt, misses := 0, lifecycle := facts.lifecycle)
                                 else LotRow(observedAt, 0, facts.lifecycle, Discovered, None)],
           charges := s.charges[lot := []])
      case Rewrite(lot, lifecycle, state, nextRefreshAt) =>
        s.(lots := s.lots[lot := s.lots[lot].(lifecycle := lifecycle, state := state, nextRefreshAt := nextRefreshAt)]);
    after.(clock := now)
  }

  predicate Initial(s: System) {
    && s.lease == L.Seeded(s.clock) && s.workers == map[] && s.lots == map[] && s.charges == map[]
    && (forall q :: q in s.checkpoints ==> s.checkpoints[q] == Checkpoint(None, None, None, None, 0, []))
  }

  predicate Taken(provider: Provider, s: seq<System>, e: seq<Event>, i: nat)
    requires |s| == |e| + 1 && i < |e|
  {
    Enabled(s[i], e[i]) && s[i + 1] == Apply(provider, s[i], e[i])
  }

  ghost predicate Run(provider: Provider, s: seq<System>, e: seq<Event>) {
    && |s| == |e| + 1 && Initial(s[0])
    && (forall i :: 0 <= i < |e| ==> Taken(provider, s, e, i))
  }

  // ---------------------------------------------------------------------------
  // Invariants
  // ---------------------------------------------------------------------------

  /** The worker whose token and fence are in the row, expired or not. */
  predicate Current(s: System, w: Token) {
    w in s.workers && s.lease.owner == w && s.lease.fence == s.workers[w].fence
  }

  ghost predicate CheckpointInv(provider: Provider, q: Query, cp: Checkpoint, clock: int) {
    && Chain(provider, q, cp.cycle, cp.pages)
    && cp.cursor == CursorAt(cp.pages, |cp.pages|)
    && (cp.exhaustedAt.Some? <==> cp.pages != [] && cp.cursor.None?)
    && cp.nextDueAt == (if cp.exhaustedAt.Some? then Some(cp.exhaustedAt.value + CYCLE_INTERVAL_MS) else None)
    && (cp.pages != [] ==> cp.cycleStartedAt.Some?)
    && (cp.cycleStartedAt.Some? ==> cp.cycleStartedAt.value <= clock)
  }

  /** A worker that still owns the row has a true picture of its checkpoint. */
  ghost predicate WorkerInv(provider: Provider, s: System, x: Worker) {
    var known := x.query in s.checkpoints;
    match x.phase
    case NeedRestart =>
      var cp := if known then s.checkpoints[x.query] else Checkpoint(None, None, None, None, 0, []);
      known && cp.exhaustedAt.Some? && (cp.nextDueAt.Some? ==> cp.nextDueAt.value <= x.readAt)
    case NeedStart => known && s.checkpoints[x.query].pages == [] && s.checkpoints[x.query].exhaustedAt.None?
    case Ready => known && InStep(s.checkpoints[x.query], x)
    case Fetched(page, observedAt) =>
      && known && InStep(s.checkpoints[x.query], x)
      && page == Request(provider, x.query, s.checkpoints[x.query].cycle, x.cursor)
      && AfterCycleStarts(s, observedAt) && x.cycleStart <= observedAt
    case _ => true
  }

  predicate InStep(cp: Checkpoint, x: Worker) {
    cp.exhaustedAt.None? && cp.cursor == x.cursor && cp.cycleStartedAt == Some(x.cycleStart)
  }

  /** No cycle with committed pages began after this observation. */
  ghost predicate AfterCycleStarts(s: System, observedAt: int) {
    forall q :: q in s.checkpoints && s.checkpoints[q].pages != [] && s.checkpoints[q].cycleStartedAt.Some? ==>
      s.checkpoints[q].cycleStartedAt.value <= observedAt
  }

  ghost predicate ChainInv(provider: Provider, s: System) {
    && (forall q :: q in s.checkpoints ==> CheckpointInv(provider, q, s.checkpoints[q], s.clock))
    && L.NO_OWNER !in s.workers
    && (forall w :: w in s.workers ==> s.workers[w].readAt <= s.clock)
    && (forall w :: Current(s, w) ==> WorkerInv(provider, s, s.workers[w]))
  }

  predicate Idle(x: Worker) { x.phase.Claimed? || x.phase.Ending? || x.phase.Finished? }

  /** A step that leaves the checkpoints alone and makes nobody but a newcomer current. */
  lemma FrameKeepsChain(provider: Provider, s: System, s': System)
    requires ChainInv(provider, s) && s'.checkpoints == s.checkpoints && s.clock <= s'.clock
    requires L.NO_OWNER !in s'.workers
    requires forall w :: w in s'.workers ==> s'.workers[w].readAt <= s'.clock
    requires forall w :: Current(s', w) ==> Idle(s'.workers[w]) || (Current(s, w) && s'.workers[w] == s.workers[w])
    ensures ChainInv(provider, s')
  {
  }

  /** Another lease user can take the row over but never hands it to a worker. */
  lemma ForeignNeverInstalls(l: L.Lease, op: L.Op, checked: int, w: Token)
    requires L.WellFormed(L.Event(checked, op)) && ForeignOwner(op) != w && w != L.NO_OWNER
    requires ForeignLease(l, op, checked).owner == w
    ensures l.owner == w && ForeignLease(l, op, checked).fence == l.fence
  {
  }

  lemma ReadKeepsChain(provider: Provider, s: System, ev: Event)
    requires ChainInv(provider, s) && Enabled(s, ev) && ev.act.Read?
    ensures ChainInv(provider, Apply(provider, s, ev))
  {
    var s', w := Apply(provider, s, ev), ev.act.w;
    var cp := ReadCheckpoint(s, s.workers[w].query, ev.now);
    assert CheckpointInv(provider, s.workers[w].query, cp, s'.clock);
    forall v | Current(s', v) ensures WorkerInv(provider, s', s'.workers[v]) {
      assert Current(s, v);
      if v != w {
        assert s'.workers[v] == s.workers[v];
      }
    }
  }

  lemma RestartKeepsChain(provider: Provider, s: System, ev: Event)
    requires ChainInv(provider, s) && Enabled(s, ev) && (ev.act.Restart? || ev.act.StartCycle?)
    ensures ChainInv(provider, Apply(provider, s, ev))
  {
    var s', w := Apply(provider, s, ev), ev.act.w;
    if Usable(s, w, ev.checked) {
      assert Current(s, w);
      forall v | Current(s', v) ensures WorkerInv(provider, s', s'.workers[v]) {
        assert v == w;
      }
    } else {
      FrameKeepsChain(provider, s, s');
    }
  }

  lemma FetchKeepsChain(provider: Provider, s: System, ev: Event)
    requires ChainInv(provider, s) && Enabled(s, ev) && ev.act.Fetch?
    ensures ChainInv(provider, Apply(provider, s, ev))
  {
    var s', w := Apply(provider, s, ev), ev.act.w;
    forall v | Current(s', v) ensures WorkerInv(provider, s', s'.workers[v]) {
      assert Current(s, v);
      if v != w {
        assert s'.workers[v] == s.workers[v];
      }
    }
  }

  lemma CommitKeepsCheckpoints(provider: Provider, s: System, w: Token, now: int)
    requires ChainInv(provider, s) && s.clock <= now
    requires Current(s, w) && s.workers[w].phase.Fetched? && s.workers[w].query in s.checkpoints
    ensures var s' := CommitPage(s, w, now);
      forall q :: q in s'.checkpoints ==> CheckpointInv(provider, q, s'.checkpoints[q], now)
  {
    var x := s.workers[w];
    var cp := s.checkpoints[x.query];
    assert WorkerInv(provider, s, x) && CheckpointInv(provider, x.query, cp, s.clock);
    ExtendChain(provider, x.query, cp.cycle, cp.pages, x.phase.page);
  }

  lemma CommitKeepsChain(provider: Provider, s: System, ev: Event)
    requires ChainInv(provider, s) && Enabled(s, ev) && ev.act.Commit?
    ensures ChainInv(provider, Apply(provider, s, ev))
  {
    var s', w := Apply(provider, s, ev), ev.act.w;
    if Usable(s, w, ev.checked) {
      CommitKeepsCheckpoints(provider, s, w, ev.now);
      forall v | Current(s', v) ensures WorkerInv(provider, s', s'.workers[v]) {
        assert v == w && Current(s, w);
      }
    } else {
      FrameKeepsChain(provider, s, s');
    }
  }

  lemma ForeignKeepsChain(provider: Provider, s: System, ev: Event)
    requires ChainInv(provider, s) && Enabled(s, ev) && ev.act.Foreign?
    ensures ChainInv(provider, Apply(provider, s, ev))
  {
    var s' := Apply(provider, s, ev);
    forall w | Current(s', w) ensures Current(s, w) {
      ForeignNeverInstalls(s.lease, ev.act.op, ev.checked, w);
    }
    FrameKeepsChain(provider, s, s');
  }

  predicate TouchesCheckpoints(act: Action) { act.Read? || act.Restart? || act.StartCycle? || act.Commit? }

  lemma ClaimKeepsChain(provider: Provider, s: System, ev: Event)
    requires ChainInv(provider, s) && Enabled(s, ev) && ev.act.Claim?
    ensures ChainInv(provider, Apply(provider, s, ev))
  {
    FrameKeepsChain(provider, s, Apply(provider, s, ev));
  }

  lemma OtherStepKeepsChain(provider: Provider, s: System, ev: Event)
    requires ChainInv(provider, s) && Enabled(s, ev) && !TouchesCheckpoints(ev.act) && !ev.act.Fetch?
    requires !ev.act.Foreign?
    ensures ChainInv(provider, Apply(provider, s, ev))
  {
    if ev.act.Claim? {
      ClaimKeepsChain(provider, s, ev);
    } else {
      FrameKeepsChain(provider, s, Apply(provider, s, ev));
    }
  }

  lemma StepKeepsChain(provider: Provider, s: System, ev: Event)
    requires ChainInv(provider, s) && Enabled(s, ev)
    ensures ChainInv(provider, Apply(provider, s, ev))
  {
    match ev.act
    case Read(_) => ReadKeepsChain(provider, s, ev);
    case Restart(_) => RestartKeepsChain(provider, s, ev);
    case StartCycle(_) => RestartKeepsChain(provider, s, ev);
    case Fetch(_) => FetchKeepsChain(provider, s, ev);
    case Commit(_) => CommitKeepsChain(provider, s, ev);
    case Foreign(_) => ForeignKeepsChain(provider, s, ev);
    case _ => OtherStepKeepsChain(provider, s, ev);
  }

  lemma InitialChain(provider: Provider, s: System)
    requires Initial(s)
    ensures ChainInv(provider, s)
  {
  }

  lemma {:induction false} ChainHolds(provider: Provider, s: seq<System>, e: seq<Event>, i: nat)
    requires Run(provider, s, e) && i <= |e|
    ensures ChainInv(provider, s[i])
  {
    if i == 0 {
      InitialChain(provider, s[0]);
    } else {
      ChainHolds(provider, s, e, i - 1);
      assert Taken(provider, s, e, i - 1);
      StepKeepsChain(provider, s[i - 1], e[i - 1]);
    }
  }

  // ---------------------------------------------------------------------------
  // Cursor-chain theorems
  // ---------------------------------------------------------------------------

  /** Whatever the interleaving, the pages committed in a checkpoint's cycle are
      exactly the provider's first pages from the null cursor, the stored cursor is
      the successor of the last of them, and the sweep is marked exhausted exactly
      when the provider has no further page. */
  lemma CommittedPagesArePrefix(provider: Provider, s: seq<System>, e: seq<Event>, i: nat, q: Query)
    requires Run(provider, s, e) && i <= |e| && q in s[i].checkpoints
    ensures var cp := s[i].checkpoints[q];
      && cp.pages == ServedPrefix(provider, q, cp.cycle, |cp.pages|)
      && cp.cursor == (if cp.pages == [] then None else cp.pages[|cp.pages| - 1].next)
      && (cp.exhaustedAt.Some? <==> cp.pages != [] && cp.pages[|cp.pages| - 1].next.None?)
  {
    ChainHolds(provider, s, e, i);
    ChainIsServedPrefix(provider, q, s[i].checkpoints[q].cycle, s[i].checkpoints[q].pages);
  }

  lemma OthersKeepCheckpoints(provider: Provider, s: System, ev: Event)
    requires Enabled(s, ev) && !TouchesCheckpoints(ev.act)
    ensures Apply(provider, s, ev).checkpoints == s.checkpoints
  {
    match ev.act
    case Claim(_, _, _, _) =>
    case Release(_) =>
    case Foreign(_) =>
    case _ =>
  }

  lemma ReadPagesStep(provider: Provider, s: System, ev: Event, q: Query)
    requires Enabled(s, ev) && (ev.act.Read? || ev.act.StartCycle?) && q in s.checkpoints
    ensures q in Apply(provider, s, ev).checkpoints
    ensures Apply(provider, s, ev).checkpoints[q].pages == s.checkpoints[q].pages
    ensures Apply(provider, s, ev).checkpoints[q].cycle == s.checkpoints[q].cycle
  {
  }

  /** One step leaves a checkpoint's pages alone, appends the page its cursor asks
      for, or starts a new cycle from null after the old one was exhausted. */
  lemma PagesStep(provider: Provider, s: System, ev: Event, q: Query)
    requires ChainInv(provider, s) && Enabled(s, ev) && q in s.checkpoints
    ensures q in Apply(provider, s, ev).checkpoints
    ensures var cp, cp' := s.checkpoints[q], Apply(provider, s, ev).checkpoints[q];
      || (cp'.cycle == cp.cycle && cp'.pages == cp.pages)
      || (cp'.cycle == cp.cycle && cp'.pages == cp.pages + [Request(provider, q, cp.cycle, cp.cursor)]
          && cp.exhaustedAt.None? && ev.act.Commit?)
      || (cp'.cycle == cp.cycle + 1 && cp'.pages == [] && cp.exhaustedAt.Some? && ev.act.Restart?)
  {
    if !TouchesCheckpoints(ev.act) {
      OthersKeepCheckpoints(provider, s, ev);
    } else if ev.act.Read? || ev.act.StartCycle? {
      ReadPagesStep(provider, s, ev, q);
    } else if Usable(s, ev.act.w, ev.checked) && s.workers[ev.act.w].query == q {
      assert Current(s, ev.act.w);
      assert WorkerInv(provider, s, s.workers[ev.act.w]);
    }
  }

  /** Cycles never go back, and within one cycle committed pages are only added to. */
  lemma {:induction false} CycleOnlyGrows(provider: Provider, s: seq<System>, e: seq<Event>, i: nat, j: nat, q: Query)
    requires Run(provider, s, e) && i <= j <= |e| && q in s[i].checkpoints
    ensures q in s[j].checkpoints && s[i].checkpoints[q].cycle <= s[j].checkpoints[q].cycle
    ensures s[i].checkpoints[q].cycle == s[j].checkpoints[q].cycle
      ==> s[i].checkpoints[q].pages <= s[j].checkpoints[q].pages
    decreases j
  {
    hide Apply, Enabled, ChainInv;
    if i < j {
      CycleOnlyGrows(provider, s, e, i, j - 1, q);
      ChainHolds(provider, s, e, j - 1);
      assert Taken(provider, s, e, j - 1);
      PagesStep(provider, s[j - 1], e[j - 1], q);
    }
  }

  /** A page of this worker without a next cursor, observed at `at`, is committed for `q`. */
  predicate Exhausting(s: System, ev: Event, x: Worker, q: Query, cycle: nat, at: int) {
    && ev.act.Commit? && L.Usable(s.lease, ev.act.w, x.fence, ev.checked)
    && x.query == q && x.phase.Fetched? && x.phase.page.next.None? && x.phase.observedAt == at
    && q in s.checkpoints && s.checkpoints[q].cycle == cycle
  }

  predicate ExhaustsAt(s: seq<System>, e: seq<Event>, j: nat, q: Query, cycle: nat, at: int) {
    && j < |e| && |s| == |e| + 1 && e[j].act.Commit? && e[j].act.w in s[j].workers
    && Exhausting(s[j], e[j], s[j].workers[e[j].act.w], q, cycle, at)
  }

  lemma OnlyCommitsExhaust(provider: Provider, s: System, ev: Event, q: Query)
    requires Enabled(s, ev) && q in Apply(provider, s, ev).checkpoints
    requires Apply(provider, s, ev).checkpoints[q].exhaustedAt.Some?
    ensures q in s.checkpoints
    ensures ev.act.Commit? && Usable(s, ev.act.w, ev.checked) && s.workers[ev.act.w].query == q ==>
      var x, after := s.workers[ev.act.w], Apply(provider, s, ev).checkpoints[q];
      x.phase.page.next.None? && after.exhaustedAt == Some(x.phase.observedAt) && after.cycle == s.checkpoints[q].cycle
    ensures !(ev.act.Commit? && Usable(s, ev.act.w, ev.checked) && s.workers[ev.act.w].query == q) ==>
      var cp, after := s.checkpoints[q], Apply(provider, s, ev).checkpoints[q];
      cp.exhaustedAt == after.exhaustedAt && cp.cycle == after.cycle
  {
    if !TouchesCheckpoints(ev.act) {
      OthersKeepCheckpoints(provider, s, ev);
    }
  }

  /** An exhausted checkpoint was exhausted by such a commit of its cycle. */
  lemma {:induction false} ExhaustedBy(provider: Provider, s: seq<System>, e: seq<Event>, i: nat, q: Query)
    returns (j: nat)
    requires Run(provider, s, e) && i <= |e| && q in s[i].checkpoints && s[i].checkpoints[q].exhaustedAt.Some?
    ensures j < i && ExhaustsAt(s, e, j, q, s[i].checkpoints[q].cycle, s[i].checkpoints[q].exhaustedAt.value)
    decreases i
  {
    assert i > 0;
    assert Taken(provider, s, e, i - 1);
    var before, ev := s[i - 1], e[i - 1];
    OnlyCommitsExhaust(provider, before, ev, q);
    if ev.act.Commit? && Usable(before, ev.act.w, ev.checked) && before.workers[ev.act.w].query == q {
      j := i - 1;
    } else {
      j := ExhaustedBy(provider, s, e, i - 1, q);
    }
  }

  /** A step that restarts a cycle comes from a worker whose reading was due. */
  lemma RestartIsDue(provider: Provider, s: System, ev: Event, q: Query)
    requires ChainInv(provider, s) && Enabled(s, ev) && q in s.checkpoints
    requires q in Apply(provider, s, ev).checkpoints
    requires Apply(provider, s, ev).checkpoints[q].cycle != s.checkpoints[q].cycle
    ensures ev.act.Restart? && ev.act.w in s.workers && s.workers[ev.act.w].query == q
    ensures s.checkpoints[q].exhaustedAt.Some?
    ensures s.workers[ev.act.w].readAt >= s.checkpoints[q].exhaustedAt.value + CYCLE_INTERVAL_MS
    ensures Apply(provider, s, ev).checkpoints[q]
         == Checkpoint(None, Some(s.workers[ev.act.w].readAt), None, None, s.checkpoints[q].cycle + 1, [])
  {
    PagesStep(provider, s, ev, q);
    assert CheckpointInv(provider, q, s.checkpoints[q], s.clock);
    assert Current(s, ev.act.w) && WorkerInv(provider, s, s.workers[ev.act.w]);
  }

  /** In every run a cycle is followed by another only after its last page was committed,
      and only by a worker that read its clock six hours or more after that page was
      observed; the new cycle has no page, no cursor, and starts at that reading. */
  lemma CycleRestartsWhenDue(provider: Provider, s: seq<System>, e: seq<Event>, i: nat, q: Query)
    returns (j: nat, observedAt: int)
    requires Run(provider, s, e) && i < |e| && q in s[i].checkpoints && q in s[i + 1].checkpoints
    requires s[i + 1].checkpoints[q].cycle != s[i].checkpoints[q].cycle
    ensures e[i].act.Restart? && e[i].act.w in s[i].workers && j < i
    ensures ExhaustsAt(s, e, j, q, s[i].checkpoints[q].cycle, observedAt)
    ensures s[i].workers[e[i].act.w].readAt >= observedAt + 21_600_000
    ensures s[i + 1].checkpoints[q]
         == Checkpoint(None, Some(s[i].workers[e[i].act.w].readAt), None, None, s[i].checkpoints[q].cycle + 1, [])
  {
    assert Taken(provider, s, e, i);
    ChainHolds(provider, s, e, i);
    RestartIsDue(provider, s[i], e[i], q);
    observedAt := s[i].checkpoints[q].exhaustedAt.value;
    j := ExhaustedBy(provider, s, e, i, q);
  }

  /** And the worker that holds the row never requests a page of an exhausted cycle. */
  lemma NoRequestWhileExhausted(provider: Provider, s: seq<System>, e: seq<Event>, i: nat, w: Token)
    requires Run(provider, s, e) && i < |e| && e[i].act == Fetch(w) && Current(s[i], w)
    ensures w in s[i].workers && s[i].workers[w].query in s[i].checkpoints
    ensures var cp := s[i].checkpoints[s[i].workers[w].query];
      cp.exhaustedAt.None? && cp.cursor == s[i].workers[w].cursor
  {
    assert Taken(provider, s, e, i);
    ChainHolds(provider, s, e, i);
    assert WorkerInv(provider, s[i], s[i].workers[w]);
  }

  /** An exhausted cycle has sent no request twice, whoever committed its pages. */
  lemma ExhaustedCycleNeverLooped(
      provider: Provider, s: seq<System>, e: seq<Event>, i: nat, q: Query, a: nat, b: nat)
    requires Run(provider, s, e) && i <= |e| && q in s[i].checkpoints && s[i].checkpoints[q].exhaustedAt.Some?
    ensures !Loops(s[i].checkpoints[q].pages, a, b)
  {
    ChainHolds(provider, s, e, i);
    var cp := s[i].checkpoints[q];
    assert CheckpointInv(provider, q, cp, s[i].clock);
    if Loops(cp.pages, a, b) {
      LoopIsNeverFinal(provider, q, cp.cycle, cp.pages, a, b);
      assert false;
    }
  }

  /** And once a cycle has come back to a request it sent before, it is never exhausted
      and never restarted: every later run of every worker continues the loop. */
  lemma {:induction false} LoopLastsForEver(
      provider: Provider, s: seq<System>, e: seq<Event>, i: nat, j: nat, q: Query, a: nat, b: nat)
    requires Run(provider, s, e) && i <= j <= |e| && q in s[i].checkpoints && Loops(s[i].checkpoints[q].pages, a, b)
    ensures q in s[j].checkpoints && s[j].checkpoints[q].exhaustedAt.None?
    ensures s[j].checkpoints[q].cycle == s[i].checkpoints[q].cycle && Loops(s[j].checkpoints[q].pages, a, b)
    decreases j
  {
    hide Apply, Enabled, ChainInv;
    if i < j {
      LoopLastsForEver(provider, s, e, i, j - 1, q, a, b);
      ChainHolds(provider, s, e, j - 1);
      assert Taken(provider, s, e, j - 1);
      PagesStep(provider, s[j - 1], e[j - 1], q);
      LoopStays(s[j - 1].checkpoints[q].pages, s[j].checkpoints[q].pages, a, b);
    }
    if s[j].checkpoints[q].exhaustedAt.Some? {
      ExhaustedCycleNeverLooped(provider, s, e, j, q, a, b);
      assert false;
    }
  }

  // ---------------------------------------------------------------------------
  // Miss counting
  // ---------------------------------------------------------------------------

  ghost predicate OnPages(pages: seq<Page>, l: LotId) { exists k :: 0 <= k < |pages| && l in pages[k].lots }

  predicate SeenSince(cp: Checkpoint, at: int) { cp.cycleStartedAt.Some? && cp.cycleStartedAt.value <= at }

  ghost predicate SeenAt(s: System, q: Query, l: LotId)
    requires q in s.checkpoints
  {
    l in s.lots && OnPages(s.checkpoints[q].pages, l) ==> SeenSince(s.checkpoints[q], s.lots[l].lastSeenAt)
  }

  lemma OnMorePages(pages: seq<Page>, page: Page, l: LotId)
    ensures OnPages(pages + [page], l) <==> OnPages(pages, l) || l in page.lots
  {
    if l in page.lots {
      assert (pages + [page])[|pages|] == page;
    }
    if OnPages(pages, l) {
      var k :| 0 <= k < |pages| && l in pages[k].lots;
      assert (pages + [page])[k] == pages[k];
    }
  }

  /** What a worker about to commit a page knows about it. */
  ghost predicate FetchFacts(s: System, w: Token) {
    && w in s.workers && s.workers[w].phase.Fetched? && s.workers[w].query in s.checkpoints
    && InStep(s.checkpoints[s.workers[w].query], s.workers[w])
    && AfterCycleStarts(s, s.workers[w].phase.observedAt)
    && s.workers[w].cycleStart <= s.workers[w].phase.observedAt
    && (forall q :: q in s.checkpoints && s.checkpoints[q].pages != [] ==> s.checkpoints[q].cycleStartedAt.Some?)
  }

  lemma FetchFactsHold(provider: Provider, s: System, w: Token)
    requires ChainInv(provider, s) && Current(s, w) && s.workers[w].phase.Fetched?
    ensures FetchFacts(s, w)
  {
    assert WorkerInv(provider, s, s.workers[w]);
    assert forall q :: q in s.checkpoints ==> CheckpointInv(provider, q, s.checkpoints[q], s.clock);
  }

  /** The event writes the lot's observation time. */
  predicate Observes(s: System, ev: Event, l: LotId) {
    match ev.act
    case Search(lot, _, _) => lot == l
    case Commit(w) => CommitsNow(s, ev) && l in s.workers[w].phase.page.lots
    case _ => false
  }

  predicate CommitsNow(s: System, ev: Event) {
    && ev.act.Commit? && ev.act.w in s.workers && s.workers[ev.act.w].phase.Fetched?
    && Usable(s, ev.act.w, ev.checked)
  }

  /** A search writes the clock reading it took earlier, without the lease. It is late
      for a sweep that has shown the lot and began after that reading. */
  ghost predicate LateSearch(s: System, ev: Event, q: Query, l: LotId) {
    && ev.act.Search? && ev.act.lot == l && q in s.checkpoints
    && OnPages(s.checkpoints[q].pages, l) && !SeenSince(s.checkpoints[q], ev.act.observedAt)
  }

  lemma CommitSeenAt(s: System, w: Token, now: int, q: Query, l: LotId)
    requires FetchFacts(s, w) && q in s.checkpoints && (SeenAt(s, q, l) || l in s.workers[w].phase.page.lots)
    ensures SeenAt(CommitPage(s, w, now), q, l)
  {
    var x, s' := s.workers[w], CommitPage(s, w, now);
    OnMorePages(s.checkpoints[x.query].pages, x.phase.page, l);
    if l in s'.lots && OnPages(s'.checkpoints[q].pages, l) {
      var seen := Persist(s.lots, x.phase.page, x.phase.observedAt);
      assert s'.lots[l].lastSeenAt == seen[l].lastSeenAt;
    }
  }

  /** The step keeps observation times, and a checkpoint's sweep unless it empties it. */
  predicate SeenFrame(s: System, s': System) {
    && (forall l :: l in s'.lots ==> l in s.lots && s'.lots[l].lastSeenAt == s.lots[l].lastSeenAt)
    && (forall q :: q in s'.checkpoints && s'.checkpoints[q].pages != [] ==>
          q in s.checkpoints && SameSweep(s.checkpoints[q], s'.checkpoints[q]))
  }

  predicate SameSweep(cp: Checkpoint, cp': Checkpoint) {
    cp'.pages == cp.pages && cp'.cycleStartedAt == cp.cycleStartedAt && cp'.cycle == cp.cycle
  }

  /** The worker starts a cycle that has committed no page yet. */
  predicate StartsEmpty(s: System, w: Token) {
    w in s.workers && s.workers[w].query in s.checkpoints && s.checkpoints[s.workers[w].query].pages == []
  }

  lemma StepFramesSeen(provider: Provider, s: System, ev: Event)
    requires Enabled(s, ev) && !ev.act.Search? && !ev.act.StartCycle?
    requires ev.act.Commit? ==> !Usable(s, ev.act.w, ev.checked)
    ensures SeenFrame(s, Apply(provider, s, ev))
  {
    if TouchesCheckpoints(ev.act) {
      CheckpointStepFramesSeen(provider, s, ev);
    } else {
      LotStepFramesSeen(provider, s, ev);
    }
  }

  lemma CheckpointStepFramesSeen(provider: Provider, s: System, ev: Event)
    requires Enabled(s, ev) && (ev.act.Read? || ev.act.Restart? || (ev.act.Commit? && !Usable(s, ev.act.w, ev.checked)))
    ensures SeenFrame(s, Apply(provider, s, ev))
  {
  }

  lemma LotStepFramesSeen(provider: Provider, s: System, ev: Event)
    requires Enabled(s, ev) && !ev.act.Search? && !TouchesCheckpoints(ev.act)
    ensures SeenFrame(s, Apply(provider, s, ev))
  {
    OthersKeepCheckpoints(provider, s, ev);
    if !ev.act.Rewrite? {
      OtherStepsKeepLots(provider, s, ev);
    }
  }

  lemma StartFramesSeen(provider: Provider, s: System, ev: Event)
    requires ChainInv(provider, s) && Enabled(s, ev) && ev.act.StartCycle?
    ensures SeenFrame(s, Apply(provider, s, ev))
  {
    if Usable(s, ev.act.w, ev.checked) {
      assert Current(s, ev.act.w) && WorkerInv(provider, s, s.workers[ev.act.w]);
      assert StartsEmpty(s, ev.act.w);
    }
  }

  lemma OtherStepFramesSeen(provider: Provider, s: System, ev: Event)
    requires ChainInv(provider, s) && Enabled(s, ev) && !ev.act.Search? && !CommitsNow(s, ev)
    ensures SeenFrame(s, Apply(provider, s, ev))
  {
    if ev.act.StartCycle? {
      StartFramesSeen(provider, s, ev);
    } else {
      StepFramesSeen(provider, s, ev);
    }
  }

  lemma SearchSeenAt(provider: Provider, s: System, ev: Event, q: Query, l: LotId)
    requires Enabled(s, ev) && ev.act.Search? && q in s.checkpoints
    requires (SeenAt(s, q, l) || Observes(s, ev, l)) && !LateSearch(s, ev, q, l)
    ensures q in Apply(provider, s, ev).checkpoints && SeenAt(Apply(provider, s, ev), q, l)
  {
  }

  /** Only a late search can put a shown lot's observation behind the sweep's start. */
  lemma StepSeenAt(provider: Provider, s: System, ev: Event, q: Query, l: LotId)
    requires ChainInv(provider, s) && Enabled(s, ev) && q in s.checkpoints
    requires (SeenAt(s, q, l) || Observes(s, ev, l)) && !LateSearch(s, ev, q, l)
    ensures q in Apply(provider, s, ev).checkpoints && SeenAt(Apply(provider, s, ev), q, l)
  {
    if CommitsNow(s, ev) {
      assert Current(s, ev.act.w);
      FetchFactsHold(provider, s, ev.act.w);
      CommitSeenAt(s, ev.act.w, ev.now, q, l);
    } else if ev.act.Search? {
      SearchSeenAt(provider, s, ev, q, l);
    } else {
      PagesStep(provider, s, ev, q);
      OtherStepFramesSeen(provider, s, ev);
      hide Apply, ChainInv, Enabled;
    }
  }

  /** A lot's observation stays as it is until the next event that writes it. */
  lemma ObservationKept(provider: Provider, s: System, ev: Event, l: LotId)
    requires ChainInv(provider, s) && Enabled(s, ev) && l in s.lots && !Observes(s, ev, l)
    ensures l in Apply(provider, s, ev).lots && Apply(provider, s, ev).lots[l].lastSeenAt == s.lots[l].lastSeenAt
  {
    if CommitsNow(s, ev) {
      CommitKeepsObservation(s, ev.act.w, ev.now, l);
    } else if !ev.act.Search? && !ev.act.Rewrite? {
      OtherStepsKeepLots(provider, s, ev);
    }
  }

  lemma CommitKeepsObservation(s: System, w: Token, now: int, l: LotId)
    requires w in s.workers && s.workers[w].phase.Fetched? && s.workers[w].query in s.checkpoints
    requires l in s.lots && l !in s.workers[w].phase.page.lots
    ensures l in CommitPage(s, w, now).lots && CommitPage(s, w, now).lots[l].lastSeenAt == s.lots[l].lastSeenAt
  {
  }

  /** A sweep that keeps its pages keeps its start and cycle. */
  lemma SweepKeptOrEmptied(provider: Provider, s: System, ev: Event, q: Query)
    requires ChainInv(provider, s) && Enabled(s, ev) && q in s.checkpoints && s.checkpoints[q].pages != []
    ensures q in Apply(provider, s, ev).checkpoints
    ensures var cp, cp' := s.checkpoints[q], Apply(provider, s, ev).checkpoints[q];
      cp'.pages == [] || (cp'.cycle == cp.cycle && cp'.cycleStartedAt == cp.cycleStartedAt)
  {
    PagesStep(provider, s, ev, q);
    if !CommitsNow(s, ev) && !ev.act.Search? {
      OtherStepFramesSeen(provider, s, ev);
    }
  }

  /** No event between `j` and `i` writes the lot's observation. */
  ghost predicate Untouched(s: seq<System>, e: seq<Event>, j: nat, i: nat, l: LotId)
    requires |s| == |e| + 1 && i <= |e|
  {
    forall k: nat {:trigger Observes(s[k], e[k], l)} :: j < k < i ==> !Observes(s[k], e[k], l)
  }

  /** Event `j` is a late search for the sweep that runs at `i`, and the last to write
      the lot's observation before then. */
  ghost predicate Blames(s: seq<System>, e: seq<Event>, j: nat, i: nat, q: Query, l: LotId)
    requires |s| == |e| + 1 && i <= |e|
  {
    && j < i && LateSearch(s[j], e[j], q, l)
    && q in s[i].checkpoints && s[i].checkpoints[q].pages != []
    && s[i].checkpoints[q].cycle == s[j].checkpoints[q].cycle
    && s[i].checkpoints[q].cycleStartedAt == s[j].checkpoints[q].cycleStartedAt
    && Untouched(s, e, j, i, l)
  }

  ghost predicate Blamed(s: seq<System>, e: seq<Event>, i: nat, q: Query, l: LotId)
    requires |s| == |e| + 1 && i <= |e|
  {
    exists j: nat :: Blames(s, e, j, i, q, l)
  }

  lemma {:induction false} BlameFact(
      provider: Provider, s: seq<System>, e: seq<Event>, j: nat, i: nat, l: LotId)
    requires Run(provider, s, e) && j < i <= |e| && e[j].act.Search? && e[j].act.lot == l
    requires Untouched(s, e, j, i, l)
    ensures l in s[i].lots && s[i].lots[l].lastSeenAt == e[j].act.observedAt
    decreases i
  {
    assert Taken(provider, s, e, i - 1);
    if j < i - 1 {
      BlameFact(provider, s, e, j, i - 1, l);
      ChainHolds(provider, s, e, i - 1);
      ObservationKept(provider, s[i - 1], e[i - 1], l);
    }
  }

  lemma BlameAgain(provider: Provider, s: seq<System>, e: seq<Event>, j: nat, i: nat, q: Query, l: LotId)
    requires Run(provider, s, e) && i < |e| && Blames(s, e, j, i, q, l) && !Observes(s[i], e[i], l)
    ensures q in s[i + 1].checkpoints && (s[i + 1].checkpoints[q].pages == [] || Blames(s, e, j, i + 1, q, l))
  {
    assert Taken(provider, s, e, i);
    ChainHolds(provider, s, e, i);
    SweepKeptOrEmptied(provider, s[i], e[i], q);
  }

  lemma BlameNow(provider: Provider, s: seq<System>, e: seq<Event>, i: nat, q: Query, l: LotId)
    requires Run(provider, s, e) && i < |e| && LateSearch(s[i], e[i], q, l)
    ensures Blames(s, e, i, i + 1, q, l)
  {
    assert Taken(provider, s, e, i);
    assert s[i + 1].checkpoints == s[i].checkpoints;
  }

  /** A lot that a running sweep has shown was last observed since the sweep began, or
      a late search was the last to observe it. */
  lemma {:induction false} SeenOrBlamed(provider: Provider, s: seq<System>, e: seq<Event>, i: nat, q: Query, l: LotId)
    requires Run(provider, s, e) && i <= |e| && q in s[i].checkpoints
    ensures SeenAt(s[i], q, l) || Blamed(s, e, i, q, l)
  {
    if i > 0 && s[i].checkpoints[q].pages != [] {
      assert Taken(provider, s, e, i - 1);
      ChainHolds(provider, s, e, i - 1);
      if q !in s[i - 1].checkpoints {
        NewCheckpointIsEmpty(provider, s[i - 1], e[i - 1], q);
      } else if LateSearch(s[i - 1], e[i - 1], q, l) {
        BlameNow(provider, s, e, i - 1, q, l);
      } else {
        SeenOrBlamed(provider, s, e, i - 1, q, l);
        if SeenAt(s[i - 1], q, l) || Observes(s[i - 1], e[i - 1], l) {
          StepSeenAt(provider, s[i - 1], e[i - 1], q, l);
        } else {
          var j: nat :| Blames(s, e, j, i - 1, q, l);
          BlameAgain(provider, s, e, j, i - 1, q, l);
        }
      }
    }
  }

  lemma NewCheckpointIsEmpty(provider: Provider, s: System, ev: Event, q: Query)
    requires Enabled(s, ev) && q !in s.checkpoints && q in Apply(provider, s, ev).checkpoints
    ensures Apply(provider, s, ev).checkpoints[q].pages == []
  {
    if !TouchesCheckpoints(ev.act) {
      OthersKeepCheckpoints(provider, s, ev);
      assert false;
    }
  }

  /** What a row must be to be charged, apart from when it was last seen. */
  predicate Gates(row: LotRow, cycleStart: int) {
    && (row.state.Discovered? || row.state.Imported?)
    && !row.lifecycle.SoldOut? && !row.lifecycle.Ended? && !row.lifecycle.Gone?
    && (row.nextRefreshAt.Some? ==> row.nextRefreshAt.value <= cycleStart)
  }

  /** What a commit does to the miss count of a stored lot. */
  lemma CommitCharges(s: System, w: Token, now: int, l: LotId)
    requires FetchFacts(s, w) && l in s.lots
    ensures l in CommitPage(s, w, now).lots
    ensures var x := s.workers[w];
      CommitPage(s, w, now).lots[l].misses ==
      if l in x.phase.page.lots then 0
      else if x.phase.page.next.None? && !x.query.scoped
              && s.lots[l].lastSeenAt < x.cycleStart && Gates(s.lots[l], x.cycleStart) then
        s.lots[l].misses + 1
      else s.lots[l].misses
  {
  }

  /** And what it does to the rest of every row; lots off the page keep theirs. */
  lemma CommitRowsExactly(s: System, w: Token, now: int, l: LotId)
    requires FetchFacts(s, w)
    ensures var page := s.workers[w].phase.page;
      l in CommitPage(s, w, now).lots <==> l in s.lots || (l in page.lots && page.lots[l].passenger)
    ensures l in CommitPage(s, w, now).lots ==>
      var x, row := s.workers[w], CommitPage(s, w, now).lots[l];
      var shown, known := l in x.phase.page.lots, l in s.lots;
      && row.lastSeenAt == (if shown then x.phase.observedAt else s.lots[l].lastSeenAt)
      && row.lifecycle == (if shown then x.phase.page.lots[l].lifecycle else s.lots[l].lifecycle)
      && row.state == (if known then s.lots[l].state else Discovered)
      && row.nextRefreshAt == (if known then s.lots[l].nextRefreshAt else None)
  {
    PageRowsExactly(s.lots, s.workers[w].phase.page, s.workers[w].phase.observedAt, l);
  }

  /** A successful commit of a page by the worker at event `i`. */
  predicate CommitsAt(s: seq<System>, e: seq<Event>, i: nat, w: Token) {
    && i < |e| && |s| == |e| + 1 && e[i].act == Commit(w)
    && w in s[i].workers && s[i].workers[w].phase.Fetched? && Usable(s[i], w, e[i].checked)
  }

  /** In every run: a commit charges a stored lot that the cycle has shown, on this page
      or an earlier one, exactly if it exhausts a sweep without make and model, the lot is
      not on the last page and passes the row conditions, and a search that was late for
      this very sweep was the last to observe it. */
  lemma ShownLotChargedExactly(
      provider: Provider, s: seq<System>, e: seq<Event>, i: nat, w: Token, l: LotId)
    requires Run(provider, s, e) && CommitsAt(s, e, i, w) && l in s[i].lots
    requires s[i].workers[w].query in s[i].checkpoints
    requires OnPages(s[i].checkpoints[s[i].workers[w].query].pages + [s[i].workers[w].phase.page], l)
    ensures l in s[i + 1].lots
    ensures var x := s[i].workers[w];
      s[i + 1].lots[l].misses > s[i].lots[l].misses <==>
        (&& !x.query.scoped && x.phase.page.next.None? && l !in x.phase.page.lots
         && Gates(s[i].lots[l], x.cycleStart) && Blamed(s, e, i, x.query, l))
  {
    var x := s[i].workers[w];
    assert Taken(provider, s, e, i);
    ChainHolds(provider, s, e, i);
    FetchFactsHold(provider, s[i], w);
    CommitCharges(s[i], w, e[i].now, l);
    OnMorePages(s[i].checkpoints[x.query].pages, x.phase.page, l);
    if l !in x.phase.page.lots {
      SeenOrBlamed(provider, s, e, i, x.query, l);
      if Blamed(s, e, i, x.query, l) {
        var j: nat :| Blames(s, e, j, i, x.query, l);
        BlameFact(provider, s, e, j, i, l);
        assert CheckpointInv(provider, x.query, s[i].checkpoints[x.query], s[i].clock);
      }
    }
  }

  /** Hence a sweep none of whose shown lots a search touched late charges none of them;
      searches of other lots, or late for other sweeps, do not matter. */
  lemma SeenLotsNeverCharged(provider: Provider, s: seq<System>, e: seq<Event>, i: nat, w: Token, l: LotId)
    requires Run(provider, s, e) && CommitsAt(s, e, i, w) && l in s[i].lots
    requires s[i].workers[w].query in s[i].checkpoints
    requires OnPages(s[i].checkpoints[s[i].workers[w].query].pages + [s[i].workers[w].phase.page], l)
    requires forall j: nat {:trigger LateSearch(s[j], e[j], s[i].workers[w].query, l)} ::
      j < i ==> !LateSearch(s[j], e[j], s[i].workers[w].query, l)
    ensures l in s[i + 1].lots
    ensures s[i + 1].lots[l].misses == if l in s[i].workers[w].phase.page.lots then 0 else s[i].lots[l].misses
  {
    ShownLotChargedExactly(provider, s, e, i, w, l);
    assert Taken(provider, s, e, i);
    ChainHolds(provider, s, e, i);
    FetchFactsHold(provider, s[i], w);
    CommitCharges(s[i], w, e[i].now, l);
  }

  // ---------------------------------------------------------------------------
  // What a miss count means
  // ---------------------------------------------------------------------------

  predicate Completed(s: System, sweep: Sweep) {
    && sweep.query in s.checkpoints && !sweep.query.scoped
    && (sweep.cycle < s.checkpoints[sweep.query].cycle
        || (sweep.cycle == s.checkpoints[sweep.query].cycle && s.checkpoints[sweep.query].exhaustedAt.Some?))
  }

  predicate Distinct(c: seq<Sweep>) {
    forall a, b :: 0 <= a < b < |c| ==> c[a].query != c[b].query || c[a].cycle != c[b].cycle
  }

  /** The miss count is the number of distinct exhausted sweeps without make or model,
      each started strictly after the lot's last observation, that charged it. */
  predicate ChargedRight(s: System, l: LotId)
    requires l in s.lots && l in s.charges
  {
    && s.lots[l].misses == |s.charges[l]| && Distinct(s.charges[l])
    && (forall k :: 0 <= k < |s.charges[l]| ==>
          Completed(s, s.charges[l][k]) && s.lots[l].lastSeenAt < s.charges[l][k].startedAt)
  }

  predicate ChargeInv(s: System) {
    s.charges.Keys == s.lots.Keys && forall l :: l in s.lots ==> ChargedRight(s, l)
  }

  /** Sweeps stay completed: cycles only move on. */
  predicate SweepsKept(s: System, s': System) {
    forall q :: q in s.checkpoints ==> q in s'.checkpoints && SweepKept(s.checkpoints[q], s'.checkpoints[q])
  }

  predicate SweepKept(cp: Checkpoint, cp': Checkpoint) {
    cp.cycle < cp'.cycle || (cp'.cycle == cp.cycle && (cp.exhaustedAt.Some? ==> cp'.exhaustedAt.Some?))
  }

  /** Each lot keeps its charges and last observation, or loses charges and count together. */
  predicate ChargeFrame(s: System, s': System) {
    && s'.charges.Keys == s'.lots.Keys
    && (forall l :: l in s'.lots ==>
          || (s'.charges[l] == [] && s'.lots[l].misses == 0)
          || (l in s.lots && l in s.charges && SameCount(s, s', l)))
  }

  predicate SameCount(s: System, s': System, l: LotId)
    requires l in s.lots && l in s.charges && l in s'.lots && l in s'.charges
  {
    && s'.charges[l] == s.charges[l] && s'.lots[l].misses == s.lots[l].misses
    && s'.lots[l].lastSeenAt == s.lots[l].lastSeenAt
  }

  lemma FrameKeepsCharges(s: System, s': System)
    requires ChargeInv(s) && SweepsKept(s, s') && ChargeFrame(s, s')
    ensures ChargeInv(s')
  {
    forall l | l in s'.lots ensures ChargedRight(s', l) {
      if s'.charges[l] != [] {
        assert ChargedRight(s, l);
      }
    }
  }

  /** A sweep that has just completed is a new one for every lot it charges. */
  lemma OneMoreCharge(s: System, s': System, l: LotId, sweep: Sweep)
    requires l in s.lots && l in s.charges && ChargedRight(s, l) && SweepsKept(s, s')
    requires Completed(s', sweep) && !Completed(s, sweep) && s.lots[l].lastSeenAt < sweep.startedAt
    requires l in s'.lots && s'.lots[l] == s.lots[l].(misses := s.lots[l].misses + 1)
    requires l in s'.charges && s'.charges[l] == s.charges[l] + [sweep]
    ensures ChargedRight(s', l)
  {
    var c, c' := s.charges[l], s'.charges[l];
    forall a, b | 0 <= a < b < |c'| ensures c'[a].query != c'[b].query || c'[a].cycle != c'[b].cycle {
      assert Completed(s, c[a]);
    }
    forall k | 0 <= k < |c'| ensures Completed(s', c'[k]) && s'.lots[l].lastSeenAt < c'[k].startedAt {
      assert k < |c| ==> Completed(s, c[k]);
    }
  }

  /** The page part of a commit, before any charge. */
  function Persisted(s: System, w: Token): System
    requires w in s.workers && s.workers[w].phase.Fetched?
  {
    var x := s.workers[w];
    var seen := Persist(s.lots, x.phase.page, x.phase.observedAt);
    s.(lots := seen, charges := PersistCharges(s.charges, seen, x.phase.page))
  }

  lemma PersistKeepsCharges(s: System, w: Token)
    requires ChargeInv(s) && w in s.workers && s.workers[w].phase.Fetched?
    ensures ChargeInv(Persisted(s, w))
  {
    FrameKeepsCharges(s, Persisted(s, w));
  }

  lemma CommitMovesSweeps(s: System, w: Token, now: int)
    requires FetchFacts(s, w)
    ensures SweepsKept(Persisted(s, w), CommitPage(s, w, now))
    ensures var sweep := Sweep(s.workers[w].query, s.checkpoints[s.workers[w].query].cycle, s.workers[w].cycleStart);
      && !Completed(Persisted(s, w), sweep)
      && (s.workers[w].phase.page.next.None? && !s.workers[w].query.scoped ==> Completed(CommitPage(s, w, now), sweep))
  {
  }

  lemma CommitKeepsCharges(s: System, w: Token, now: int)
    requires ChargeInv(s) && FetchFacts(s, w)
    ensures ChargeInv(CommitPage(s, w, now))
  {
    var x, mid, s' := s.workers[w], Persisted(s, w), CommitPage(s, w, now);
    var sweep := Sweep(x.query, s.checkpoints[x.query].cycle, x.cycleStart);
    PersistKeepsCharges(s, w);
    CommitMovesSweeps(s, w, now);
    if x.phase.page.next.None? && !x.query.scoped {
      assert s'.lots == ChargeMisses(mid.lots, x.cycleStart) && s'.charges == AddCharges(mid.charges, mid.lots, sweep);
      ChargingKeepsCharges(mid, s', sweep);
    } else {
      FrameKeepsCharges(mid, s');
    }
  }

  lemma ChargingKeepsCharges(s: System, s': System, sweep: Sweep)
    requires ChargeInv(s) && SweepsKept(s, s') && Completed(s', sweep) && !Completed(s, sweep)
    requires s'.lots == ChargeMisses(s.lots, sweep.startedAt) && s'.charges == AddCharges(s.charges, s.lots, sweep)
    ensures ChargeInv(s')
  {
    forall l | l in s'.lots ensures ChargedRight(s', l) {
      assert ChargedRight(s, l);
      if Chargeable(s.lots[l], sweep.startedAt) {
        OneMoreCharge(s, s', l, sweep);
      }
    }
  }

  lemma OtherStepsKeepLots(provider: Provider, s: System, ev: Event)
    requires Enabled(s, ev) && !ev.act.Search? && !ev.act.Rewrite?
    requires ev.act.Commit? ==> !Usable(s, ev.act.w, ev.checked)
    ensures Apply(provider, s, ev).lots == s.lots && Apply(provider, s, ev).charges == s.charges
  {
    match ev.act
    case Restart(_) =>
    case StartCycle(_) =>
    case Read(_) =>
    case _ =>
  }

  lemma StepFramesCharges(provider: Provider, s: System, ev: Event)
    requires ChargeInv(s) && Enabled(s, ev) && (ev.act.Commit? ==> !Usable(s, ev.act.w, ev.checked))
    ensures ChargeFrame(s, Apply(provider, s, ev))
  {
    var s' := Apply(provider, s, ev);
    assert forall l :: l in s.lots ==> ChargedRight(s, l);
    if !ev.act.Search? && !ev.act.Rewrite? {
      OtherStepsKeepLots(provider, s, ev);
    }
  }

  lemma StepKeepsSweeps(provider: Provider, s: System, ev: Event)
    requires ChainInv(provider, s) && Enabled(s, ev)
    ensures SweepsKept(s, Apply(provider, s, ev))
  {
    forall q | q in s.checkpoints
      ensures q in Apply(provider, s, ev).checkpoints
      ensures SweepKept(s.checkpoints[q], Apply(provider, s, ev).checkpoints[q])
    {
      PagesStep(provider, s, ev, q);
    }
  }

  lemma StepKeepsCharges(provider: Provider, s: System, ev: Event)
    requires ChainInv(provider, s) && Enabled(s, ev) && ChargeInv(s)
    ensures ChargeInv(Apply(provider, s, ev))
  {
    if ev.act.Commit? && Usable(s, ev.act.w, ev.checked) {
      FetchFactsHold(provider, s, ev.act.w);
      CommitKeepsCharges(s, ev.act.w, ev.now);
      FrameKeepsCharges(CommitPage(s, ev.act.w, ev.now), Apply(provider, s, ev));
    } else {
      StepFramesCharges(provider, s, ev);
      StepKeepsSweeps(provider, s, ev);
      FrameKeepsCharges(s, Apply(provider, s, ev));
    }
  }

  /** In every reachable state, timely searches or not, the stored miss count of a lot
      is the number of distinct completed sweeps, none of them scoped, that began
      after the lot was last observed and charged it. */
  lemma {:induction false} MissesCountSweeps(provider: Provider, s: seq<System>, e: seq<Event>, i: nat)
    requires Run(provider, s, e) && i <= |e|
    ensures ChargeInv(s[i])
  {
    if i > 0 {
      MissesCountSweeps(provider, s, e, i - 1);
      ChainHolds(provider, s, e, i - 1);
      assert Taken(provider, s, e, i - 1);
      StepKeepsCharges(provider, s[i - 1], e[i - 1]);
    }
  }

  /** So a lot hidden for three misses was missed by three different sweeps. */
  lemma ThreeMissesNeedThreeSweeps(provider: Provider, s: seq<System>, e: seq<Event>, i: nat, l: LotId)
    requires Run(provider, s, e) && i <= |e| && l in s[i].lots && s[i].lots[l].misses >= 3
    ensures l in s[i].charges
    ensures exists a, b, c ::
      && {a, b, c} <= (set x | x in s[i].charges[l])
      && Distinct([a, b, c])
      && Completed(s[i], a) && Completed(s[i], b) && Completed(s[i], c)
      && s[i].lots[l].lastSeenAt < Min(a.startedAt, Min(b.startedAt, c.startedAt))
  {
    MissesCountSweeps(provider, s, e, i);
    assert ChargedRight(s[i], l);
    var h := s[i].charges[l];
    assert Distinct([h[0], h[1], h[2]]);
    assert {h[0], h[1], h[2]} <= (set x | x in h);
  }
}
