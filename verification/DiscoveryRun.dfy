/** One run of `runDiscovery` as imperative code over the rows of `Discovery`, with
    other workers acting between its transactions and `Transport` making its calls. */
module DiscoveryRun {
  import opened Wrappers
  import L = Leases
  import B = Budget
  import T = Transport
  import D = Discovery

  type Token = D.Token
  type Cursor = D.Cursor
  type LotId = D.LotId

  // ---------------------------------------------------------------------------
  // Reaching one state from another
  // ---------------------------------------------------------------------------

  /** The events that are enabled when their turn comes, in order. */
  function Replay(provider: D.Provider, s: D.System, events: seq<D.Event>): D.System {
    if events == [] then s
    else
      var before, ev := Replay(provider, s, events[..|events| - 1]), events[|events| - 1];
      if D.Enabled(before, ev) then D.Apply(provider, before, ev) else before
  }

  ghost predicate Reaches(provider: D.Provider, s: D.System, s': D.System) {
    exists events :: s' == Replay(provider, s, events)
  }

  lemma {:induction false} ReplayConcat(provider: D.Provider, s: D.System, a: seq<D.Event>, b: seq<D.Event>)
    ensures Replay(provider, Replay(provider, s, a), b) == Replay(provider, s, a + b)
  {
    if b == [] {
      assert a + b == a;
    } else {
      var ab, init := a + b, b[..|b| - 1];
      ReplayConcat(provider, s, a, init);
      assert ab[..|ab| - 1] == a + init && ab[|ab| - 1] == b[|b| - 1];
    }
  }

  lemma ReachesStep(provider: D.Provider, s: D.System, mid: D.System, ev: D.Event)
    requires Reaches(provider, s, mid) && D.Enabled(mid, ev)
    ensures Reaches(provider, s, D.Apply(provider, mid, ev))
  {
    var a :| mid == Replay(provider, s, a);
    assert (a + [ev])[..|a + [ev]| - 1] == a;
    assert D.Apply(provider, mid, ev) == Replay(provider, s, a + [ev]);
  }

  lemma ReachesSelf(provider: D.Provider, s: D.System)
    ensures Reaches(provider, s, s)
  {
    assert s == Replay(provider, s, []);
  }

  lemma ReachesTransitive(provider: D.Provider, a: D.System, b: D.System, c: D.System)
    requires Reaches(provider, a, b) && Reaches(provider, b, c)
    ensures Reaches(provider, a, c)
  {
    var p :| b == Replay(provider, a, p);
    var q :| c == Replay(provider, b, q);
    ReplayConcat(provider, a, p, q);
  }

  /** What a run of the service reaches from an initial state is the end of a run in
      the sense of `Discovery`, so every theorem there holds of it. */
  lemma {:induction false} ReplayIsRun(provider: D.Provider, s: D.System, events: seq<D.Event>)
    requires D.Initial(s)
    ensures exists path, taken :: D.Run(provider, path, taken) && path[|taken|] == Replay(provider, s, events)
  {
    if events == [] {
      var none: seq<D.Event> := [];
      assert D.Run(provider, [s], none) && [s][|none|] == s;
    } else {
      var before, ev := Replay(provider, s, events[..|events| - 1]), events[|events| - 1];
      ReplayIsRun(provider, s, events[..|events| - 1]);
      var path, taken :| D.Run(provider, path, taken) && path[|taken|] == before;
      if D.Enabled(before, ev) {
        var after := D.Apply(provider, before, ev);
        var path', taken' := path + [after], taken + [ev];
        forall i | 0 <= i < |taken'| ensures D.Taken(provider, path', taken', i) {
          if i < |taken| {
            assert D.Taken(provider, path, taken, i);
          }
        }
        assert D.Run(provider, path', taken') && path'[|taken'|] == after;
      }
    }
  }

  /** Whatever the imperative runs below, of any number of workers, leave in the rows:
      the pages of every checkpoint are the provider's first pages from the null cursor
      and every miss count is the number of completed sweeps that charged it. */
  lemma ReachedStatesAreSound(provider: D.Provider, s: D.System, s': D.System, q: D.Query)
    requires D.Initial(s) && Reaches(provider, s, s')
    ensures D.ChainInv(provider, s') && D.ChargeInv(s')
    ensures q in s'.checkpoints ==>
      s'.checkpoints[q].pages == D.ServedPrefix(provider, q, s'.checkpoints[q].cycle, |s'.checkpoints[q].pages|)
  {
    var events :| s' == Replay(provider, s, events);
    ReplayIsRun(provider, s, events);
    var path, taken :| D.Run(provider, path, taken) && path[|taken|] == s';
    D.ChainHolds(provider, path, taken, |taken|);
    D.MissesCountSweeps(provider, path, taken, |taken|);
    if q in s'.checkpoints {
      D.CommittedPagesArePrefix(provider, path, taken, |taken|, q);
    }
  }

  // ---------------------------------------------------------------------------
  // Other actors
  // ---------------------------------------------------------------------------

  /** The token of the worker that takes the step, or that it presents. */
  function Actor(act: D.Action): Token {
    match act
    case Claim(v, _, _, _) => v
    case Read(v) => v
    case Restart(v) => v
    case StartCycle(v) => v
    case Fetch(v) => v
    case Commit(v) => v
    case NoteError(v) => v
    case Stop(v) => v
    case Release(v) => v
    case Crash(v) => v
    case Foreign(op) => D.ForeignOwner(op)
    case _ => L.NO_OWNER
  }

  /** What other actors cannot change: the worker's own state, and that only its own
      claim makes it the owner. */
  predicate LeavesAlone(s: D.System, s': D.System, w: Token) {
    && (w in s'.workers <==> w in s.workers)
    && (w in s.workers ==> s'.workers[w] == s.workers[w])
    && (s'.lease.owner == w ==> s.lease.owner == w && s'.lease.fence == s.lease.fence)
    && s.checkpoints.Keys <= s'.checkpoints.Keys && s.clock <= s'.clock
  }

  lemma ForeignLeavesAlone(provider: D.Provider, s: D.System, ev: D.Event, w: Token)
    requires D.Enabled(s, ev) && ev.act.Foreign? && Actor(ev.act) != w && w != L.NO_OWNER
    ensures LeavesAlone(s, D.Apply(provider, s, ev), w)
  {
    if D.Apply(provider, s, ev).lease.owner == w {
      D.ForeignNeverInstalls(s.lease, ev.act.op, ev.checked, w);
    }
  }

  lemma OthersLeaveAlone(provider: D.Provider, s: D.System, ev: D.Event, w: Token)
    requires D.Enabled(s, ev) && Actor(ev.act) != w && w != L.NO_OWNER
    ensures LeavesAlone(s, D.Apply(provider, s, ev), w)
  {
    if ev.act.Foreign? {
      ForeignLeavesAlone(provider, s, ev, w);
    }
  }

  /** The token has not been presented yet. */
  predicate Unused(s: D.System, w: Token) { w !in s.workers && s.lease.owner != w }

  /** From `s0` the rows have only moved by the steps of `Discovery`, and the tokens this
      process keeps for other runs than `w` are as unused as they were. */
  ghost predicate Led(provider: D.Provider, tokens: set<Token>, s0: D.System, s: D.System, w: Token) {
    && Reaches(provider, s0, s) && s0.clock <= s.clock
    && (forall v :: v in tokens && v != w && v != L.NO_OWNER && Unused(s0, v) ==> Unused(s, v))
  }

  lemma LedSelf(provider: D.Provider, tokens: set<Token>, s: D.System, w: Token)
    ensures Led(provider, tokens, s, s, w)
  {
    ReachesSelf(provider, s);
  }

  lemma StepLed(provider: D.Provider, tokens: set<Token>, s0: D.System, s: D.System, ev: D.Event, w: Token)
    requires Led(provider, tokens, s0, s, w) && D.Enabled(s, ev) && (Actor(ev.act) !in tokens || Actor(ev.act) == w)
    ensures Led(provider, tokens, s0, D.Apply(provider, s, ev), w)
  {
    ReachesStep(provider, s0, s, ev);
    forall v | v in tokens && v != w && v != L.NO_OWNER && Unused(s0, v) ensures Unused(D.Apply(provider, s, ev), v) {
      OthersLeaveAlone(provider, s, ev, v);
    }
  }

  /** Others' steps, then the clock readings of the worker's own next step. */
  datatype Moment = Moment(others: seq<D.Event>, at: int, checked: int)

  // ---------------------------------------------------------------------------
  // Results
  // ---------------------------------------------------------------------------

  datatype Reason =
    | ConfigurationError | LeaseHeld | NotDue | TickAttemptCap | Exhausted | Completed
    | DeadlineExceeded | LeaseLost | ProviderError | PersistenceError

  /** The class of an exception; one of them says that the provider repeated the cursor. */
  datatype Failure = Lease | Malformed(repeated: bool) | Other

  datatype RunResult = RunResult(reason: Reason, pages: nat, exhausted: bool, attempts: int, error: Option<Failure>)

  /** The reason an exception is reported with, unless the allowance is used up. */
  function ErrorReason(failure: Failure): Reason {
    match failure
    case Lease => LeaseLost
    case Malformed(_) => ProviderError
    case Other => PersistenceError
  }

  /** The reasons that take a provider out of the scheduler's tick. */
  predicate Unavailable(reason: Reason) {
    || reason.LeaseHeld? || reason.ConfigurationError? || reason.NotDue? || reason.Exhausted?
    || reason.LeaseLost? || reason.PersistenceError? || reason.ProviderError?
  }

  /** What a run promises its caller about the allowance it was given. */
  predicate Honest(r: RunResult, allowance: int) {
    && 0 <= r.attempts <= Max(0, allowance) && r.attempts <= 3 * D.MAX_PAGES_PER_RUN
    && r.pages <= D.MAX_PAGES_PER_RUN && r.pages <= r.attempts
    && (r.attempts == 0 && allowance > 0 ==> Unavailable(r.reason) || r.reason.DeadlineExceeded?)
    && (r.reason.TickAttemptCap? ==> r.attempts >= allowance)
  }

  /** One pass of the page loop: what the network and the database do during it, and the
      clock at the next loop head. The readable responses of the attempts in `served` carry
      the provider's answer to the request, the others what `attempts` says. */
  datatype PageTurn = PageTurn(
    attempts: seq<T.Attempt>, served: set<nat>, reject: T.Moment, fetch: Moment, commit: Moment, commitFails: bool,
    settle: T.Moment, next: int)

  /** What the provider answers to one request: the body as the transport sees it, whether
      it passes validation and can be normalised, and its lots and next cursor. */
  datatype PageAnswer = PageAnswer(body: T.Body, valid: bool, normalizable: bool, page: D.Page)

  /** The attempts as they go when the provider answers with this body. */
  function Sent(turn: PageTurn, body: T.Body): (sent: seq<T.Attempt>)
    ensures |sent| == |turn.attempts|
    ensures forall k :: 0 <= k < |sent| ==> sent[k] == Deliver(turn.attempts[k], k in turn.served, body)
  {
    seq(|turn.attempts|, k requires 0 <= k < |turn.attempts| => Deliver(turn.attempts[k], k in turn.served, body))
  }

  /** A response that carries the provider's answer has its body. */
  function Deliver(a: T.Attempt, served: bool, body: T.Body): T.Attempt {
    if served && a.answer.Responded? then a.(answer := a.answer.(json := Some(body))) else a
  }

  lemma SentFresh(turn: PageTurn, body: T.Body, scope: B.Scope, l: B.Ledger)
    requires T.FreshIds(turn.attempts, turn.reject, scope, l)
    ensures T.FreshIds(Sent(turn, body), turn.reject, scope, l) && T.Ids(Sent(turn, body)) == T.Ids(turn.attempts)
  {
    var sent := Sent(turn, body);
    assert forall k :: 0 <= k < |sent| ==> sent[k].id == turn.attempts[k].id;
    assert T.Ids(sent) == T.Ids(turn.attempts);
    forall k | 0 <= k < |sent| ensures T.AttemptOutside(sent[k], T.Ids(sent), scope) {
      assert T.AttemptOutside(turn.attempts[k], T.Ids(turn.attempts), scope);
    }
  }

  lemma SentAccounted(turn: PageTurn, body: T.Body, l: B.Ledger, n: nat, committed: bool)
    requires Accounted(l, Sent(turn, body), n, committed)
    ensures Accounted(l, turn.attempts, n, committed)
  {
    var sent := Sent(turn, body);
    assert forall k :: 0 <= k < |sent| ==> sent[k].id == turn.attempts[k].id;
  }

  datatype World = World(
    hasKey: bool, ttl: nat, timeout: nat, claim: Moment, claimFails: bool, read: Moment, readFails: bool,
    start: Moment, startFails: bool, head: int, turns: seq<PageTurn>, end: int, note: Moment, release: Moment,
    releaseFails: bool, retries: int, initialDelay: nat, maxDelay: nat)

  function TurnIds(world: World, k: nat): set<T.AttemptId> {
    if k < |world.turns| then T.Ids(world.turns[k].attempts) else {}
  }

  /** The other pages' attempt ids. */
  function RestIds(world: World, k: nat): set<T.AttemptId> { TurnIds(world, if k == 0 then 1 else 0) }

  /** While page `k` is fetched the other page's ids are spared too. */
  function TurnScope(world: World, k: nat, scope: B.Scope): B.Scope {
    scope.(spared := scope.spared + RestIds(world, k))
  }

  ghost predicate FreshTurn(world: World, k: nat, scope: B.Scope, l: B.Ledger)
    requires k < |world.turns|
  {
    var turn := world.turns[k];
    && |turn.attempts| == 3 && T.FreshIds(turn.attempts, turn.reject, TurnScope(world, k, scope), l)
    && T.Outside(turn.settle, TurnIds(world, k), TurnScope(world, k, scope))
  }

  /** The attempts of one page: `n` of them were reserved and all are settled; exactly
      the committed page's last attempt succeeded. */
  predicate Accounted(l: B.Ledger, attempts: seq<T.Attempt>, n: nat, committed: bool) {
    && n <= |attempts|
    && (forall k :: 0 <= k < n ==> attempts[k].id in l.reservations && B.Settled(l.reservations[attempts[k].id].status))
    && (forall k :: n <= k < |attempts| ==> attempts[k].id !in l.reservations)
    && (forall k :: 0 <= k < n ==>
          (l.reservations[attempts[k].id].status.Succeeded? <==> committed && k == n - 1))
    && (committed ==> n >= 1)
  }

  lemma AccountedKept(
      l: B.Ledger, l': B.Ledger, attempts: seq<T.Attempt>, n: nat, committed: bool, ids: set<T.AttemptId>)
    requires Accounted(l, attempts, n, committed) && B.SameOn(l, l', ids) && T.Ids(attempts) <= ids
    ensures Accounted(l', attempts, n, committed)
  {
    forall k | 0 <= k < |attempts| ensures attempts[k].id in ids {
      T.MemberId(attempts, k);
    }
  }

  lemma LostAccounted(deadline: int, l: B.Ledger, attempts: seq<T.Attempt>, n: nat)
    requires T.AllFailed(deadline, l, attempts, n)
    ensures Accounted(l, attempts, n, false)
  {
    forall k | 0 <= k < n ensures attempts[k].id in l.reservations && l.reservations[attempts[k].id].status.Failed? {
      assert T.SettledLost(deadline, l, attempts[k]);
    }
  }

  lemma LastAccounted(
      deadline: int, l: B.Ledger, attempts: seq<T.Attempt>, n: nat, status: B.Status, failure: Option<B.FailureKind>)
    requires T.LastIs(deadline, l, attempts, n, status, failure) && B.Settled(status)
    ensures Accounted(l, attempts, n, status.Succeeded?)
  {
    forall k | 0 <= k < n - 1
      ensures attempts[k].id in l.reservations && l.reservations[attempts[k].id].status.Failed?
    {
      assert T.SettledLost(deadline, l, attempts[k]);
    }
  }

  lemma FreshKept(world: World, k: nat, scope: B.Scope, l: B.Ledger, l': B.Ledger, ids: set<T.AttemptId>)
    requires k < |world.turns| && FreshTurn(world, k, scope, l) && B.SameOn(l, l', ids) && TurnIds(world, k) <= ids
    ensures FreshTurn(world, k, scope, l')
  {
  }

  function Sum(made: seq<nat>): nat
    requires |made| == 2
  {
    made[0] + made[1]
  }

  ghost predicate FreshWorld(world: World, scope: B.Scope, l: B.Ledger) {
    |world.turns| == 2 && forall k: nat {:trigger FreshTurn(world, k, scope, l)} :: k < 2 ==>
      FreshTurn(world, k, scope, l)
  }

  /** The run's entries in the ledger: page `k` had `made[k]` attempts, and `pages` of
      the pages were committed. */
  ghost predicate Books(world: World, made: seq<nat>, pages: nat, l: B.Ledger) {
    && |world.turns| == |made| == 2 && made[0] <= 3 && made[1] <= 3
    && Accounted(l, world.turns[0].attempts, made[0], 0 < pages)
    && Accounted(l, world.turns[1].attempts, made[1], 1 < pages)
  }

  predicate Paid(remaining: int, used: int, remaining0: int, used0: int, made: seq<nat>)
    requires |made| == 2
  {
    remaining == remaining0 - Sum(made) && used == used0 + Sum(made) && Sum(made) <= Max(0, remaining0)
  }

  /** Why a loop without an exception ended. */
  predicate LoopReason(reason: Reason, x: D.Worker, limit: nat, remaining: int) {
    match reason
    case TickAttemptCap => remaining <= 0
    case Exhausted => x.committed >= 1 && x.cursor.None?
    case Completed => x.committed == limit
    case DeadlineExceeded => true
    case _ => false
  }

  /** The page's next cursor is the current one. */
  predicate Repeats(cursor: Option<Cursor>, page: D.Page) { page.next.Some? && page.next == cursor }

  /** The callback's failure on a page of the provider's own. A rejected page is malformed,
      one that cannot be normalised is a persistence error, and a failed transaction is a
      lost lease, as is one the lease refuses. */
  predicate CallbackFails(
      turn: PageTurn, valid: bool, answer: PageAnswer, c: Option<Cursor>, failure: Option<Failure>)
  {
    if !valid then failure == Some(Malformed(false))
    else if Repeats(c, answer.page) then failure == Some(Malformed(true))
    else if !answer.normalizable then failure == Some(Other)
    else if turn.commitFails then failure == Some(Lease)
    else failure == Some(Lease) || failure.None?
  }

  /** What page `turn` fails with when its call made `n` attempts and the provider answers
      `answer` to the cursor `c`. A call without a readable body or with one that is no object
      is malformed; a page of another provider is a persistence error. Only the provider's
      answer to the request passes validation. */
  ghost predicate FailsBy(
      turn: PageTurn, n: nat, deadline: int, platform: L.Provider, answer: PageAnswer, c: Option<Cursor>,
      failure: Option<Failure>)
    requires n <= |turn.attempts|
  {
    var sent := Sent(turn, answer.body);
    if n == 0 || T.FateOf(deadline, sent[n - 1]).Lost? then failure == Some(Malformed(false))
    else
      match T.FateOf(deadline, sent[n - 1]).body
      case Scalar => failure == Some(Malformed(false))
      case Payload(items) =>
        if !T.OwnItems(items, platform) then failure == Some(Other)
        else CallbackFails(turn, n - 1 in turn.served && answer.valid, answer, c, failure)
  }

  /** How a page changes the worker. */
  predicate PageTaken(x: D.Worker, x': D.Worker, failure: Option<Failure>, exhausted: bool) {
    if failure.None? then
      && x' == x.(committed := x.committed + 1, cursor := x'.cursor, phase := if exhausted then D.Ending else D.Ready)
      && (exhausted <==> x'.cursor.None?)
    else x' == x.(phase := x'.phase) && !exhausted
  }

  lemma FreshAccounted(world: World, k: nat, scope: B.Scope, l: B.Ledger)
    requires k < |world.turns| && FreshTurn(world, k, scope, l)
    ensures Accounted(l, world.turns[k].attempts, 0, false)
  {
    var attempts := world.turns[k].attempts;
    forall j | 0 <= j < |attempts| ensures attempts[j].id !in l.reservations {
      T.MemberId(attempts, j);
    }
  }

  lemma FreshBooks(world: World, scope: B.Scope, l: B.Ledger)
    requires FreshWorld(world, scope, l)
    ensures Books(world, [0, 0], 0, l)
  {
    FreshAccounted(world, 0, scope, l);
    FreshAccounted(world, 1, scope, l);
  }

  /** Every committed page has an attempt to its name. */
  lemma PagesPaid(world: World, made: seq<nat>, pages: nat, l: B.Ledger)
    requires Books(world, made, pages, l) && pages <= 2
    ensures pages <= Sum(made) <= 6
  {
  }

  /** One more page in the books; the other page's entries are untouched. */
  lemma TurnBooked(world: World, made: seq<nat>, k: nat, spent: nat, committed: bool, l: B.Ledger, l': B.Ledger)
    requires k < 2 && Books(world, made, k, l) && spent <= 3
    requires B.SameOn(l, l', RestIds(world, k)) && Accounted(l', world.turns[k].attempts, spent, committed)
    ensures Books(world, made[k := spent], if committed then k + 1 else k, l')
  {
    AccountedKept(l, l', world.turns[1 - k].attempts, made[1 - k], 1 - k < k, RestIds(world, k));
  }

  /** The ledger after page `k`: reached within the limits, with the other page's ids as they were. */
  lemma TurnReached(world: World, k: nat, scope: B.Scope, c: B.Config, l0: B.Ledger, l: B.Ledger, l': B.Ledger)
    requires k < |world.turns| == 2 && B.Reaches(c, l0, l, scope) && B.Reaches(c, l, l', TurnScope(world, k, scope))
    ensures B.Reaches(c, l0, l', scope) && B.SameOn(l, l', RestIds(world, k))
    ensures k == 0 && FreshTurn(world, 1, scope, l) ==> FreshTurn(world, 1, scope, l')
  {
    B.ReachesKeeps(c, l, l', TurnScope(world, k, scope));
    B.ReachesWider(c, l, l', TurnScope(world, k, scope), scope);
    B.ReachesTransitive(c, l0, l, l', scope);
    if k == 0 && FreshTurn(world, 1, scope, l) {
      FreshKept(world, 1, scope, l, l', RestIds(world, 0));
    }
  }

  /** The books before page `k`: the pages from it on are untouched. */
  ghost predicate Open(world: World, made: seq<nat>, k: nat, scope: B.Scope, c: B.Config, l0: B.Ledger, l: B.Ledger) {
    && Books(world, made, k, l) && B.Reaches(c, l0, l, scope)
    && forall j: nat {:trigger FreshTurn(world, j, scope, l)} :: k <= j < 2 ==>
      FreshTurn(world, j, scope, l) && made[j] == 0
  }

  lemma TurnDone(
      world: World, made: seq<nat>, k: nat, spent: nat, committed: bool, scope: B.Scope, c: B.Config, l0: B.Ledger,
      l: B.Ledger, l': B.Ledger)
    requires k < 2 && Open(world, made, k, scope, c, l0, l) && spent <= 3
    requires B.Reaches(c, l, l', TurnScope(world, k, scope))
    requires Accounted(l', world.turns[k].attempts, spent, committed)
    ensures Books(world, made[k := spent], if committed then k + 1 else k, l') && B.Reaches(c, l0, l', scope)
    ensures committed ==> Open(world, made[k := spent], k + 1, scope, c, l0, l')
  {
    TurnReached(world, k, scope, c, l0, l, l');
    TurnBooked(world, made, k, spent, committed, l, l');
  }

  // ---------------------------------------------------------------------------
  // Writing a page
  // ---------------------------------------------------------------------------

  /** One lot of a page, written to the table. */
  function WriteOne(lots: map<LotId, D.LotRow>, l: LotId, facts: D.Facts, observedAt: int): map<LotId, D.LotRow> {
    if l in lots then lots[l := lots[l].(lastSeenAt := observedAt, misses := 0, lifecycle := facts.lifecycle)]
    else if facts.passenger then lots[l := D.LotRow(observedAt, 0, facts.lifecycle, D.Discovered, None)]
    else lots
  }

  function Part(page: D.Page, ids: set<LotId>): D.Page {
    page.(lots := map l | l in page.lots && l in ids :: page.lots[l])
  }

  lemma PersistOne(before: map<LotId, D.LotRow>, page: D.Page, done: set<LotId>, l: LotId, observedAt: int)
    requires l in page.lots && l !in done
    ensures D.Persist(before, Part(page, done + {l}), observedAt)
         == WriteOne(D.Persist(before, Part(page, done), observedAt), l, page.lots[l], observedAt)
  {
  }

  /** Writes a page's lots one by one. */
  method PersistLots(before: map<LotId, D.LotRow>, page: D.Page, observedAt: int) returns (rows: map<LotId, D.LotRow>)
    ensures rows == D.Persist(before, page, observedAt)
  {
    var todo := page.lots.Keys;
    ghost var done: set<LotId> := {};
    rows := before;
    while todo != {}
      invariant todo + done == page.lots.Keys && todo !! done
      invariant rows == D.Persist(before, Part(page, done), observedAt)
      decreases todo
    {
      var l :| l in todo;
      PersistOne(before, page, done, l, observedAt);
      todo, done := todo - {l}, done + {l};
      var facts := page.lots[l];
      if l in rows {
        rows := rows[l := rows[l].(lastSeenAt := observedAt, misses := 0, lifecycle := facts.lifecycle)];
      } else if facts.passenger {
        rows := rows[l := D.LotRow(observedAt, 0, facts.lifecycle, D.Discovered, None)];
      }
    }
    assert Part(page, done) == page;
  }

  datatype PageCommit = PageCommit(exhausted: bool, next: Option<Cursor>)

  // ---------------------------------------------------------------------------
  // The service
  // ---------------------------------------------------------------------------

  /** How `runDiscovery` classifies the exception of a call. */
  function FailureFor(result: T.ListResult): Option<Failure> {
    match result
    case Listed(_, _) => None
    case FetchFailed(_) => Some(Malformed(false))
    case NotAnObject => Some(Malformed(false))
    case WrongProvider => Some(Other)
    case PersistFailed(why) =>
      Some(if why.LeaseLost? then Lease else if why.PageRejected? then Malformed(why.repeated) else Other)
  }

  lemma SettlesAccounted(call: T.ListCall, attempts: seq<T.Attempt>, n: nat, r: T.ListResult)
    requires call.Settles(attempts, n, r)
    ensures Accounted(call.service.View(), attempts, n, r.Listed?)
  {
    match r
    case FetchFailed(_) => LostAccounted(call.config.deadline, call.service.View(), attempts, n);
    case Listed(_, _) => LastAccounted(call.config.deadline, call.service.View(), attempts, n, B.Succeeded, None);
    case PersistFailed(why) =>
      LastAccounted(call.config.deadline, call.service.View(), attempts, n, B.Failed, Some(T.PersistFailureKind(why)));
    case _ => LastAccounted(call.config.deadline, call.service.View(), attempts, n, B.Failed, Some(B.ClientContract));
  }

  /** The rows of one provider. `workers` and `charges` are history: every worker's
      local variables, and what charged each lot. */
  class DiscoveryService {
    const answers: (D.Query, nat, Option<Cursor>) -> PageAnswer
    const provider: D.Provider := (q: D.Query, cycle: nat, c: Option<Cursor>) => answers(q, cycle, c).page
    const platform: L.Provider
    const budgetService: B.RequestBudgetService
    const tokens: set<Token> // random tokens, known to this process only
    var lease: L.Lease
    var checkpoints: map<D.Query, D.Checkpoint>
    var lots: map<LotId, D.LotRow>
    var clock: int
    var workers: map<Token, D.Worker>
    var charges: map<LotId, seq<D.Sweep>>

    constructor (
        answers: (D.Query, nat, Option<Cursor>) -> PageAnswer, platform: L.Provider,
        budgetService: B.RequestBudgetService, tokens: set<Token>, now: int)
      ensures this.answers == answers && this.platform == platform && this.budgetService == budgetService
      ensures this.tokens == tokens
      ensures D.Initial(View()) && clock == now
    {
      this.answers, this.platform, this.budgetService, this.tokens := answers, platform, budgetService, tokens;
      lease, checkpoints, lots, clock, workers, charges := L.Seeded(now), map[], map[], now, map[], map[];
    }

    /** The provider's answer to a request; an empty cursor is not sent. */
    function AnswerTo(q: D.Query, cycle: nat, c: Option<Cursor>): (answer: PageAnswer)
      ensures answer.page == D.Request(provider, q, cycle, c)
    {
      answers(q, cycle, D.Effective(c))
    }

    ghost function View(): D.System
      reads this
    {
      D.System(lease, checkpoints, lots, workers, charges, clock)
    }

    ghost predicate Since(s0: D.System, w: Token)
      reads this
    {
      Led(provider, tokens, s0, View(), w)
    }

    /** The worker's local variables as they stand; it owns the row only under its own fence. */
    ghost predicate Local(w: Token, x: D.Worker)
      reads this
    {
      w != L.NO_OWNER && w in workers && workers[w] == x && (lease.owner == w ==> lease.fence == x.fence)
    }

    method OthersAct(m: Moment, w: Token, ghost s0: D.System) returns (now: int, checked: int)
      requires Since(s0, w) && w != L.NO_OWNER
      modifies this
      ensures Since(s0, w) && LeavesAlone(old(View()), View(), w)
      ensures clock <= now && checked == Min(m.checked, now)
      ensures m.others == [] ==> View() == old(View()) && now == Max(clock, m.at)
    {
      for i := 0 to |m.others|
        invariant Since(s0, w) && LeavesAlone(old(View()), View(), w)
        invariant i == 0 ==> View() == old(View())
      {
        var ev := m.others[i];
        var s := D.System(lease, checkpoints, lots, workers, charges, clock);
        if D.Enabled(s, ev) && Actor(ev.act) !in tokens && Actor(ev.act) != w {
          OthersLeaveAlone(provider, s, ev, w);
          StepLed(provider, tokens, s0, s, ev, w);
          var after := D.Apply(provider, s, ev);
          lease, checkpoints, lots, workers, charges, clock :=
            after.lease, after.checkpoints, after.lots, after.workers, after.charges, after.clock;
        }
      }
      now := Max(clock, m.at);
      checked := Min(m.checked, now);
    }

    /** The claim that opens a run; without a grant the worker is finished at once. */
    method Claim(w: Token, q: D.Query, maxPages: int, ttl: nat, m: Moment, ghost s0: D.System)
      returns (fence: Option<nat>)
      requires Since(s0, w) && w != L.NO_OWNER && Unused(View(), w)
      modifies this
      ensures Since(s0, w) && w in workers
      ensures fence.None? ==> workers[w].phase.Finished? && workers[w].committed == 0 && lease.owner != w
      ensures fence.Some? ==>
                && Local(w, workers[w])
                && workers[w] == D.Worker(q, fence.value, Min(2, Max(1, maxPages)), clock, None, 0, 0, D.Claimed)
      ensures old(clock) <= clock
      ensures m.others == [] ==>
        && clock == Max(old(clock), m.at) && checkpoints == old(checkpoints)
        && (fence.None? <==> old(lease).owner != "" && Min(m.checked, clock) <= old(lease).expiresAt)
    {
      var now, checked := OthersAct(m, w, s0);
      ghost var ev := D.Event(now, checked, D.Claim(w, q, ttl, maxPages));
      ghost var mid := View();
      StepLed(provider, tokens, s0, mid, ev, w);
      clock := now;
      match L.ClaimRow(lease, w, ttl, None, checked) {
        case None =>
          workers := workers[w := D.Worker(q, 0, 0, now, None, 0, 0, D.Finished)];
          fence := None;
        case Some(row) =>
          lease := row;
          workers := workers[w := D.Worker(q, row.fence, Min(2, Max(1, maxPages)), now, None, 0, 0, D.Claimed)];
          fence := Some(row.fence);
      }
      assert View() == D.Apply(provider, mid, ev);
    }

    /** Upserts the checkpoint row and reads it. */
    method ReadCheckpoint(w: Token, x: D.Worker, m: Moment, ghost s0: D.System) returns (cp: D.Checkpoint, now: int)
      requires Since(s0, w) && Local(w, x) && x.phase.Claimed?
      modifies this
      ensures Since(s0, w) && x.query in checkpoints && now == clock
      ensures m.others == [] ==>
        && now == Max(old(clock), m.at) && checkpoints == old(checkpoints)[x.query := cp]
        && cp == (if x.query in old(checkpoints) then old(checkpoints)[x.query]
                  else D.Checkpoint(None, Some(now), None, None, 0, []))
      ensures x.query in checkpoints && checkpoints[x.query] == cp
      ensures Local(w, x.(readAt := now, phase := D.PhaseAfterRead(cp, now), cursor := cp.cursor,
                          cycleStart := if cp.cycleStartedAt.Some? then cp.cycleStartedAt.value else now))
      ensures old(clock) <= clock
    {
      var checked;
      now, checked := OthersAct(m, w, s0);
      ghost var ev := D.Event(now, checked, D.Read(w));
      ghost var mid := View();
      StepLed(provider, tokens, s0, mid, ev, w);
      if x.query !in checkpoints {
        checkpoints := checkpoints[x.query := D.Checkpoint(None, Some(now), None, None, 0, [])];
      }
      cp := checkpoints[x.query];
      workers := workers[w := x.(readAt := now, phase := D.PhaseAfterRead(cp, now), cursor := cp.cursor,
                                 cycleStart := if cp.cycleStartedAt.Some? then cp.cycleStartedAt.value else now)];
      clock := now;
      assert View() == D.Apply(provider, mid, ev);
    }

    predicate LeaseUsable(w: Token, fence: nat, checked: int)
      reads this
    {
      lease.owner == w && lease.fence == fence && lease.expiresAt > checked
    }

    method Heartbeat(now: int)
      modifies this`lease
      ensures lease == L.Heartbeat(old(lease), now)
    {
      var expiry := now + 60_000;
      lease := lease.(heartbeatAt := now, expiresAt := if lease.expiresAt > expiry then lease.expiresAt else expiry);
    }

    /** Restarts an exhausted checkpoint from the null cursor, or stamps a cycle start
        that is missing, in one leased transaction. */
    method OpenCycle(w: Token, x: D.Worker, m: Moment, ghost s0: D.System) returns (x': D.Worker)
      requires Since(s0, w) && Local(w, x) && (x.phase.NeedRestart? || x.phase.NeedStart?) && x.query in checkpoints
      modifies this
      ensures Since(s0, w) && Local(w, x') && x.query in checkpoints
      ensures x'.phase.Ready? || x'.phase.Ending?
      ensures x'.phase.Ready? ==>
        && x'.cycleStart == x.readAt && checkpoints[x.query].cycleStartedAt == Some(x.readAt)
        && x'.cursor == checkpoints[x.query].cursor
        && (x.phase.NeedRestart? ==>
              && checkpoints[x.query] == D.Checkpoint(None, Some(x.readAt), None, None, checkpoints[x.query].cycle, [])
              && (m.others == [] ==> checkpoints[x.query].cycle == old(checkpoints)[x.query].cycle + 1))
        && (x.phase.NeedStart? && m.others == [] ==>
              checkpoints[x.query] == old(checkpoints)[x.query].(cycleStartedAt := Some(x.readAt)))
      ensures x' == x.(phase := x'.phase, cursor := x'.cursor, cycleStart := x'.cycleStart)
      ensures old(clock) <= clock
    {
      var now, checked := OthersAct(m, w, s0);
      ghost var ev := D.Event(now, checked, if x.phase.NeedRestart? then D.Restart(w) else D.StartCycle(w));
      ghost var mid := View();
      StepLed(provider, tokens, s0, mid, ev, w);
      clock := now;
      if !LeaseUsable(w, x.fence, checked) {
        x' := x.(phase := D.Ending);
      } else {
        var cp := checkpoints[x.query];
        checkpoints := checkpoints[x.query :=
          if x.phase.NeedRestart? then D.Checkpoint(None, Some(x.readAt), None, None, cp.cycle + 1, [])
                                  else cp.(cycleStartedAt := Some(x.readAt))];
        Heartbeat(now);
        x' := x.(cursor := checkpoints[x.query].cursor, cycleStart := x.readAt, phase := D.Ready);
      }
      workers := workers[w := x'];
      assert View() == D.Apply(provider, mid, ev);
    }

    /** The page of the provider's answer to the current cursor; a repeated cursor is malformed. */
    method ReceivePage(w: Token, x: D.Worker, answer: PageAnswer, now: int, ghost s0: D.System) returns (x': D.Worker)
      requires Since(s0, w) && Local(w, x) && x.phase.Ready? && x.committed < x.limit && x.query in checkpoints
      requires answer == AnswerTo(x.query, checkpoints[x.query].cycle, x.cursor) && clock <= now
      modifies this`workers, this`clock
      ensures Since(s0, w) && Local(w, x') && clock == now
      ensures x' == x.(phase := if Repeats(x.cursor, answer.page) then D.Ending else D.Fetched(answer.page, now))
    {
      ghost var ev := D.Event(now, now, D.Fetch(w));
      ghost var mid := View();
      StepLed(provider, tokens, s0, mid, ev, w);
      var nextCursor := answer.page.next;
      x' := x.(phase := if nextCursor.Some? && nextCursor == x.cursor then D.Ending else D.Fetched(answer.page, now));
      workers := workers[w := x'];
      clock := now;
      assert View() == D.Apply(provider, mid, ev);
    }

    method ForgetCharges(page: D.Page)
      modifies this`charges
      ensures charges == D.PersistCharges(old(charges), lots, page)
    {
      charges := D.PersistCharges(charges, lots, page);
    }

    /** One bulk update counts the misses of an exhausted sweep. */
    method ChargeMisses(sweep: D.Sweep)
      modifies this`lots, this`charges
      ensures lots == D.ChargeMisses(old(lots), sweep.startedAt)
      ensures charges == D.AddCharges(old(charges), old(lots), sweep)
    {
      charges := D.AddCharges(charges, lots, sweep);
      lots := map l | l in lots ::
        if D.Chargeable(lots[l], sweep.startedAt) then lots[l].(misses := lots[l].misses + 1) else lots[l];
    }

    /** The transaction of a page: its lots, the misses of an exhausted sweep, the
        checkpoint and the heartbeat. */
    method WritePage(w: Token, x: D.Worker, now: int) returns (commit: PageCommit)
      requires w in workers && workers[w] == x && x.phase.Fetched? && x.query in checkpoints
      modifies this`lease, this`lots, this`charges, this`checkpoints, this`workers
      ensures View() == D.CommitPage(old(View()), w, now)
      ensures commit.next == x.phase.page.next && commit.exhausted == x.phase.page.next.None?
    {
      var page, observedAt := x.phase.page, x.phase.observedAt;
      lots := PersistLots(lots, page, observedAt);
      ForgetCharges(page);
      var cp, exhausted := checkpoints[x.query], page.next.None?;
      if exhausted && !x.query.scoped {
        ChargeMisses(D.Sweep(x.query, cp.cycle, x.cycleStart));
      }
      checkpoints := checkpoints[x.query := cp.(
        cursor := page.next,
        exhaustedAt := if exhausted then Some(observedAt) else None,
        nextDueAt := if exhausted then Some(observedAt + D.CYCLE_INTERVAL_MS) else None,
        pages := cp.pages + [page])];
      Heartbeat(now);
      workers := workers[w :=
        x.(cursor := page.next, committed := x.committed + 1, phase := if exhausted then D.Ending else D.Ready)];
      commit := PageCommit(exhausted, page.next);
    }

    /** The page last committed for the query. */
    ghost predicate LastPage(q: D.Query, page: D.Page)
      requires q in checkpoints
      reads this
    {
      var pages := checkpoints[q].pages;
      pages != [] && pages[|pages| - 1] == page
    }

    /** Commits a fetched page in one leased transaction. */
    method CommitPage(w: Token, x: D.Worker, m: Moment, ghost s0: D.System)
      returns (x': D.Worker, commit: Option<PageCommit>)
      requires Since(s0, w) && Local(w, x) && x.phase.Fetched? && x.query in checkpoints
      modifies this
      ensures Since(s0, w) && Local(w, x') && x.query in checkpoints
      ensures commit.Some? <==> LeaseUsable(w, x.fence, clock)
      ensures commit.None? ==> x' == x.(phase := D.Ending)
      ensures commit.Some? ==>
                && commit.value.next == x.phase.page.next && commit.value.exhausted == x.phase.page.next.None?
                && x' == x.(cursor := x.phase.page.next, committed := x.committed + 1,
                            phase := if x.phase.page.next.None? then D.Ending else D.Ready)
                && checkpoints[x.query].cursor == x.phase.page.next && LastPage(x.query, x.phase.page)
      ensures old(clock) <= clock
    {
      var now, checked := OthersAct(m, w, s0);
      ghost var ev := D.Event(now, checked, D.Commit(w));
      ghost var mid := View();
      StepLed(provider, tokens, s0, mid, ev, w);
      commit := None;
      if LeaseUsable(w, x.fence, checked) {
        var written := WritePage(w, x, now);
        commit := Some(written);
      } else {
        workers := workers[w := x.(phase := D.Ending)];
      }
      clock := now;
      x' := workers[w];
      assert View() == D.Apply(provider, mid, ev);
    }

    /** Gives up the page loop. */
    method Stop(w: Token, x: D.Worker, ghost s0: D.System) returns (x': D.Worker)
      requires Since(s0, w) && Local(w, x) && !x.phase.Finished?
      modifies this`workers
      ensures Since(s0, w) && x' == x.(phase := D.Ending) && Local(w, x')
    {
      ghost var ev := D.Event(clock, clock, D.Stop(w));
      ghost var mid := View();
      StepLed(provider, tokens, s0, mid, ev, w);
      x' := x.(phase := D.Ending);
      workers := workers[w := x'];
      assert View() == D.Apply(provider, mid, ev);
    }

    /** Stores the last error, if the lease still allows it. */
    method NoteError(w: Token, x: D.Worker, m: Moment, ghost s0: D.System)
      requires Since(s0, w) && Local(w, x) && x.phase.Ending?
      modifies this
      ensures Since(s0, w) && Local(w, x)
      ensures old(clock) <= clock
    {
      var now, checked := OthersAct(m, w, s0);
      ghost var ev := D.Event(now, checked, D.NoteError(w));
      ghost var mid := View();
      StepLed(provider, tokens, s0, mid, ev, w);
      clock := now;
      if LeaseUsable(w, x.fence, checked) {
        Heartbeat(now);
      }
      assert View() == D.Apply(provider, mid, ev);
    }

    /** Frees the lease if it is still the worker's; a failure is only logged. */
    method Release(w: Token, x: D.Worker, m: Moment, fails: bool, ghost s0: D.System)
      requires Since(s0, w) && Local(w, x) && x.phase.Ending?
      modifies this
      ensures Since(s0, w) && (lease.owner == w ==> fails) && w in workers && workers[w] == x.(phase := D.Finished)
      ensures m.others == [] ==> checkpoints == old(checkpoints)
      ensures old(clock) <= clock
    {
      var now, checked := OthersAct(m, w, s0);
      ghost var ev := D.Event(now, checked, if fails then D.Crash(w) else D.Release(w));
      ghost var mid := View();
      StepLed(provider, tokens, s0, mid, ev, w);
      if !fails && lease.owner == w && lease.fence == x.fence {
        lease := lease.(owner := L.NO_OWNER, expiresAt := 0, heartbeatAt := 0, job := None);
      }
      workers := workers[w := x.(phase := D.Finished)];
      clock := now;
      assert View() == D.Apply(provider, mid, ev);
    }

    /** The callback of one call: validates the page and commits it. A transaction that
        fails reports a lost lease, because a leased transaction swallows its error;
        otherwise the page is committed exactly if the lease is the worker's. */
    method PersistPage(
        w: Token, x: D.Worker, turn: PageTurn, valid: bool, answer: PageAnswer, now: int, ghost s0: D.System)
      returns (x': D.Worker, outcome: T.PersistOutcome, exhausted: bool)
      requires Since(s0, w) && Local(w, x) && x.phase.Ready? && x.committed < x.limit && x.query in checkpoints
      requires answer == AnswerTo(x.query, checkpoints[x.query].cycle, x.cursor) && clock <= now
      modifies this
      ensures Since(s0, w) && Local(w, x') && x.query in checkpoints && !x'.phase.Finished?
      ensures outcome.Persisted? ==>
                && x' == x.(cursor := checkpoints[x.query].cursor, committed := x.committed + 1,
                            phase := if exhausted then D.Ending else D.Ready)
                && (exhausted <==> x'.cursor.None?) && LastPage(x.query, answer.page)
      ensures !outcome.Persisted? ==> x' == x.(phase := x'.phase) && !exhausted
      ensures outcome ==
        if !valid then T.PageRejected(false)
        else if Repeats(x.cursor, answer.page) then T.PageRejected(true)
        else if !answer.normalizable then T.OtherError
        else if turn.commitFails || !LeaseUsable(w, x.fence, clock) then T.LeaseLost
        else T.Persisted
      ensures old(clock) <= clock
    {
      exhausted := false;
      if !valid {
        return x, T.PageRejected(false), false;
      }
      x' := ReceivePage(w, x, answer, now, s0);
      if x'.phase.Ending? {
        return x', T.PageRejected(true), false;
      }
      if !answer.normalizable {
        return x', T.OtherError, false;
      }
      if turn.commitFails {
        return x', T.LeaseLost, false;
      }
      var commit;
      x', commit := CommitPage(w, x', turn.commit, s0);
      if commit.None? {
        return x', T.LeaseLost, false;
      }
      outcome, exhausted := T.Persisted, commit.value.exhausted;
    }

    /** Some answer of the provider to this query explains the failure of a page. */
    ghost predicate FailsWith(turn: PageTurn, n: nat, deadline: int, q: D.Query, failure: Option<Failure>)
      requires n <= |turn.attempts|
    {
      exists cycle: nat, c :: FailsBy(turn, n, deadline, platform, AnswerTo(q, cycle, c), c, failure)
    }

    /** How the protected part of a run fails with `k` pages committed: at page `k`, or before
        the first request. Without a failure page `k` was not requested. */
    ghost predicate FailsAt(world: World, made: seq<nat>, k: nat, deadline: int, q: D.Query, failure: Option<Failure>)
      requires |world.turns| == |made| == 2
    {
      if failure.None? then k < 2 ==> made[k] == 0
      else
        || (k < 2 && made[k] <= |world.turns[k].attempts| && FailsWith(world.turns[k], made[k], deadline, q, failure))
        || (made == [0, 0] && (failure == Some(Lease) || (failure == Some(Other) && world.readFails)))
    }

    /** The callback of an accepted page and the settlement of the call's last attempt. */
    method FinishPage(
        w: Token, x: D.Worker, call: T.ListCall, turn: PageTurn, attempts: nat, answer: PageAnswer, now: int,
        ghost l0: B.Ledger, ghost s0: D.System)
      returns (x': D.Worker, result: T.ListResult, exhausted: bool)
      requires Since(s0, w) && Local(w, x) && x.phase.Ready? && x.committed < x.limit && x.query in checkpoints
      requires answer == AnswerTo(x.query, checkpoints[x.query].cycle, x.cursor) && clock <= now
      requires call.service == budgetService && |turn.attempts| == 3
      requires T.OwnIds(Sent(turn, answer.body), call.scope) && attempts <= T.MaxAttempts(call.config)
      requires call.Last(Sent(turn, answer.body), attempts, B.Confirmed, None)
      requires call.lastAttemptId == Some(Sent(turn, answer.body)[attempts - 1].id)
      requires T.Outside(turn.settle, T.Ids(Sent(turn, answer.body)), call.scope) && call.Since(l0)
      modifies this, budgetService
      ensures Since(s0, w) && Local(w, x') && x.query in checkpoints && !x'.phase.Finished?
      ensures call.Since(l0) && call.Settles(Sent(turn, answer.body), attempts, result)
      ensures CallbackFails(turn, attempts - 1 in turn.served && answer.valid, answer, x.cursor, FailureFor(result))
      ensures PageTaken(x, x', FailureFor(result), exhausted)
      ensures FailureFor(result).None? ==> LastPage(x.query, answer.page)
      ensures old(clock) <= clock
    {
      hide Led, B.Reaches, T.AllFailed, T.LastIs, T.OwnIds, T.Outside, Sent;
      var outcome;
      var sent, valid := Sent(turn, answer.body), attempts - 1 in turn.served && answer.valid;
      x', outcome, exhausted := PersistPage(w, x, turn, valid, answer, now, s0);
      result := call.Conclude(sent, attempts, outcome, turn.settle, l0);
    }

    /** The call, while others act: what the provider answers to the stored cursor is what
        the served attempts deliver. */
    method CallPage(
        w: Token, x: D.Worker, turn: PageTurn, config: T.FetchConfig, answer: PageAnswer, now: int,
        budget: T.AttemptBudget, ghost own: B.Scope, ghost s0: D.System)
      returns (x': D.Worker, failure: Option<Failure>, exhausted: bool, ghost made: nat)
      requires Since(s0, w) && Local(w, x) && x.phase.Ready? && x.committed < x.limit && x.query in checkpoints
      requires answer == AnswerTo(x.query, checkpoints[x.query].cycle, x.cursor) && clock <= now
      requires |turn.attempts| == 3 && T.FreshIds(turn.attempts, turn.reject, own, budgetService.View())
      requires T.Outside(turn.settle, T.Ids(turn.attempts), own)
      modifies this, budgetService, budget
      ensures Since(s0, w) && Local(w, x') && x.query in checkpoints && !x'.phase.Finished?
      ensures made <= 3 && made <= Max(0, old(budget.remaining))
      ensures budget.remaining == old(budget.remaining) - made && budget.used == old(budget.used) + made
      ensures B.Reaches(budgetService.config, old(budgetService.View()), budgetService.View(), own)
      ensures Accounted(budgetService.View(), turn.attempts, made, failure.None?)
      ensures FailsBy(turn, made, config.deadline, platform, answer, x.cursor, failure)
      ensures PageTaken(x, x', failure, exhausted)
      ensures failure.None? ==> LastPage(x.query, answer.page)
      ensures old(clock) <= clock
    {
      hide Led, Accounted, B.Reaches, T.AllFailed, T.LastIs, T.FreshIds, CallbackFails, T.OwnItems, T.FateOf;
      ghost var l0 := budgetService.View();
      var sent := Sent(turn, answer.body);
      SentFresh(turn, answer.body, own, l0);
      var call := new T.ListCall(budgetService, budget, platform, config, own);
      B.ReachesSelf(budgetService.config, l0, own);
      var early, attempts, result;
      early, attempts, made := call.FetchPage(sent, turn.reject, l0);
      if early.Some? {
        x', result, exhausted := x, early.value, false;
      } else {
        FreshOwn(sent, turn.reject, own, l0);
        x', result, exhausted := FinishPage(w, x, call, turn, attempts, answer, now, l0, s0);
      }
      SettlesAccounted(call, sent, made, result);
      SentAccounted(turn, answer.body, budgetService.View(), made, result.Listed?);
      failure := FailureFor(result);
    }

    lemma FreshOwn(sent: seq<T.Attempt>, at: T.Moment, scope: B.Scope, l: B.Ledger)
      requires T.FreshIds(sent, at, scope, l)
      ensures T.OwnIds(sent, scope)
    {
    }

    /** One `listVehicles` call with its callback. A page is committed exactly when the
        ledger records the last attempt as a success, and it is the page of the body that
        this attempt delivered. */
    method FetchAndCommit(
        w: Token, x: D.Worker, world: World, k: nat, deadline: int, budget: T.AttemptBudget, ghost scope: B.Scope,
        ghost s0: D.System)
      returns (x': D.Worker, failure: Option<Failure>, exhausted: bool, ghost made: nat)
      requires Since(s0, w) && Local(w, x) && x.phase.Ready? && x.committed < x.limit && x.query in checkpoints
      requires k < |world.turns| && FreshTurn(world, k, scope, budgetService.View())
      modifies this, budgetService, budget
      ensures Since(s0, w) && Local(w, x') && x.query in checkpoints && !x'.phase.Finished?
      ensures made <= 3 && made <= Max(0, old(budget.remaining))
      ensures budget.remaining == old(budget.remaining) - made && budget.used == old(budget.used) + made
      ensures B.Reaches(budgetService.config, old(budgetService.View()), budgetService.View(),
        TurnScope(world, k, scope))
      ensures Accounted(budgetService.View(), world.turns[k].attempts, made, failure.None?)
      ensures FailsWith(world.turns[k], made, deadline, x.query, failure)
      ensures PageTaken(x, x', failure, exhausted)
      ensures failure.None? ==> CommitsDelivered(world.turns[k], made, deadline, x.query, x.cursor)
      ensures old(clock) <= clock
    {
      hide Led, Accounted, B.Reaches, T.FreshIds, FailsBy, Sent;
      var turn := world.turns[k];
      var now, _ := OthersAct(turn.fetch, w, s0);
      var answer := AnswerTo(x.query, checkpoints[x.query].cycle, x.cursor);
      ghost var cycle := checkpoints[x.query].cycle;
      var config := T.FetchConfig(world.retries, world.initialDelay, world.maxDelay, deadline);
      x', failure, exhausted, made := CallPage(w, x, turn, config, answer, now, budget, TurnScope(world, k, scope), s0);
      assert FailsBy(turn, made, deadline, platform, AnswerTo(x.query, cycle, x.cursor), x.cursor, failure);
      if failure.None? {
        SuccessDelivers(turn, made, deadline, answer, x.cursor);
        assert Delivers(turn, made, deadline, AnswerTo(x.query, cycle, x.cursor));
      }
    }

    lemma SuccessDelivers(turn: PageTurn, n: nat, deadline: int, answer: PageAnswer, c: Option<Cursor>)
      requires n <= |turn.attempts| && FailsBy(turn, n, deadline, platform, answer, c, None)
      ensures Delivers(turn, n, deadline, answer)
    {
    }

    /** The last attempt delivered the provider's answer. */
    ghost predicate Delivers(turn: PageTurn, n: nat, deadline: int, answer: PageAnswer) {
      && 1 <= n <= |turn.attempts| && n - 1 in turn.served && answer.valid
      && T.FateOf(deadline, Sent(turn, answer.body)[n - 1]) == T.Answered(answer.body)
    }

    /** The page last committed is that of the body the last attempt delivered. */
    ghost predicate CommitsDelivered(turn: PageTurn, n: nat, deadline: int, q: D.Query, c: Option<Cursor>)
      requires q in checkpoints
      reads this
    {
      exists cycle: nat ::
        Delivers(turn, n, deadline, AnswerTo(q, cycle, c)) && LastPage(q, AnswerTo(q, cycle, c).page)
    }

    /** One pass of the page loop, entered in the run's books. */
    method NextPage(
        w: Token, x: D.Worker, world: World, deadline: int, budget: T.AttemptBudget, ghost scope: B.Scope,
        ghost l0: B.Ledger, ghost made: seq<nat>, ghost s0: D.System)
      returns (x': D.Worker, failure: Option<Failure>, exhausted: bool, ghost made': seq<nat>)
      requires Since(s0, w) && Local(w, x) && x.phase.Ready? && x.committed < x.limit <= 2 && x.query in checkpoints
      requires Open(world, made, x.committed, scope, budgetService.config, l0, budgetService.View())
      modifies this, budgetService, budget
      ensures Since(s0, w) && Local(w, x') && x.query in checkpoints && !x'.phase.Finished?
      ensures PageTaken(x, x', failure, exhausted)
      ensures Books(world, made', x'.committed, budgetService.View())
      ensures B.Reaches(budgetService.config, l0, budgetService.View(), scope)
      ensures failure.None? ==> Open(world, made', x'.committed, scope, budgetService.config, l0, budgetService.View())
      ensures |made'| == 2 && Sum(made') == Sum(made) + made'[x.committed]
      ensures made'[x.committed] <= |world.turns[x.committed].attempts|
      ensures made'[x.committed] <= Max(0, old(budget.remaining))
      ensures budget.remaining == old(budget.remaining) - made'[x.committed]
      ensures budget.used == old(budget.used) + made'[x.committed]
      ensures FailsWith(world.turns[x.committed], made'[x.committed], deadline, x.query, failure)
      ensures old(clock) <= clock
    {
      ghost var l1 := budgetService.View();
      ghost var spent;
      x', failure, exhausted, spent := FetchAndCommit(w, x, world, x.committed, deadline, budget, scope, s0);
      TurnDone(world, made, x.committed, spent, failure.None?, scope, budgetService.config, l0, l1,
        budgetService.View());
      made' := made[x.committed := spent];
    }

    /** The last clock reading of a page loop that committed `pages` pages, besides the
        readings of its transactions. */
    function LastReading(world: World, pages: nat): int
      requires pages <= |world.turns|
    {
      if pages == 0 then Max(world.head, world.end)
      else Max(LastReading(world, pages - 1), world.turns[pages - 1].next)
    }

    /** The loop's reading, the end included, is the latest of the clock and those readings. */
    predicate ReadTo(world: World, pages: nat, clock: int, reading: int)
      requires pages <= |world.turns|
    {
      Max(reading, world.end) == Max(clock, LastReading(world, pages)) && reading >= world.head
    }

    lemma FirstReading(world: World, clock: int)
      ensures ReadTo(world, 0, clock, Max(clock, world.head))
    {
    }

    lemma NextReading(world: World, pages: nat, clock: int, reading: int, clock': int)
      requires pages < |world.turns| && ReadTo(world, pages, clock, reading) && clock <= clock'
      ensures ReadTo(world, pages + 1, clock', Max(Max(reading, clock'), world.turns[pages].next))
    {
    }

    lemma FinalReading(world: World, pages: nat, clock: int, reading: int)
      requires pages <= |world.turns| && ReadTo(world, pages, clock, reading)
      ensures Max(reading, world.end) == Max(clock, LastReading(world, pages)) && reading >= world.head
    {
    }

    /** The page loop. */
    method PageLoop(
        w: Token, x0: D.Worker, world: World, deadline: int, budget: T.AttemptBudget, ghost scope: B.Scope,
        ghost s0: D.System)
      returns (x: D.Worker, reason: Reason, failure: Option<Failure>, exhausted: bool, ghost made: seq<nat>)
      requires Since(s0, w) && Local(w, x0) && x0.phase.Ready? && x0.committed == 0 && 1 <= x0.limit <= 2
      requires x0.query in checkpoints && FreshWorld(world, scope, budgetService.View())
      modifies this, budgetService, budget
      ensures Since(s0, w) && Local(w, x) && !x.phase.Finished? && Books(world, made, x.committed, budgetService.View())
      ensures B.Reaches(budgetService.config, old(budgetService.View()), budgetService.View(), scope)
      ensures Paid(budget.remaining, budget.used, old(budget.remaining), old(budget.used), made)
      ensures x.committed <= x0.limit && x.query == x0.query && x.fence == x0.fence
      ensures failure.None? ==> LoopReason(reason, x, x0.limit, budget.remaining)
      ensures exhausted <==> failure.None? && reason.Exhausted?
      ensures FailsAt(world, made, x.committed, deadline, x0.query, failure)
      ensures world.head >= deadline ==> failure.None? && reason.DeadlineExceeded? && made == [0, 0]
      ensures old(clock) <= clock
      ensures failure.None? ==>
        (reason.DeadlineExceeded? <==> !exhausted && deadline <= Max(clock, LastReading(world, x.committed)))
    {
      hide Led, Accounted, FreshTurn, FailsWith, B.Reaches, LastReading, ReadTo;
      ghost var l0 := budgetService.View();
      B.ReachesSelf(budgetService.config, l0, scope);
      FirstReading(world, clock);
      x, reason, failure, exhausted, made := x0, Completed, None, false, [0, 0];
      var reading := Max(clock, world.head);
      FreshBooks(world, scope, l0);
      while x.committed < x.limit && reading < deadline
        invariant Since(s0, w) && Local(w, x) && x.phase.Ready? && x.query in checkpoints
        invariant x.limit == x0.limit && x.query == x0.query && x.fence == x0.fence && x.committed <= x.limit
        invariant failure.None? && reason.Completed? && !exhausted
        invariant Open(world, made, x.committed, scope, budgetService.config, l0, budgetService.View())
        invariant Paid(budget.remaining, budget.used, old(budget.remaining), old(budget.used), made)
        invariant ReadTo(world, x.committed, clock, reading) && (world.head >= deadline ==> made == [0, 0])
        invariant old(clock) <= clock && reading >= world.head
        decreases x.limit - x.committed
      {
        if budget.remaining <= 0 {
          reason := TickAttemptCap;
          break;
        }
        ghost var before := clock;
        x, failure, exhausted, made := NextPage(w, x, world, deadline, budget, scope, l0, made, s0);
        if failure.Some? {
          return;
        }
        if exhausted {
          reason := Exhausted;
          break;
        }
        NextReading(world, x.committed - 1, before, reading, clock);
        reading := Max(Max(reading, clock), world.turns[x.committed - 1].next);
        FinalReading(world, x.committed, clock, reading);
      }
      if !exhausted {
        FinalReading(world, x.committed, clock, reading);
      }
      assert x.committed < 2 ==> FreshTurn(world, x.committed, scope, budgetService.View());
      if Max(reading, world.end) >= deadline && !exhausted {
        reason := DeadlineExceeded;
      }
    }

    /** The checkpoint is new or in the middle of a cycle, and is read undisturbed. */
    ghost predicate ReadsOpenCycle(s: D.System, q: D.Query, world: World) {
      && !world.readFails && world.read.others == []
      && (q in s.checkpoints ==> s.checkpoints[q].exhaustedAt.None? && s.checkpoints[q].cycleStartedAt.Some?)
    }

    /** The checkpoint was exhausted, and its next sweep is not due at `now`. */
    predicate Resting(cp: D.Checkpoint, now: int) {
      cp.exhaustedAt.Some? && cp.nextDueAt.Some? && now < cp.nextDueAt.value
    }

    /** What opening a checkpoint that was read as `cp` at `now` leaves: an exhausted one is
        restarted from no page and the null cursor, one without a start is started, and any
        other is gone on with. `quiet` says that no other actor came between. */
    ghost predicate Opened(x: D.Worker, cp: D.Checkpoint, now: int, quiet: bool)
      reads this
    {
      && x.query in checkpoints && x.cursor == checkpoints[x.query].cursor
      && if cp.exhaustedAt.Some? then
           && x.cursor.None? && x.cycleStart == now && checkpoints[x.query].exhaustedAt.None?
           && checkpoints[x.query].pages == [] && checkpoints[x.query].cycleStartedAt == Some(now)
           && (quiet ==> checkpoints[x.query].cycle == cp.cycle + 1)
         else if cp.cycleStartedAt.None? then
           x.cycleStart == now && (quiet ==> checkpoints[x.query] == cp.(cycleStartedAt := Some(now)))
         else checkpoints[x.query] == cp && x.cycleStart == cp.cycleStartedAt.value
    }

    /** Reads the checkpoint and opens it for the page loop. No request is made and nothing
        is spent here. */
    method OpenSweep(w: Token, x0: D.Worker, world: World, ghost s0: D.System)
      returns (x: D.Worker, rests: bool, failure: Option<Failure>, read: bool, ghost cp: D.Checkpoint, ghost now: int)
      requires Since(s0, w) && Local(w, x0) && x0.phase.Claimed?
      modifies this
      ensures Since(s0, w) && Local(w, x) && !x.phase.Finished?
      ensures x == x0.(phase := x.phase, readAt := x.readAt, cursor := x.cursor, cycleStart := x.cycleStart)
      ensures read <==> !world.readFails
      ensures !read ==> failure == Some(Other) && !rests
      ensures read ==> (rests <==> Resting(cp, now))
      ensures read && failure.Some? ==> failure == Some(Lease) && !rests
      ensures failure.None? && !rests ==> x.phase.Ready? && Opened(x, cp, now, world.start.others == [])
      ensures read && world.read.others == [] ==>
        && now == Max(old(clock), world.read.at)
        && cp == (if x.query in old(checkpoints) then old(checkpoints)[x.query]
                  else D.Checkpoint(None, Some(now), None, None, 0, []))
        && (rests ==> checkpoints == old(checkpoints))
        && (cp.exhaustedAt.None? && cp.cycleStartedAt.Some? ==> failure.None? && !rests)
      ensures old(clock) <= clock
    {
      failure, rests, read, now := None, false, false, clock;
      cp := D.Checkpoint(None, None, None, None, 0, []);
      if world.readFails {
        return x0, false, Some(Other), false, cp, now;
      }
      var row, at := ReadCheckpoint(w, x0, world.read, s0);
      read, cp, now := true, row, at;
      x := x0.(readAt := at, phase := D.PhaseAfterRead(row, at), cursor := row.cursor,
               cycleStart := if row.cycleStartedAt.Some? then row.cycleStartedAt.value else at);
      if x.phase.Ending? {
        rests := true;
        return;
      }
      if !x.phase.Ready? {
        if world.startFails {
          failure := Some(Lease);
          return;
        }
        x := OpenCycle(w, x, world.start, s0);
        if x.phase.Ending? {
          failure := Some(Lease);
        }
      }
    }

    /** Opens the checkpoint and runs the page loop: the protected part of a run. */
    method Sweep(
        w: Token, x0: D.Worker, world: World, deadline: int, budget: T.AttemptBudget, ghost scope: B.Scope,
        ghost s0: D.System)
      returns (x: D.Worker, reason: Reason, failure: Option<Failure>, exhausted: bool, read: bool, ghost made: seq<nat>)
      requires Since(s0, w) && Local(w, x0) && x0.phase.Claimed? && x0.committed == 0 && 1 <= x0.limit <= 2
      requires FreshWorld(world, scope, budgetService.View())
      modifies this, budgetService, budget
      ensures Since(s0, w) && Local(w, x) && !x.phase.Finished? && Books(world, made, x.committed, budgetService.View())
      ensures B.Reaches(budgetService.config, old(budgetService.View()), budgetService.View(), scope)
      ensures Paid(budget.remaining, budget.used, old(budget.remaining), old(budget.used), made)
      ensures x.committed <= x0.limit && x.fence == x0.fence
      ensures failure.None? ==> reason.NotDue? || LoopReason(reason, x, x0.limit, budget.remaining)
      ensures exhausted <==> failure.None? && (reason.Exhausted? || reason.NotDue?)
      ensures failure.None? && reason.NotDue? ==> made == [0, 0] && x.committed == 0
      ensures FailsAt(world, made, x.committed, deadline, x0.query, failure)
      ensures world.head >= deadline ==> made == [0, 0]
      ensures world.head >= deadline && ReadsOpenCycle(old(View()), x0.query, world) ==>
        failure.None? && reason.DeadlineExceeded?
      ensures old(clock) <= clock
      ensures failure.None? ==>
        (reason.DeadlineExceeded? <==> !exhausted && deadline <= Max(clock, LastReading(world, x.committed)))
      ensures !world.readFails && world.read.others == [] ==>
        && (failure.None? && reason.NotDue? <==>
              RestsAt(old(checkpoints), x0.query, Max(old(clock), world.read.at)))
        && (failure.None? && reason.NotDue? ==> checkpoints == old(checkpoints))
    {
      hide Led, Accounted, FreshTurn, B.Reaches, Opened;
      made := [0, 0];
      FreshBooks(world, scope, budgetService.View());
      B.ReachesSelf(budgetService.config, budgetService.View(), scope);
      reason, exhausted := Completed, false;
      var rests;
      ghost var cp, now;
      x, rests, failure, read, cp, now := OpenSweep(w, x0, world, s0);
      if failure.Some? {
        return;
      }
      if rests {
        reason, exhausted := NotDue, true;
        return;
      }
      assert x.query in checkpoints by { OpenedKnown(x, cp, now, world.start.others == []); }
      x, reason, failure, exhausted, made := PageLoop(w, x, world, deadline, budget, scope, s0);
    }

    lemma OpenedKnown(x: D.Worker, cp: D.Checkpoint, now: int, quiet: bool)
      requires Opened(x, cp, now, quiet)
      ensures x.query in checkpoints
    {
    }

    /** The stored checkpoint of the query rests at `now`. */
    predicate RestsAt(checkpoints: map<D.Query, D.Checkpoint>, q: D.Query, now: int) {
      q in checkpoints && Resting(checkpoints[q], now)
    }

    /** An exception is reported with its class, unless the allowance is used up. */
    ghost predicate Explained(world: World, made: seq<nat>, deadline: int, q: D.Query, r: RunResult, remaining: int)
      requires |world.turns| == |made| == 2
    {
      && (r.error == Some(Lease) ==> r.reason.LeaseLost?)
      && (r.error == Some(Other) ==> r.reason.PersistenceError?)
      && (r.error.Some? && r.error.value.Malformed? ==> r.reason.ProviderError?)
      && (remaining > 0 ==> FailsAt(world, made, r.pages, deadline, q, r.error))
      && (remaining <= 0 && r.pages < 2 && made[r.pages] > 0 ==> r.reason.TickAttemptCap?)
    }

    /** A run reports its deadline only if a clock reading had reached it, and that it is
        complete only if none had. */
    ghost predicate Timely(world: World, deadline: int, r: RunResult)
      requires r.pages <= |world.turns|
      reads this
    {
      && (r.reason.DeadlineExceeded? ==> deadline <= Max(clock, LastReading(world, r.pages)))
      && (r.reason.Completed? ==> LastReading(world, r.pages) < deadline)
    }

    /** How many pages a run commits at most. */
    function PageLimit(maxPages: Option<int>): nat {
      if maxPages.None? then 2 else if maxPages.value <= 1 then 1 else 2
    }

    /** When a claim that nobody comes before takes effect. */
    function ClaimedAt(clock: int, world: World): int { Max(clock, world.claim.at) }

    predicate Held(lease: L.Lease, now: int) { lease.owner != "" && now <= lease.expiresAt }

    /** The run has a key, and its claim is granted with nobody coming before it. */
    predicate ClaimsFree(s: D.System, world: World) {
      && world.hasKey && !world.claimFails && world.claim.others == []
      && !Held(s.lease, Min(world.claim.checked, ClaimedAt(s.clock, world)))
    }

    /** The lease is free, nobody interferes, and the clock is past the deadline before the
        first request. */
    ghost predicate StartsLate(s: D.System, q: D.Query, world: World) {
      && world.hasKey && !world.claimFails && world.claim.others == [] && s.lease.owner == L.NO_OWNER
      && ReadsOpenCycle(s, q, world) && world.head >= Max(s.clock, world.claim.at) + world.timeout
    }

    /** A whole run. Whatever others do meanwhile, it moves the rows only by the steps
        of `Discovery`, ends finished and, unless the release fails, without the lease,
        settles every attempt it reserved, and records exactly one success per committed page. */
    method RunDiscovery(
        w: Token, q: D.Query, maxPages: Option<int>, budget: T.AttemptBudget, world: World, ghost scope: B.Scope)
      returns (r: RunResult, ghost made: seq<nat>, ghost deadline: int)
      requires w != L.NO_OWNER && Unused(View(), w) && FreshWorld(world, scope, budgetService.View())
      modifies this, budgetService, budget
      ensures Since(old(View()), w) && (lease.owner == w ==> world.releaseFails)
      ensures w in workers ==> workers[w].phase.Finished? && workers[w].committed == r.pages
      ensures Books(world, made, r.pages, budgetService.View()) && r.attempts == Sum(made)
      ensures B.Reaches(budgetService.config, old(budgetService.View()), budgetService.View(), scope)
      ensures budget.remaining == old(budget.remaining) - r.attempts && budget.used == old(budget.used) + r.attempts
      ensures Honest(r, old(budget.remaining))
      ensures Explained(world, made, deadline, q, r, budget.remaining)
      ensures deadline >= old(clock) + world.timeout && (world.head >= deadline ==> r.attempts == 0)
      ensures world.hasKey && !world.claimFails && world.claim.others == [] ==>
        deadline == ClaimedAt(old(clock), world) + world.timeout
      ensures Timely(world, deadline, r)
      ensures r.exhausted <==> r.reason.Exhausted? || r.reason.NotDue?
      ensures r.pages <= PageLimit(maxPages) && (r.reason.Completed? ==> r.pages == PageLimit(maxPages))
      ensures r.reason.ConfigurationError? <==> !world.hasKey
      ensures world.hasKey && (world.claimFails || world.claim.others == []) ==>
        (r.reason.LeaseHeld? <==>
          world.claimFails || Held(old(lease), Min(world.claim.checked, ClaimedAt(old(clock), world))))
      ensures r.reason.NotDue? ==> r.attempts == 0 && r.pages == 0
      ensures ClaimsFree(old(View()), world) && !world.readFails && world.read.others == [] ==>
        && (r.reason.NotDue? <==> RestsAt(old(checkpoints), q, Max(ClaimedAt(old(clock), world), world.read.at)))
        && (r.reason.NotDue? && world.release.others == [] ==> checkpoints == old(checkpoints))
      ensures StartsLate(old(View()), q, world) ==> r.attempts == 0 && r.reason.DeadlineExceeded?
    {
      hide Led, Accounted, FreshTurn, FailsWith, B.Reaches;
      ghost var s0 := View();
      LedSelf(provider, tokens, s0, w);
      FreshBooks(world, scope, budgetService.View());
      B.ReachesSelf(budgetService.config, budgetService.View(), scope);
      if !world.hasKey {
        return RunResult(ConfigurationError, 0, false, 0, None), [0, 0], clock + world.timeout;
      }
      if world.claimFails {
        return RunResult(LeaseHeld, 0, false, 0, None), [0, 0], clock + world.timeout;
      }
      var limit := if maxPages.Some? then maxPages.value else 2;
      var fence := Claim(w, q, limit, world.ttl, world.claim, s0);
      deadline := clock + world.timeout;
      if fence.None? {
        return RunResult(LeaseHeld, 0, false, 0, None), [0, 0], deadline;
      }
      r, made := RunClaimed(w, workers[w], budget, world, scope, s0);
    }

    /** Ends the protected part: names the exception, if there was one, and notes it. */
    method Settle(
        w: Token, x0: D.Worker, reason0: Reason, failure: Option<Failure>, read: bool, remaining: int, note: Moment,
        ghost s0: D.System)
      returns (x: D.Worker, reason: Reason, error: Option<Failure>)
      requires Since(s0, w) && Local(w, x0) && !x0.phase.Finished?
      modifies this
      ensures Since(s0, w) && Local(w, x) && x == x0.(phase := D.Ending)
      ensures reason == if failure.None? then reason0 else if remaining <= 0 then TickAttemptCap
        else ErrorReason(failure.value)
      ensures error == if remaining <= 0 then None else failure
      ensures failure.None? ==> checkpoints == old(checkpoints)
      ensures old(clock) <= clock
    {
      x := Stop(w, x0, s0);
      reason, error := reason0, None;
      if failure.Some? {
        if remaining <= 0 {
          reason := TickAttemptCap;
        } else {
          reason, error := ErrorReason(failure.value), failure;
          if !failure.value.Lease? && read {
            NoteError(w, x, note, s0);
          }
        }
      }
    }

    /** The run from its granted claim to the release. */
    method RunClaimed(
        w: Token, x0: D.Worker, budget: T.AttemptBudget, world: World, ghost scope: B.Scope, ghost s0: D.System)
      returns (r: RunResult, ghost made: seq<nat>)
      requires Since(s0, w) && Local(w, x0) && x0.phase.Claimed? && x0.committed == 0 && 1 <= x0.limit <= 2
      requires FreshWorld(world, scope, budgetService.View())
      modifies this, budgetService, budget
      ensures Since(s0, w) && (lease.owner == w ==> world.releaseFails)
      ensures w in workers && workers[w].phase.Finished? && workers[w].committed == r.pages
      ensures Books(world, made, r.pages, budgetService.View()) && r.attempts == Sum(made)
      ensures B.Reaches(budgetService.config, old(budgetService.View()), budgetService.View(), scope)
      ensures budget.remaining == old(budget.remaining) - r.attempts && budget.used == old(budget.used) + r.attempts
      ensures Honest(r, old(budget.remaining))
      ensures Explained(world, made, old(clock) + world.timeout, x0.query, r, budget.remaining)
      ensures r.exhausted <==> r.reason.Exhausted? || r.reason.NotDue?
      ensures r.pages <= x0.limit && (r.reason.Completed? ==> r.pages == x0.limit)
      ensures !r.reason.LeaseHeld? && !r.reason.ConfigurationError?
      ensures r.reason.NotDue? ==> r.attempts == 0 && r.pages == 0
      ensures !world.readFails && world.read.others == [] ==>
        && (r.reason.NotDue? <==> RestsAt(old(checkpoints), x0.query, Max(old(clock), world.read.at)))
        && (r.reason.NotDue? && world.release.others == [] ==> checkpoints == old(checkpoints))
      ensures Timely(world, old(clock) + world.timeout, r)
      ensures world.head >= old(clock) + world.timeout ==> r.attempts == 0
      ensures world.head >= old(clock) + world.timeout && ReadsOpenCycle(old(View()), x0.query, world) ==>
        r.reason.DeadlineExceeded?
    {
      hide Led, Accounted, FreshTurn, FailsWith, FreshWorld, B.Reaches;
      var usedBefore := budget.used;
      var deadline := clock + world.timeout;
      var x, reason, failure, exhausted, read, error;
      x, reason, failure, exhausted, read, made := Sweep(w, x0, world, deadline, budget, scope, s0);
      PagesPaid(world, made, x.committed, budgetService.View());
      x, reason, error := Settle(w, x, reason, failure, read, budget.remaining, world.note, s0);
      Release(w, x, world.release, world.releaseFails, s0);
      r := RunResult(reason, x.committed, exhausted, budget.used - usedBefore, error);
    }
  }
}
