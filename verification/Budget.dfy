/** The shared request ledger: one monthly quota for both providers, charged by
    reservations that are later confirmed and completed. */
module Budget {
  import opened Wrappers
  import opened Calendar
  import L = Leases

  type Provider = L.Provider
  type AttemptId = string

  datatype Mode = Routine | Manual

  datatype FailureKind = Timeout | RateLimit | Server | Network | Client | ClientContract | Persistence | LeaseLost

  datatype Status = Allocated | Confirmed | Succeeded | Failed

  datatype Reservation = Reservation(
    month: nat, provider: Provider, mode: Mode, status: Status, failure: Option<FailureKind>,
    createdAt: nat, confirmedAt: Option<nat>)

  /** A counter row; `charged` is its allocated column and `failures[k]` is the column for kind `k`. */
  datatype Counters = Counters(charged: nat, confirmed: nat, succeeded: nat, failures: multiset<FailureKind>)

  datatype Ledger = Ledger(
    global: map<nat, Counters>, breakdown: map<(Provider, nat), Counters>, reservations: map<AttemptId, Reservation>)

  datatype Config = Config(budget: nat, reserve: nat)

  datatype Op =
    | Reserve(id: AttemptId, provider: Provider, mode: Mode, now: nat)
    | Confirm(id: AttemptId, now: nat)
    | Complete(id: AttemptId, success: bool, kind: Option<FailureKind>, now: nat)

  datatype Denial = MonthlyCap | DailyCapReached

  datatype Reply = Allowed(status: Status) | Denied(reason: Denial) | Done

  const NO_COUNTS := Counters(0, 0, 0, multiset{})

  const EMPTY := Ledger(map[], map[], map[])

  // ---------------------------------------------------------------------------
  // Counting reservations
  // ---------------------------------------------------------------------------

  datatype What =
    | Every | WasConfirmed | Success | FailedAs(kind: FailureKind) | FailedKnown | FailedUnknown | Open
    | RoutineOnly | RoutineSince(start: nat)

  predicate Fits(r: Reservation, month: nat, p: Option<Provider>, what: What) {
    && r.month == month && (p.Some? ==> r.provider == p.value)
    && match what
       case Every => true
       case WasConfirmed => r.confirmedAt.Some?
       case Success => r.status.Succeeded?
       case FailedAs(kind) => r.status.Failed? && r.failure == Some(kind)
       case FailedKnown => r.status.Failed? && r.failure.Some?
       case FailedUnknown => r.status.Failed? && r.failure.None?
       case Open => r.status.Allocated? || r.status.Confirmed?
       case RoutineOnly => r.mode.Routine?
       case RoutineSince(start) => r.mode.Routine? && r.createdAt >= start
  }

  function Matching(rs: map<AttemptId, Reservation>, month: nat, p: Option<Provider>, what: What): set<AttemptId> {
    set id | id in rs && Fits(rs[id], month, p, what)
  }

  function Count(rs: map<AttemptId, Reservation>, month: nat, p: Option<Provider>, what: What): nat {
    |Matching(rs, month, p, what)|
  }

  function One(b: bool): nat { if b then 1 else 0 }

  lemma CardinalityMove(a: set<AttemptId>, b: set<AttemptId>, x: AttemptId)
    requires a - {x} == b - {x}
    ensures |a| - One(x in a) == |b| - One(x in b)
  {
    assert x in a ==> a == (a - {x}) + {x};
    assert x !in a ==> a == a - {x};
    assert x in b ==> b == (b - {x}) + {x};
    assert x !in b ==> b == b - {x};
  }

  lemma CountAfterWrite(
      rs: map<AttemptId, Reservation>, id: AttemptId, r: Reservation, month: nat, p: Option<Provider>, what: What)
    ensures Count(rs[id := r], month, p, what)
         == Count(rs, month, p, what) - One(id in rs && Fits(rs[id], month, p, what)) + One(Fits(r, month, p, what))
  {
    CardinalityMove(Matching(rs, month, p, what), Matching(rs[id := r], month, p, what), id);
  }

  // ---------------------------------------------------------------------------
  // One transaction
  // ---------------------------------------------------------------------------

  function Global(l: Ledger, month: nat): Counters { if month in l.global then l.global[month] else NO_COUNTS }

  function Share(l: Ledger, p: Provider, month: nat): Counters {
    if (p, month) in l.breakdown then l.breakdown[(p, month)] else NO_COUNTS
  }

  function Available(c: Config, l: Ledger, now: nat): nat {
    Max(0, c.budget - c.reserve - Global(l, MonthOf(now)).charged)
  }

  function DailyUsed(l: Ledger, now: nat): nat {
    Count(l.reservations, MonthOf(now), None, RoutineSince(DayStart(now)))
  }

  function Spread(pool: nat, now: nat): nat { pool / RemainingUtcDays(now) }

  /** Routine capacity not yet used before today, spread over the days left. */
  function DailyCap(c: Config, l: Ledger, now: nat): nat { Spread(Available(c, l, now) + DailyUsed(l, now), now) }

  function Verdict(c: Config, l: Ledger, mode: Mode, now: nat): Option<Denial> {
    var limit := if mode.Manual? then c.budget else c.budget - c.reserve;
    if Global(l, MonthOf(now)).charged >= limit then Some(MonthlyCap)
    else if mode.Routine? && DailyUsed(l, now) >= DailyCap(c, l, now) then Some(DailyCapReached)
    else None
  }

  /** The column one transition increments. */
  datatype Column = ChargedColumn | ConfirmedColumn | SucceededColumn | FailureColumn(kind: FailureKind)

  function Increment(n: Counters, column: Column): Counters {
    match column
    case ChargedColumn => n.(charged := n.charged + 1)
    case ConfirmedColumn => n.(confirmed := n.confirmed + 1)
    case SucceededColumn => n.(succeeded := n.succeeded + 1)
    case FailureColumn(kind) => n.(failures := n.failures + multiset{kind})
  }

  /** Increments the month's global row and the provider's share of it. */
  function Bump(l: Ledger, r: Reservation, column: Column): Ledger {
    l.(global := l.global[r.month := Increment(Global(l, r.month), column)],
       breakdown := l.breakdown[(r.provider, r.month) := Increment(Share(l, r.provider, r.month), column)])
  }

  function Write(l: Ledger, id: AttemptId, r: Reservation): Ledger { l.(reservations := l.reservations[id := r]) }

  function Charge(l: Ledger, id: AttemptId, r: Reservation): Ledger { Write(Bump(l, r, ChargedColumn), id, r) }

  function Confirmation(l: Ledger, id: AttemptId, now: nat): Ledger
    requires id in l.reservations
  {
    var r := l.reservations[id];
    Write(Bump(l, r, ConfirmedColumn), id, r.(status := Confirmed, confirmedAt := Some(now)))
  }

  function Outcome(l: Ledger, id: AttemptId, success: bool, kind: Option<FailureKind>): Ledger
    requires id in l.reservations
  {
    var r := l.reservations[id];
    if success then Write(Bump(l, r, SucceededColumn), id, r.(status := Succeeded, failure := None))
    else if kind.Some? then Write(Bump(l, r, FailureColumn(kind.value)), id, r.(status := Failed, failure := kind))
    else Write(l, id, r.(status := Failed, failure := None))
  }

  predicate CanComplete(r: Reservation, success: bool) {
    r.status.Confirmed? || (!success && r.status.Allocated?)
  }

  function Step(c: Config, l: Ledger, op: Op): (Ledger, Reply) {
    match op
    case Reserve(id, provider, mode, now) =>
      if id in l.reservations then (l, Allowed(l.reservations[id].status))
      else
        (match Verdict(c, l, mode, now)
         case Some(reason) => (l, Denied(reason))
         case None =>
           (Charge(l, id, Reservation(MonthOf(now), provider, mode, Allocated, None, now, None)), Allowed(Allocated)))
    case Confirm(id, now) =>
      if id in l.reservations && l.reservations[id].status.Allocated?
      then (Confirmation(l, id, now), Done) else (l, Done)
    case Complete(id, success, kind, now) =>
      if id in l.reservations && CanComplete(l.reservations[id], success)
      then (Outcome(l, id, success, kind), Done) else (l, Done)
  }

  function Run(c: Config, l: Ledger, ops: seq<Op>): Ledger {
    if ops == [] then l else Step(c, Run(c, l, ops[..|ops| - 1]), ops[|ops| - 1]).0
  }

  lemma {:induction false} RunConcat(c: Config, l: Ledger, a: seq<Op>, b: seq<Op>)
    ensures Run(c, Run(c, l, a), b) == Run(c, l, a + b)
  {
    if b == [] {
      assert a + b == a;
    } else {
      RunConcat(c, l, a, b[..|b| - 1]);
      assert (a + b)[..|a + b| - 1] == a + b[..|b| - 1];
    }
  }

  // ---------------------------------------------------------------------------
  // Conservation
  // ---------------------------------------------------------------------------

  ghost predicate Matches(n: Counters, rs: map<AttemptId, Reservation>, month: nat, p: Option<Provider>) {
    && n.charged == Count(rs, month, p, Every)
    && n.confirmed == Count(rs, month, p, WasConfirmed)
    && n.succeeded == Count(rs, month, p, Success)
    && |n.failures| == Count(rs, month, p, FailedKnown)
    && (forall k :: n.failures[k] == Count(rs, month, p, FailedAs(k)))
  }

  /** A counter row: the month's global one, or one provider's share. */
  function Row(l: Ledger, month: nat, p: Option<Provider>): Counters {
    if p.None? then Global(l, month) else Share(l, p.value, month)
  }

  predicate WellKept(r: Reservation) {
    && (r.status.Allocated? ==> r.confirmedAt.None?)
    && (r.status.Confirmed? || r.status.Succeeded? ==> r.confirmedAt.Some?)
  }

  /** Every counter of every month equals the number of matching reservations. */
  ghost predicate Conserved(l: Ledger) {
    && (forall m, p :: Matches(Row(l, m, p), l.reservations, m, p))
    && (forall id :: id in l.reservations ==> WellKept(l.reservations[id]))
  }

  function Gain(
      rs: map<AttemptId, Reservation>, id: AttemptId, r: Reservation, month: nat, p: Option<Provider>,
      what: What): int
  {
    One(Fits(r, month, p, what)) - One(id in rs && Fits(rs[id], month, p, what))
  }

  /** The counts an increment of a column stands for. */
  predicate Counts(column: Column, what: What) {
    match what
    case Every => column.ChargedColumn?
    case WasConfirmed => column.ConfirmedColumn?
    case Success => column.SucceededColumn?
    case FailedAs(k) => column == FailureColumn(k)
    case FailedKnown => column.FailureColumn?
    case _ => false
  }

  predicate IsCounter(what: What) {
    what.Every? || what.WasConfirmed? || what.Success? || what.FailedAs? || what.FailedKnown?
  }

  /** Writing a reservation while incrementing the column it newly counts for keeps a
      counter row equal to its counts. */
  lemma IncrementMatches(
      n: Counters, column: Column, rs: map<AttemptId, Reservation>, id: AttemptId, r: Reservation, m: nat,
      p: Option<Provider>)
    requires Matches(n, rs, m, p)
    requires forall what :: IsCounter(what) ==>
      Gain(rs, id, r, m, p, what) == One(Fits(r, m, p, Every) && Counts(column, what))
    ensures Matches(if Fits(r, m, p, Every) then Increment(n, column) else n, rs[id := r], m, p)
  {
    var n' := if Fits(r, m, p, Every) then Increment(n, column) else n;
    GainIsDifference(rs, id, r, m, p, Every);
    GainIsDifference(rs, id, r, m, p, WasConfirmed);
    GainIsDifference(rs, id, r, m, p, Success);
    GainIsDifference(rs, id, r, m, p, FailedKnown);
    forall k ensures n'.failures[k] == Count(rs[id := r], m, p, FailedAs(k)) {
      GainIsDifference(rs, id, r, m, p, FailedAs(k));
    }
  }

  lemma GainIsDifference(
      rs: map<AttemptId, Reservation>, id: AttemptId, r: Reservation, m: nat, p: Option<Provider>, what: What)
    ensures Count(rs[id := r], m, p, what) == Count(rs, m, p, what) + Gain(rs, id, r, m, p, what)
  {
    CountAfterWrite(rs, id, r, m, p, what);
  }

  /** What one transition does to any single count. */
  ghost predicate Transition(l: Ledger, id: AttemptId, r: Reservation, column: Column) {
    forall m, p, what :: IsCounter(what) ==>
      Gain(l.reservations, id, r, m, p, what) == One(Fits(r, m, p, Every) && Counts(column, what))
  }

  lemma BumpRow(l: Ledger, id: AttemptId, r: Reservation, column: Column, m: nat, p: Option<Provider>)
    ensures Row(Write(Bump(l, r, column), id, r), m, p)
         == if Fits(r, m, p, Every) then Increment(Row(l, m, p), column) else Row(l, m, p)
  {
  }

  lemma BumpConserves(l: Ledger, id: AttemptId, r: Reservation, column: Column)
    requires Conserved(l) && WellKept(r) && Transition(l, id, r, column)
    ensures Conserved(Write(Bump(l, r, column), id, r))
  {
    var l' := Write(Bump(l, r, column), id, r);
    forall m, p ensures Matches(Row(l', m, p), l'.reservations, m, p) {
      BumpRow(l, id, r, column, m, p);
      assert Matches(Row(l, m, p), l.reservations, m, p);
      IncrementMatches(Row(l, m, p), column, l.reservations, id, r, m, p);
    }
  }

  /** A failure reported without a kind is counted in no column. */
  lemma SilentFailureConserves(l: Ledger, id: AttemptId)
    requires Conserved(l) && id in l.reservations && CanComplete(l.reservations[id], false)
    ensures Conserved(Outcome(l, id, false, None))
  {
    var l' := Outcome(l, id, false, None);
    var r := l'.reservations[id];
    forall m, p ensures Matches(Row(l', m, p), l'.reservations, m, p) {
      assert Row(l', m, p) == Row(l, m, p);
      GainIsDifference(l.reservations, id, r, m, p, Every);
      GainIsDifference(l.reservations, id, r, m, p, WasConfirmed);
      GainIsDifference(l.reservations, id, r, m, p, Success);
      GainIsDifference(l.reservations, id, r, m, p, FailedKnown);
      forall k ensures Row(l', m, p).failures[k] == Count(l'.reservations, m, p, FailedAs(k)) {
        GainIsDifference(l.reservations, id, r, m, p, FailedAs(k));
      }
    }
    assert WellKept(l.reservations[id]);
  }

  lemma StepConserves(c: Config, l: Ledger, op: Op)
    requires Conserved(l)
    ensures Conserved(Step(c, l, op).0)
  {
    match op
    case Reserve(id, provider, mode, now) =>
      if id !in l.reservations && Verdict(c, l, mode, now).None? {
        var r := Reservation(MonthOf(now), provider, mode, Allocated, None, now, None);
        assert Transition(l, id, r, ChargedColumn);
        BumpConserves(l, id, r, ChargedColumn);
      }
    case Confirm(id, now) =>
      if id in l.reservations && l.reservations[id].status.Allocated? {
        var r := l.reservations[id];
        assert WellKept(r);
        var r' := r.(status := Confirmed, confirmedAt := Some(now));
        assert Transition(l, id, r', ConfirmedColumn);
        BumpConserves(l, id, r', ConfirmedColumn);
      }
    case Complete(id, success, kind, now) =>
      if id in l.reservations && CanComplete(l.reservations[id], success) {
        var r := l.reservations[id];
        assert WellKept(r);
        if success {
          var r' := r.(status := Succeeded, failure := None);
          assert Transition(l, id, r', SucceededColumn);
          BumpConserves(l, id, r', SucceededColumn);
        } else if kind.Some? {
          var r' := r.(status := Failed, failure := kind);
          assert Transition(l, id, r', FailureColumn(kind.value));
          BumpConserves(l, id, r', FailureColumn(kind.value));
        } else {
          SilentFailureConserves(l, id);
        }
      }
  }

  lemma {:induction false} RunConserves(c: Config, l: Ledger, ops: seq<Op>)
    requires Conserved(l)
    ensures Conserved(Run(c, l, ops))
  {
    if ops != [] {
      RunConserves(c, l, ops[..|ops| - 1]);
      StepConserves(c, Run(c, l, ops[..|ops| - 1]), ops[|ops| - 1]);
    }
  }

  lemma CountSplits(rs: map<AttemptId, Reservation>, m: nat, what: What)
    ensures Count(rs, m, None, what) == Count(rs, m, Some(L.Copart), what) + Count(rs, m, Some(L.Iaai), what)
  {
    var a, b := Matching(rs, m, Some(L.Copart), what), Matching(rs, m, Some(L.Iaai), what);
    assert a !! b && a + b == Matching(rs, m, None, what);
  }

  /** Every reservation of a month is in exactly one of four states. */
  lemma EveryState(rs: map<AttemptId, Reservation>, m: nat, p: Option<Provider>)
    ensures Matching(rs, m, p, Open) + Matching(rs, m, p, Success) + Matching(rs, m, p, FailedKnown)
         + Matching(rs, m, p, FailedUnknown) == Matching(rs, m, p, Every)
  {
  }

  lemma CountByState(rs: map<AttemptId, Reservation>, m: nat, p: Option<Provider>)
    ensures Count(rs, m, p, Every)
         == Count(rs, m, p, Open) + Count(rs, m, p, Success)
            + Count(rs, m, p, FailedKnown) + Count(rs, m, p, FailedUnknown)
  {
    var a, b := Matching(rs, m, p, Open), Matching(rs, m, p, Success);
    var c, d := Matching(rs, m, p, FailedKnown), Matching(rs, m, p, FailedUnknown);
    assert a !! b && (a + b) !! c && (a + b + c) !! d;
    EveryState(rs, m, p);
  }

  /** After any sequence of calls in any order, with any repetition, the monthly
      allocation is the number of reservations, the sum of the two providers' shares,
      and the sum of what is still open, succeeded and failed. */
  lemma LedgerConservation(c: Config, ops: seq<Op>, m: nat)
    ensures var l := Run(c, EMPTY, ops); var g := Global(l, m);
      && g.charged == Count(l.reservations, m, None, Every)
      && g.charged == Share(l, L.Copart, m).charged + Share(l, L.Iaai, m).charged
      && g.confirmed == Count(l.reservations, m, None, WasConfirmed)
      && g.confirmed == Share(l, L.Copart, m).confirmed + Share(l, L.Iaai, m).confirmed
      && g.succeeded == Count(l.reservations, m, None, Success)
      && g.succeeded == Share(l, L.Copart, m).succeeded + Share(l, L.Iaai, m).succeeded
      && (forall k :: g.failures[k] == Count(l.reservations, m, None, FailedAs(k))
                      == Share(l, L.Copart, m).failures[k] + Share(l, L.Iaai, m).failures[k])
      && g.charged == Count(l.reservations, m, None, Open) + g.succeeded + |g.failures|
        + Count(l.reservations, m, None, FailedUnknown)
  {
    var l := Run(c, EMPTY, ops);
    EmptyConserved();
    RunConserves(c, EMPTY, ops);
    var rs := l.reservations;
    assert Matches(Row(l, m, None), rs, m, None);
    assert Matches(Row(l, m, Some(L.Copart)), rs, m, Some(L.Copart));
    assert Matches(Row(l, m, Some(L.Iaai)), rs, m, Some(L.Iaai));
    CountSplits(rs, m, Every);
    CountSplits(rs, m, WasConfirmed);
    CountSplits(rs, m, Success);
    forall k ensures Global(l, m).failures[k] == Count(rs, m, None, FailedAs(k))
                     == Share(l, L.Copart, m).failures[k] + Share(l, L.Iaai, m).failures[k]
    {
      CountSplits(rs, m, FailedAs(k));
    }
    CountByState(rs, m, None);
  }

  lemma EmptyConserved()
    ensures Conserved(EMPTY)
  {
    forall m, p ensures Matches(Row(EMPTY, m, p), EMPTY.reservations, m, p) {
      assert Matching(EMPTY.reservations, m, p, Every) == {};
      assert Matching(EMPTY.reservations, m, p, WasConfirmed) == {};
      assert Matching(EMPTY.reservations, m, p, Success) == {};
      assert Matching(EMPTY.reservations, m, p, FailedKnown) == {};
      forall k ensures Count(EMPTY.reservations, m, p, FailedAs(k)) == 0 {
        assert Matching(EMPTY.reservations, m, p, FailedAs(k)) == {};
      }
    }
  }

  lemma {:induction false} ReservedStays(c: Config, l: Ledger, ops: seq<Op>, id: AttemptId)
    requires id in l.reservations
    ensures id in Run(c, l, ops).reservations
  {
    if ops != [] {
      ReservedStays(c, l, ops[..|ops| - 1], id);
    }
  }

  /** A reservation repeated under an id that was ever granted, at any later time and with
      any arguments, is allowed and leaves the whole further course as it would have been. */
  lemma RepeatedIdChargesNothing(
      c: Config, l: Ledger, granted: seq<Op>, between: seq<Op>, later: seq<Op>, id: AttemptId, p: Provider, mode: Mode,
      now: nat)
    requires id in Run(c, l, granted).reservations
    ensures Step(c, Run(c, l, granted + between), Reserve(id, p, mode, now)).1.Allowed?
    ensures Run(c, l, granted + between + [Reserve(id, p, mode, now)] + later) == Run(c, l, granted + between + later)
  {
    var before, again := granted + between, Reserve(id, p, mode, now);
    RunConcat(c, l, granted, between);
    ReservedStays(c, Run(c, l, granted), between, id);
    assert (before + [again])[..|before|] == before;
    RunConcat(c, l, before + [again], later);
    RunConcat(c, l, before, later);
  }

  predicate Settled(s: Status) { s.Succeeded? || s.Failed? }

  /** How far an attempt has come; no call ever takes it back. */
  function Progress(s: Status): nat {
    match s
    case Allocated => 0
    case Confirmed => 1
    case _ => 2
  }

  lemma StatusOnlyAdvances(c: Config, l: Ledger, op: Op, id: AttemptId)
    requires id in l.reservations
    ensures var l' := Step(c, l, op).0;
      && id in l'.reservations
      && Progress(l.reservations[id].status) <= Progress(l'.reservations[id].status)
      && (Settled(l.reservations[id].status) || op.id != id ==> l'.reservations[id] == l.reservations[id])
      && (l'.reservations[id].status.Succeeded? && !l.reservations[id].status.Succeeded? ==>
          l.reservations[id].status.Confirmed?)
  {
  }

  // ---------------------------------------------------------------------------
  // Monthly caps
  // ---------------------------------------------------------------------------

  ghost predicate WithinCaps(c: Config, l: Ledger) {
    forall m :: MonthWithinCaps(c, l, m)
  }

  predicate MonthWithinCaps(c: Config, l: Ledger, m: nat) {
    && Global(l, m).charged <= c.budget
    && Count(l.reservations, m, None, RoutineOnly) <= Max(0, c.budget - c.reserve)
  }

  lemma RoutineAtMostEvery(rs: map<AttemptId, Reservation>, m: nat)
    ensures Count(rs, m, None, RoutineOnly) <= Count(rs, m, None, Every)
  {
    Subset(Matching(rs, m, None, RoutineOnly), Matching(rs, m, None, Every));
  }

  lemma Subset(a: set<AttemptId>, b: set<AttemptId>)
    requires a <= b
    ensures |a| <= |b|
  {
    assert b == a + (b - a);
  }

  predicate Charges(c: Config, l: Ledger, op: Op) {
    op.Reserve? && op.id !in l.reservations && Verdict(c, l, op.mode, op.now).None?
  }

  predicate SameAttempt(r: Reservation, r': Reservation) {
    r'.month == r.month && r'.provider == r.provider && r'.mode == r.mode && r'.createdAt == r.createdAt
  }

  /** A call that charges adds one reservation and one to its month; any other call
      changes no allocation and at most one attempt's status. */
  ghost predicate Shape(c: Config, l: Ledger, op: Op, m: nat) {
    var l' := Step(c, l, op).0;
    if Charges(c, l, op) then
      && l'.reservations
        == l.reservations[op.id := Reservation(MonthOf(op.now), op.provider, op.mode, Allocated, None, op.now, None)]
      && Global(l', m).charged == Global(l, m).charged + One(m == MonthOf(op.now))
    else
      && Global(l', m).charged == Global(l, m).charged
      && (l'.reservations == l.reservations
          || (op.id in l.reservations && op.id in l'.reservations
              && l'.reservations == l.reservations[op.id := l'.reservations[op.id]]
              && SameAttempt(l.reservations[op.id], l'.reservations[op.id])))
  }

  lemma ReserveShape(c: Config, l: Ledger, op: Op, m: nat)
    requires op.Reserve?
    ensures Shape(c, l, op, m)
  {
  }

  lemma ConfirmShape(c: Config, l: Ledger, op: Op, m: nat)
    requires op.Confirm?
    ensures Shape(c, l, op, m)
  {
  }

  lemma CompleteShape(c: Config, l: Ledger, op: Op, m: nat)
    requires op.Complete?
    ensures Shape(c, l, op, m)
  {
  }

  lemma StepShape(c: Config, l: Ledger, op: Op, m: nat)
    ensures Shape(c, l, op, m)
  {
    match op
    case Reserve(_, _, _, _) => ReserveShape(c, l, op, m);
    case Confirm(_, _) => ConfirmShape(c, l, op, m);
    case Complete(_, _, _, _) => CompleteShape(c, l, op, m);
  }

  lemma StepCountsModes(c: Config, l: Ledger, op: Op, m: nat, what: What)
    requires what.RoutineOnly? || what.RoutineSince?
    ensures Count(Step(c, l, op).0.reservations, m, None, what)
         == Count(l.reservations, m, None, what)
            + One(Charges(c, l, op) && MonthOf(op.now) == m && op.mode.Routine?
              && (what.RoutineSince? ==> op.now >= what.start))
  {
    StepShape(c, l, op, m);
    var l' := Step(c, l, op).0;
    if l'.reservations != l.reservations {
      CountAfterWrite(l.reservations, op.id, l'.reservations[op.id], m, None, what);
    }
  }

  lemma StepKeepsCaps(c: Config, l: Ledger, op: Op)
    requires Conserved(l) && WithinCaps(c, l)
    ensures WithinCaps(c, Step(c, l, op).0)
  {
    forall m ensures MonthWithinCaps(c, Step(c, l, op).0, m) {
      assert MonthWithinCaps(c, l, m) && Matches(Row(l, m, None), l.reservations, m, None);
      RoutineAtMostEvery(l.reservations, m);
      StepShape(c, l, op, m);
      StepCountsModes(c, l, op, m, RoutineOnly);
    }
  }

  /** In every month the allocation stays within the budget, and routine reservations
      within the budget less the reserve, whatever manual requests do. */
  lemma {:induction false} MonthlyCapsHold(c: Config, ops: seq<Op>)
    ensures WithinCaps(c, Run(c, EMPTY, ops)) && Conserved(Run(c, EMPTY, ops))
  {
    EmptyConserved();
    if ops == [] {
      forall m ensures MonthWithinCaps(c, EMPTY, m) {
        assert Matching(EMPTY.reservations, m, None, RoutineOnly) == {};
      }
    } else {
      MonthlyCapsHold(c, ops[..|ops| - 1]);
      StepKeepsCaps(c, Run(c, EMPTY, ops[..|ops| - 1]), ops[|ops| - 1]);
      StepConserves(c, Run(c, EMPTY, ops[..|ops| - 1]), ops[|ops| - 1]);
    }
  }

  // ---------------------------------------------------------------------------
  // The daily routine cap
  // ---------------------------------------------------------------------------

  predicate ManualCharge(c: Config, l: Ledger, op: Op) { Charges(c, l, op) && op.mode.Manual? }

  /** What one call does to today's figures. */
  lemma StepSameDay(c: Config, l: Ledger, op: Op, t: nat)
    requires DayOf(op.now) == DayOf(t)
    ensures var l' := Step(c, l, op).0;
      && DailyUsed(l', t) == DailyUsed(l, t) + One(Charges(c, l, op) && op.mode.Routine?)
      && (DailyUsed(l', t) > DailyUsed(l, t) ==> DailyUsed(l, t) < DailyCap(c, l, t))
      && (if ManualCharge(c, l, op)
          then Available(c, l', t) <= Available(c, l, t)
          else Available(c, l', t) + DailyUsed(l', t) == Available(c, l, t) + DailyUsed(l, t))
  {
    SameDaySameMonth(op.now, t);
    StepShape(c, l, op, MonthOf(t));
    StepCountsModes(c, l, op, MonthOf(t), RoutineSince(DayStart(t)));
  }

  lemma FloorAtLeast(q: nat, n: int, a: nat)
    requires n >= 1 && q * n <= a
    ensures q <= a / n
  {
    if a / n + 1 <= q {
      MulMonotone(a / n + 1, q, n);
    }
  }

  lemma MulMonotone(a: nat, b: nat, n: nat)
    requires a <= b
    ensures a * n <= b * n && n * a <= n * b
  {
  }

  lemma DivMonotone(a: nat, b: nat, n: int)
    requires a <= b && n >= 1
    ensures a / n <= b / n
  {
    FloorAtLeast(a / n, n, b);
  }

  /** Within a UTC day the cap never rises, and only a manual charge can lower it. */
  lemma CapWithinDay(c: Config, l: Ledger, op: Op, t: nat)
    requires DayOf(op.now) == DayOf(t)
    ensures DailyCap(c, Step(c, l, op).0, t) <= DailyCap(c, l, t)
    ensures !ManualCharge(c, l, op) ==> DailyCap(c, Step(c, l, op).0, t) == DailyCap(c, l, t)
  {
    StepSameDay(c, l, op, t);
    RemainingDaysCountToday(t);
    var l' := Step(c, l, op).0;
    DivMonotone(Available(c, l', t) + DailyUsed(l', t), Available(c, l, t) + DailyUsed(l, t), RemainingUtcDays(t));
  }

  /** The cap depends on the day only, not on the instant: midnight counts as the new day. */
  lemma CapConstantInDay(c: Config, l: Ledger, s: nat, t: nat)
    requires DayOf(s) == DayOf(t)
    ensures DailyCap(c, l, s) == DailyCap(c, l, t) && DailyUsed(l, s) == DailyUsed(l, t)
  {
    SameDaySameMonth(s, t);
  }

  predicate InDay(ops: seq<Op>, t: nat) { forall i :: 0 <= i < |ops| ==> DayOf(ops[i].now) == DayOf(t) }

  predicate NoManual(ops: seq<Op>) { forall i :: 0 <= i < |ops| ==> !(ops[i].Reserve? && ops[i].mode.Manual?) }

  /** Over any sequence of calls within one day: the cap never rises, is constant
      without manual requests, and bounds the routine reservations of the day. */
  lemma {:induction false} DayWithinCap(c: Config, l: Ledger, ops: seq<Op>, t: nat)
    requires InDay(ops, t)
    ensures DailyCap(c, Run(c, l, ops), t) <= DailyCap(c, l, t)
    ensures NoManual(ops) ==> DailyCap(c, Run(c, l, ops), t) == DailyCap(c, l, t)
    ensures DailyUsed(Run(c, l, ops), t) <= Max(DailyUsed(l, t), DailyCap(c, l, t))
  {
    if ops != [] {
      var before, op := Run(c, l, ops[..|ops| - 1]), ops[|ops| - 1];
      DayWithinCap(c, l, ops[..|ops| - 1], t);
      CapWithinDay(c, before, op, t);
      StepSameDay(c, before, op, t);
    }
  }

  /** On a day that starts with nothing used, at most floor(available / days left)
      routine attempts are ever granted, even across later manual requests. */
  lemma DayGrantsAtMostShare(c: Config, l: Ledger, ops: seq<Op>, t: nat)
    requires InDay(ops, t) && DailyUsed(l, t) == 0
    ensures DailyUsed(Run(c, l, ops), t) <= Available(c, l, t) / RemainingUtcDays(t)
  {
    DayWithinCap(c, l, ops, t);
  }

  ghost predicate CreatedBy(l: Ledger, t: nat) {
    forall id :: id in l.reservations ==> l.reservations[id].createdAt <= t
  }

  lemma NothingUsedYet(l: Ledger, s: nat, t: nat)
    requires CreatedBy(l, s) && DayOf(s) < DayOf(t)
    ensures DailyUsed(l, t) == 0
  {
    assert (DayOf(s) + 1) * DAY_MS <= DayStart(t);
    assert Matching(l.reservations, MonthOf(t), None, RoutineSince(DayStart(t))) == {};
  }

  /** Today's use is within today's cap, so later days lose nothing. */
  ghost predicate OnBudget(c: Config, l: Ledger, t: nat) {
    CreatedBy(l, t) && DailyUsed(l, t) <= DailyCap(c, l, t)
  }

  /** Time passing within the month, with no call in between, never lowers the cap. */
  lemma CapAcrossDays(c: Config, l: Ledger, s: nat, t: nat)
    requires s <= t && MonthOf(s) == MonthOf(t) && OnBudget(c, l, s)
    ensures OnBudget(c, l, t) && DailyCap(c, l, s) <= DailyCap(c, l, t)
  {
    if DayOf(s) == DayOf(t) {
      CapConstantInDay(c, l, s, t);
    } else {
      LaterDayFewerDays(s, t);
      NothingUsedYet(l, s, t);
      ShareNeverShrinks(Available(c, l, s), DailyUsed(l, s), RemainingUtcDays(s), RemainingUtcDays(t));
    }
  }

  /** Using at most today's share leaves at least that share for each later day. */
  lemma ShareNeverShrinks(available: nat, used: nat, n: int, fewer: int)
    requires 1 <= fewer < n && used <= (available + used) / n
    ensures (available + used) / n <= available / fewer
  {
    var q := (available + used) / n;
    assert q * (n - 1) == q * n - q <= available;
    MulMonotone(fewer, n - 1, q);
    FloorAtLeast(q, fewer, available);
  }

  /** A call that is not manual leaves the cap of its own day as it was. */
  lemma RoutineStepOnBudget(c: Config, l: Ledger, op: Op)
    requires OnBudget(c, l, op.now) && !(op.Reserve? && op.mode.Manual?)
    ensures OnBudget(c, Step(c, l, op).0, op.now)
    ensures DailyCap(c, Step(c, l, op).0, op.now) == DailyCap(c, l, op.now)
  {
    CapWithinDay(c, l, op, op.now);
    StepSameDay(c, l, op, op.now);
    StepShape(c, l, op, 0);
  }

  /** Calls in time order, all in one month and none of them after `to`. */
  predicate Timed(ops: seq<Op>, from: nat, to: nat) {
    if ops == [] then from <= to && MonthOf(from) == MonthOf(to)
    else
      var last := ops[|ops| - 1].now;
      Timed(ops[..|ops| - 1], from, last) && last <= to && MonthOf(last) == MonthOf(to)
  }

  /** Through the rest of a month without manual requests the daily cap never falls,
      so early days cannot starve later ones. */
  lemma {:induction false} CapNeverFalls(c: Config, l: Ledger, ops: seq<Op>, from: nat, to: nat)
    requires Timed(ops, from, to) && NoManual(ops) && OnBudget(c, l, from)
    ensures OnBudget(c, Run(c, l, ops), to)
    ensures DailyCap(c, l, from) <= DailyCap(c, Run(c, l, ops), to)
  {
    if ops == [] {
      CapAcrossDays(c, l, from, to);
    } else {
      var op := ops[|ops| - 1];
      var mid := Run(c, l, ops[..|ops| - 1]);
      CapNeverFalls(c, l, ops[..|ops| - 1], from, op.now);
      RoutineStepOnBudget(c, mid, op);
      CapAcrossDays(c, Step(c, mid, op).0, op.now, to);
    }
  }

  // ---------------------------------------------------------------------------
  // Many callers
  // ---------------------------------------------------------------------------

  /** Limits on the calls considered: ids that none of them uses, and optionally the
      only ids under which routine attempts are reserved and the only UTC day. */
  datatype Scope = Scope(spared: set<AttemptId>, routine: Option<set<AttemptId>>, day: Option<nat>)

  predicate OnDay(scope: Scope, now: nat) { scope.day.Some? ==> DayOf(now) == scope.day.value }

  predicate Permits(scope: Scope, op: Op) {
    && op.id !in scope.spared && OnDay(scope, op.now)
    && (scope.routine.Some? && op.Reserve? && op.mode.Routine? ==> op.id in scope.routine.value)
  }

  predicate Permitted(ops: seq<Op>, scope: Scope) { forall i :: 0 <= i < |ops| ==> Permits(scope, ops[i]) }

  /** From `l` to `l'` by calls within the limits. */
  ghost predicate Reaches(c: Config, l: Ledger, l': Ledger, scope: Scope) {
    exists ops :: Permitted(ops, scope) && l' == Run(c, l, ops)
  }

  lemma ReachesTransitive(c: Config, a: Ledger, b: Ledger, d: Ledger, scope: Scope)
    requires Reaches(c, a, b, scope) && Reaches(c, b, d, scope)
    ensures Reaches(c, a, d, scope)
  {
    var p :| Permitted(p, scope) && b == Run(c, a, p);
    var q :| Permitted(q, scope) && d == Run(c, b, q);
    RunConcat(c, a, p, q);
    assert Permitted(p + q, scope);
  }

  lemma ReachesStep(c: Config, l: Ledger, op: Op, scope: Scope)
    requires Permits(scope, op)
    ensures Reaches(c, l, Step(c, l, op).0, scope)
  {
    assert [op][..0] == [];
    assert Permitted([op], scope) && Run(c, l, [op]) == Step(c, l, op).0;
  }

  lemma ReachesSelf(c: Config, l: Ledger, scope: Scope)
    ensures Reaches(c, l, l, scope)
  {
    assert Permitted([], scope) && Run(c, l, []) == l;
  }

  lemma ReachesWider(c: Config, l: Ledger, l': Ledger, scope: Scope, wider: Scope)
    requires Reaches(c, l, l', scope) && wider.spared <= scope.spared
    requires wider.routine.None? || wider.routine == scope.routine
    requires wider.day.None? || wider.day == scope.day
    ensures Reaches(c, l, l', wider)
  {
    var ops :| Permitted(ops, scope) && l' == Run(c, l, ops);
    assert Permitted(ops, wider);
  }

  /** Whatever was reached so keeps the balance of the books and every spared attempt. */
  lemma ReachesKeeps(c: Config, l: Ledger, l': Ledger, scope: Scope)
    requires Reaches(c, l, l', scope)
    ensures Conserved(l) ==> Conserved(l')
    ensures SameOn(l, l', scope.spared)
  {
    var ops :| Permitted(ops, scope) && l' == Run(c, l, ops);
    assert Foreign(ops, scope.spared);
    ForeignOpsKeep(c, l, ops, scope.spared);
    if Conserved(l) {
      RunConserves(c, l, ops);
    }
  }

  /** Routine attempts that are new in `l'` are under one of these ids. */
  ghost predicate NewRoutineIn(l: Ledger, l': Ledger, ids: set<AttemptId>) {
    && (forall id :: id in l.reservations ==> id in l'.reservations)
    && forall id :: id in l'.reservations ==>
      if id in l.reservations then SameAttempt(l.reservations[id], l'.reservations[id])
      else l'.reservations[id].mode.Routine? ==> id in ids
  }

  lemma StepKeepsAttempts(c: Config, l: Ledger, op: Op)
    ensures forall id :: id in l.reservations ==>
      id in Step(c, l, op).0.reservations && SameAttempt(l.reservations[id], Step(c, l, op).0.reservations[id])
  {
  }

  lemma {:induction false} RunNewRoutine(c: Config, l: Ledger, ops: seq<Op>, scope: Scope)
    requires Permitted(ops, scope) && scope.routine.Some?
    ensures NewRoutineIn(l, Run(c, l, ops), scope.routine.value)
  {
    if ops != [] {
      var before, op := Run(c, l, ops[..|ops| - 1]), ops[|ops| - 1];
      RunNewRoutine(c, l, ops[..|ops| - 1], scope);
      StepShape(c, before, op, 0);
      assert Permits(scope, op);
      StepKeepsAttempts(c, before, op);
    }
  }

  function Fresh(l: Ledger, l': Ledger, ids: set<AttemptId>): set<AttemptId> {
    set id | id in ids && id in l'.reservations && id !in l.reservations
  }

  /** Hence the day's routine use grows by no more than the new ones among them. */
  lemma RoutineGrowth(c: Config, l: Ledger, l': Ledger, scope: Scope, t: nat)
    requires Reaches(c, l, l', scope) && scope.routine.Some?
    ensures DailyUsed(l', t) <= DailyUsed(l, t) + |Fresh(l, l', scope.routine.value)|
  {
    var ops :| Permitted(ops, scope) && l' == Run(c, l, ops);
    RunNewRoutine(c, l, ops, scope);
    var what := RoutineSince(DayStart(t));
    var a, b := Matching(l.reservations, MonthOf(t), None, what), Matching(l'.reservations, MonthOf(t), None, what);
    var f := Fresh(l, l', scope.routine.value);
    Subset(b, a + f);
    assert |a + f| == |a| + |f| - |a * f|;
  }

  /** Calls of one day never raise its cap. */
  lemma ReachesCap(c: Config, l: Ledger, l': Ledger, scope: Scope, t: nat)
    requires Reaches(c, l, l', scope) && scope.day == Some(DayOf(t))
    ensures DailyCap(c, l', t) <= DailyCap(c, l, t)
  {
    var ops :| Permitted(ops, scope) && l' == Run(c, l, ops);
    assert InDay(ops, t);
    DayWithinCap(c, l, ops, t);
  }

  predicate Foreign(ops: seq<Op>, ids: set<AttemptId>) { forall i :: 0 <= i < |ops| ==> ops[i].id !in ids }

  predicate SameOn(l: Ledger, l': Ledger, ids: set<AttemptId>) {
    forall id :: id in ids ==>
      && (id in l.reservations <==> id in l'.reservations)
      && (id in l.reservations ==> l'.reservations[id] == l.reservations[id])
  }

  lemma {:induction false} ForeignOpsKeep(c: Config, l: Ledger, ops: seq<Op>, ids: set<AttemptId>)
    requires Foreign(ops, ids)
    ensures SameOn(l, Run(c, l, ops), ids)
  {
    if ops != [] {
      ForeignOpsKeep(c, l, ops[..|ops| - 1], ids);
    }
  }

  // ---------------------------------------------------------------------------
  // The usage snapshot
  // ---------------------------------------------------------------------------

  datatype BlockReason = DailyBlock | MonthlyBlock | AbsoluteBlock

  datatype Snapshot = Snapshot(
    charged: nat, available: nat, dailyCap: nat, dailyUsed: nat, dailyRemaining: nat,
    routineBlocked: bool, absoluteBlocked: bool, reason: Option<BlockReason>)

  /** What `getUsage` reports agrees with what a new reservation at the same moment
      would get, for both modes. */
  predicate Truthful(c: Config, l: Ledger, now: nat, s: Snapshot) {
    && s.dailyCap == DailyCap(c, l, now) && s.dailyUsed == DailyUsed(l, now)
    && s.dailyRemaining == Max(0, s.dailyCap - s.dailyUsed)
    && s.available == Available(c, l, now) && s.charged == Global(l, MonthOf(now)).charged
    && (s.routineBlocked <==> Verdict(c, l, Routine, now).Some?)
    && (s.absoluteBlocked <==> Verdict(c, l, Manual, now).Some?)
    && (s.reason.Some? <==> s.routineBlocked || s.absoluteBlocked)
    && (s.reason == Some(DailyBlock) <==> Verdict(c, l, Routine, now) == Some(DailyCapReached))
    && (s.reason == Some(AbsoluteBlock) <==> s.absoluteBlocked)
  }

  lemma SnapshotPredictsReserve(c: Config, l: Ledger, now: nat, s: Snapshot, id: AttemptId, p: Provider, mode: Mode)
    requires Truthful(c, l, now, s) && id !in l.reservations
    ensures Step(c, l, Reserve(id, p, mode, now)).1.Allowed?
      <==> !(if mode.Manual? then s.absoluteBlocked else s.routineBlocked)
  {
  }

  // ---------------------------------------------------------------------------
  // What is granted, by count
  // ---------------------------------------------------------------------------

  /** The attempts reserved in the billing month of `now`, in whatever state. */
  function MonthIds(l: Ledger, now: nat): set<AttemptId> {
    set id | id in l.reservations && l.reservations[id].month == MonthOf(now)
  }

  /** The routine ones among them that were reserved since midnight UTC. */
  function TodayIds(l: Ledger, now: nat): set<AttemptId> {
    set id | id in MonthIds(l, now) && l.reservations[id].mode.Routine?
             && l.reservations[id].createdAt >= now / 86_400_000 * 86_400_000
  }

  /** What is left of the month, spread over its days. */
  function FairShare(c: Config, l: Ledger, now: nat): int {
    var left := c.budget - c.reserve - |MonthIds(l, now)|;
    ((if left < 0 then 0 else left) + |TodayIds(l, now)|) / (MonthStartDay(MonthOf(now) + 1) - now / 86_400_000)
  }

  lemma FiguresAreCounts(c: Config, l: Ledger, now: nat)
    requires Conserved(l)
    ensures Global(l, MonthOf(now)).charged == |MonthIds(l, now)|
    ensures DailyUsed(l, now) == |TodayIds(l, now)| && DailyCap(c, l, now) == FairShare(c, l, now)
  {
    var m := MonthOf(now);
    assert Matches(Row(l, m, None), l.reservations, m, None);
    assert Matching(l.reservations, m, None, Every) == MonthIds(l, now);
    assert Matching(l.reservations, m, None, RoutineSince(DayStart(now))) == TodayIds(l, now);
    RemainingDaysCountToday(now);
  }

  /** A new manual attempt is granted exactly while the month's attempts are fewer than the
      budget, and a new routine one exactly while they are fewer than the budget less the
      reserve and today's routine ones fewer than the day's share. */
  lemma GrantedExactly(c: Config, l: Ledger, id: AttemptId, p: Provider, mode: Mode, now: nat)
    requires Conserved(l) && id !in l.reservations
    ensures var (l', reply) := Step(c, l, Reserve(id, p, mode, now));
      && (reply.Allowed? <==>
            if mode.Manual? then |MonthIds(l, now)| < c.budget
            else |MonthIds(l, now)| < c.budget - c.reserve && |TodayIds(l, now)| < FairShare(c, l, now))
      && (reply == Denied(MonthlyCap) <==>
            |MonthIds(l, now)| >= if mode.Manual? then c.budget else c.budget - c.reserve)
      && (!reply.Allowed? ==> l' == l)
      && (reply.Allowed? ==>
            l'.reservations == l.reservations[id := Reservation(MonthOf(now), p, mode, Allocated, None, now, None)])
  {
    FiguresAreCounts(c, l, now);
  }

  /** And the snapshot blocks by the same counts. */
  lemma BlockedExactly(c: Config, l: Ledger, now: nat, s: Snapshot)
    requires Conserved(l) && Truthful(c, l, now, s)
    ensures s.charged == |MonthIds(l, now)| && s.dailyUsed == |TodayIds(l, now)| && s.dailyCap == FairShare(c, l, now)
    ensures s.absoluteBlocked <==> |MonthIds(l, now)| >= c.budget
    ensures s.routineBlocked <==>
      |MonthIds(l, now)| >= c.budget - c.reserve || |TodayIds(l, now)| >= FairShare(c, l, now)
    ensures s.reason == Some(AbsoluteBlock) <==> |MonthIds(l, now)| >= c.budget
    ensures s.reason == Some(MonthlyBlock) <==> c.budget - c.reserve <= |MonthIds(l, now)| < c.budget
    ensures s.reason == Some(DailyBlock) <==>
      |MonthIds(l, now)| < c.budget - c.reserve && |TodayIds(l, now)| >= FairShare(c, l, now)
  {
    FiguresAreCounts(c, l, now);
    if s.reason.Some? {
      assert s.reason.value.DailyBlock? || s.reason.value.MonthlyBlock? || s.reason.value.AbsoluteBlock?;
    }
  }

  /** What confirmation and completion make of an attempt, by the status it has. */
  lemma SettledExactly(c: Config, l: Ledger, op: Op)
    requires op.Confirm? || op.Complete?
    ensures op.id !in l.reservations ==> Step(c, l, op).0 == l
    ensures Step(c, l, op).0.reservations.Keys == l.reservations.Keys
    ensures forall id :: id in l.reservations && id != op.id ==> Step(c, l, op).0.reservations[id] == l.reservations[id]
    ensures op.id in l.reservations ==>
      var r, after := l.reservations[op.id], Step(c, l, op).0.reservations[op.id];
      && (op.Confirm? ==>
            after == if r.status.Allocated? then r.(status := Confirmed, confirmedAt := Some(op.now)) else r)
      && (op.Complete? && op.success ==>
            after == if r.status.Confirmed? then r.(status := Succeeded, failure := None) else r)
      && (op.Complete? && !op.success ==>
            after == if r.status.Allocated? || r.status.Confirmed? then r.(status := Failed, failure := op.kind) else r)
  {
  }

  // ---------------------------------------------------------------------------
  // The service
  // ---------------------------------------------------------------------------

  /** A month's row is created with its first charge; an absent row reads as zeros. */
  class RequestBudgetService {
    const config: Config
    var global: map<nat, Counters>
    var breakdown: map<(Provider, nat), Counters>
    var reservations: map<AttemptId, Reservation>

    constructor (config: Config)
      ensures this.config == config && View() == EMPTY
    {
      this.config := config;
      global, breakdown, reservations := map[], map[], map[];
    }

    ghost function View(): Ledger reads this { Ledger(global, breakdown, reservations) }

    /** The day's figures as both `reserve` and `buildSnapshot` compute them. */
    method RoutineShare(now: nat) returns (charged: nat, available: nat, dailyUsed: nat, dailyCap: nat)
      ensures charged == Global(View(), MonthOf(now)).charged && available == Available(config, View(), now)
      ensures dailyUsed == DailyUsed(View(), now) && dailyCap == DailyCap(config, View(), now)
    {
      var month, start := MonthOf(now), DayStart(now);
      charged := if month in global then global[month].charged else 0;
      available := Max(0, config.budget - config.reserve - charged);
      dailyUsed := |set id | id in reservations && Fits(reservations[id], month, None, RoutineSince(start))|;
      assert dailyUsed == DailyUsed(View(), now);
      dailyCap := Spread(available + dailyUsed, now);
    }

    method BuildSnapshot(now: nat) returns (s: Snapshot)
      ensures Truthful(config, View(), now, s)
    {
      var charged, available, dailyUsed, dailyCap := RoutineShare(now);
      var left := dailyCap as int - dailyUsed as int;
      var dailyRemaining := Max(0, left);
      var reason: Option<BlockReason> := None;
      if dailyRemaining <= 0 { reason := Some(DailyBlock); }
      if charged >= config.budget - config.reserve { reason := Some(MonthlyBlock); }
      if charged >= config.budget { reason := Some(AbsoluteBlock); }
      s := Snapshot(charged, available, dailyCap, dailyUsed, dailyRemaining,
                    charged >= config.budget - config.reserve || dailyRemaining <= 0, charged >= config.budget, reason);
    }

    method AddTo(r: Reservation, column: Column)
      modifies this`global, this`breakdown
      ensures View() == Bump(old(View()), r, column)
    {
      var g := if r.month in global then global[r.month] else NO_COUNTS;
      var s := if (r.provider, r.month) in breakdown then breakdown[(r.provider, r.month)] else NO_COUNTS;
      global := global[r.month := Increment(g, column)];
      breakdown := breakdown[(r.provider, r.month) := Increment(s, column)];
    }

    method Reserve(id: AttemptId, provider: Provider, mode: Mode, now: nat) returns (reply: Reply)
      modifies this
      ensures (View(), reply) == Step(config, old(View()), Op.Reserve(id, provider, mode, now))
    {
      var month := MonthOf(now);
      var current, available, dailyUsed, dailyCap := RoutineShare(now);
      if id in reservations {
        return Allowed(reservations[id].status);
      }
      if current >= (if mode.Manual? then config.budget else config.budget - config.reserve) {
        return Denied(MonthlyCap);
      }
      var left := dailyCap as int - dailyUsed as int;
      if mode.Routine? && Max(0, left) <= 0 {
        return Denied(DailyCapReached);
      }
      var r := Reservation(month, provider, mode, Allocated, None, now, None);
      AddTo(r, ChargedColumn);
      reservations := reservations[id := r];
      reply := Allowed(Allocated);
    }

    method Confirm(id: AttemptId, now: nat)
      modifies this
      ensures View() == Step(config, old(View()), Op.Confirm(id, now)).0
    {
      if id !in reservations || !reservations[id].status.Allocated? {
        return;
      }
      var r := reservations[id];
      reservations := reservations[id := r.(status := Confirmed, confirmedAt := Some(now))];
      AddTo(r, ConfirmedColumn);
    }

    method Complete(id: AttemptId, success: bool, kind: Option<FailureKind>, now: nat)
      modifies this
      ensures View() == Step(config, old(View()), Op.Complete(id, success, kind, now)).0
    {
      if id !in reservations {
        return;
      }
      var r := reservations[id];
      if !(if success then r.status.Confirmed? else r.status.Allocated? || r.status.Confirmed?) {
        return;
      }
      reservations := reservations[id := r.(
        status := if success then Succeeded else Failed, failure := if success then None else kind)];
      if success {
        AddTo(r, SucceededColumn);
      } else if kind.Some? {
        AddTo(r, FailureColumn(kind.value));
      }
    }

    /** What every other caller does meanwhile. */
    method Serve(ops: seq<Op>)
      modifies this
      ensures View() == Run(config, old(View()), ops)
    {
      for i := 0 to |ops|
        invariant View() == Run(config, old(View()), ops[..i])
      {
        assert ops[..i + 1][..i] == ops[..i];
        match ops[i] {
          case Reserve(id, provider, mode, now) => var _ := Reserve(id, provider, mode, now);
          case Confirm(id, now) => Confirm(id, now);
          case Complete(id, success, kind, now) => Complete(id, success, kind, now);
        }
      }
      assert ops[..|ops|] == ops;
    }
  }
}
