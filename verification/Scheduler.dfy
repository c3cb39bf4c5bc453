/** The freshness scheduler's tick: how many attempts it may spend, how it shares them
    between the providers, and why a day of ticks keeps to its pace. */
module Scheduler {
  import opened Wrappers
  import opened Calendar
  import L = Leases
  import B = Budget
  import T = Transport
  import D = Discovery
  import R = DiscoveryRun

  type Provider = L.Provider

  const MAX_TICK_ATTEMPTS: nat := 4
  const MAX_PAGES_PER_RUN: nat := 2

  // ---------------------------------------------------------------------------
  // Pacing
  // ---------------------------------------------------------------------------

  function Elapsed(now: nat): (ms: nat)
    ensures ms < DAY_MS
  {
    now - DayStart(now)
  }

  /** The share of the day's cap that has fallen due. */
  function PacedTarget(cap: nat, now: nat): nat { cap * Elapsed(now) / DAY_MS }

  function TickPages(cap: nat, used: nat, now: nat): nat {
    Min(Min(Max(0, cap - used), Max(0, PacedTarget(cap, now) - used)), MAX_TICK_ATTEMPTS)
  }

  /** A tick may spend the most that the maximum of four, the day's cap and the share of the
      cap that has fallen due by its moment of the day all leave room for. */
  lemma TickPagesIsLargest(cap: nat, used: nat, now: nat)
    ensures var n, due := TickPages(cap, used, now), cap * (now % 86_400_000) / 86_400_000;
      && n <= 4 && (n > 0 ==> used + n <= cap && used + n <= due)
      && (n < 4 ==> used + n + 1 > cap || used + n + 1 > due)
  {
    assert Elapsed(now) == now % 86_400_000;
  }

  lemma TargetMonotone(cap: nat, more: nat, s: nat, t: nat)
    requires cap <= more && DayOf(s) == DayOf(t) && s <= t
    ensures PacedTarget(cap, s) <= PacedTarget(more, t)
  {
    B.MulMonotone(cap, more, Elapsed(s));
    B.MulMonotone(Elapsed(s), Elapsed(t), more);
    B.DivMonotone(cap * Elapsed(s), more * Elapsed(t), DAY_MS);
  }

  lemma TargetWithinCap(cap: nat, now: nat)
    ensures PacedTarget(cap, now) <= cap
  {
    B.MulMonotone(Elapsed(now), DAY_MS, cap);
    B.DivMonotone(cap * Elapsed(now), cap * DAY_MS, DAY_MS);
  }

  function DayScope(now: nat): B.Scope { B.Scope({}, None, Some(DayOf(now))) }

  /** What a tick at `at` does to the ledger: calls of that day, and no more new routine
      attempts than its own reading of the pace allows. */
  ghost predicate TickMoves(c: B.Config, l: B.Ledger, l': B.Ledger, at: nat) {
    && B.Reaches(c, l, l', DayScope(at))
    && B.DailyUsed(l', at) <= B.DailyUsed(l, at) + TickPages(B.DailyCap(c, l, at), B.DailyUsed(l, at), at)
  }

  /** What happens between ticks of a day: anything but new routine attempts. */
  ghost predicate QuietMoves(c: B.Config, l: B.Ledger, l': B.Ledger, day: nat) {
    B.Reaches(c, l, l', B.Scope({}, Some({}), Some(day)))
  }

  datatype DayTick = DayTick(at: nat, before: B.Ledger, after: B.Ledger)

  /** Ticks of one day in time order, the only source of routine attempts. */
  ghost predicate DayOfTicks(c: B.Config, l0: B.Ledger, ticks: seq<DayTick>, day: nat) {
    && (forall i :: 0 <= i < |ticks| ==>
          && DayOf(ticks[i].at) == day && TickMoves(c, ticks[i].before, ticks[i].after, ticks[i].at)
          && QuietMoves(c, if i == 0 then l0 else ticks[i - 1].after, ticks[i].before, day))
    && (forall i :: 0 < i < |ticks| ==> ticks[i - 1].at <= ticks[i].at)
  }

  lemma QuietKeeps(c: B.Config, l: B.Ledger, l': B.Ledger, t: nat)
    requires QuietMoves(c, l, l', DayOf(t))
    ensures B.DailyUsed(l', t) <= B.DailyUsed(l, t) && B.DailyCap(c, l', t) <= B.DailyCap(c, l, t)
  {
    var scope := B.Scope({}, Some({}), Some(DayOf(t)));
    B.RoutineGrowth(c, l, l', scope, t);
    assert B.Fresh(l, l', {}) == {};
    B.ReachesCap(c, l, l', scope, t);
  }

  lemma TickStaysOnPace(cap: nat, cap0: nat, used: nat, at: nat)
    requires cap <= cap0 && used <= PacedTarget(cap0, at)
    ensures used + TickPages(cap, used, at) <= PacedTarget(cap0, at)
  {
    TargetMonotone(cap, cap0, at, at);
  }

  /** After every tick of the day, routine use is within the share of the day's cap that
      has fallen due, hence within the cap, and the tick added at most four. Manual
      requests may come in between: they can only lower the caps of later ticks. */
  lemma {:induction false} Pacing(c: B.Config, l0: B.Ledger, ticks: seq<DayTick>, day: nat, i: nat)
    requires DayOfTicks(c, l0, ticks, day) && i < |ticks| && B.DailyUsed(l0, ticks[0].at) == 0
    ensures B.DailyCap(c, ticks[i].before, ticks[i].at) <= B.DailyCap(c, l0, ticks[i].at)
    ensures B.DailyCap(c, ticks[i].after, ticks[i].at) <= B.DailyCap(c, l0, ticks[i].at)
    ensures B.DailyUsed(ticks[i].after, ticks[i].at) <= PacedTarget(B.DailyCap(c, l0, ticks[i].at), ticks[i].at)
    ensures PacedTarget(B.DailyCap(c, l0, ticks[i].at), ticks[i].at) <= B.DailyCap(c, l0, ticks[i].at)
    ensures B.DailyUsed(ticks[i].after, ticks[i].at) <= B.DailyUsed(ticks[i].before, ticks[i].at) + MAX_TICK_ATTEMPTS
  {
    var at, before, after := ticks[i].at, ticks[i].before, ticks[i].after;
    var cap0 := B.DailyCap(c, l0, at);
    if i == 0 {
      QuietKeeps(c, l0, before, at);
    } else {
      var prev := ticks[i - 1];
      Pacing(c, l0, ticks, day, i - 1);
      QuietKeeps(c, prev.after, before, at);
      B.CapConstantInDay(c, prev.after, prev.at, at);
      B.CapConstantInDay(c, l0, prev.at, at);
      TargetMonotone(cap0, cap0, prev.at, at);
    }
    B.ReachesCap(c, before, after, DayScope(at), at);
    TickStaysOnPace(B.DailyCap(c, before, at), cap0, B.DailyUsed(before, at), at);
    TargetWithinCap(cap0, at);
  }

  // ---------------------------------------------------------------------------
  // Ticks that overlap
  // ---------------------------------------------------------------------------

  /** What a tick does to the ledger while others overlap it: besides its own attempts,
      routine ones are reserved only by its peers, and its own are no more than it was
      granted by the ledger it began with. */
  ghost predicate TickShare(
      c: B.Config, l: B.Ledger, l': B.Ledger, at: nat, own: set<B.AttemptId>, peers: set<B.AttemptId>)
  {
    && B.Reaches(c, l, l', B.Scope({}, Some(own + peers), Some(DayOf(at))))
    && |B.Fresh(l, l', own)| <= Pages(c, l, at)
  }

  /** A tick without peers is one of the ticks of a paced day. */
  lemma AloneOnPace(c: B.Config, l: B.Ledger, l': B.Ledger, at: nat, own: set<B.AttemptId>)
    requires TickShare(c, l, l', at, own, {})
    ensures TickMoves(c, l, l', at)
  {
    var scope := B.Scope({}, Some(own + {}), Some(DayOf(at)));
    assert own + {} == own;
    B.RoutineGrowth(c, l, l', scope, at);
    B.ReachesWider(c, l, l', scope, DayScope(at));
  }

  /** The attempt ids of all the ticks. */
  function Union(ticks: seq<set<B.AttemptId>>): set<B.AttemptId> {
    if ticks == [] then {} else Union(ticks[..|ticks| - 1]) + ticks[|ticks| - 1]
  }

  /** Ticks of several replicas that have all read the ledger `l`: each keeps to the
      pages it was granted then, and to its own attempt ids. */
  ghost predicate OverlapMoves(c: B.Config, l: B.Ledger, l': B.Ledger, at: nat, ticks: seq<set<B.AttemptId>>) {
    && B.Reaches(c, l, l', B.Scope({}, Some(Union(ticks)), Some(DayOf(at))))
    && forall k :: 0 <= k < |ticks| ==> |B.Fresh(l, l', ticks[k])| <= Pages(c, l, at)
  }

  /** What a tick that reads `l` may spend. */
  function Pages(c: B.Config, l: B.Ledger, at: nat): nat { TickPages(B.DailyCap(c, l, at), B.DailyUsed(l, at), at) }

  lemma FreshSplits(l: B.Ledger, l': B.Ledger, a: set<B.AttemptId>, b: set<B.AttemptId>)
    ensures |B.Fresh(l, l', a + b)| <= |B.Fresh(l, l', a)| + |B.Fresh(l, l', b)|
  {
    assert B.Fresh(l, l', a + b) == B.Fresh(l, l', a) + B.Fresh(l, l', b);
  }

  lemma OneMoreTick(n: nat, pages: nat)
    requires n >= 1
    ensures n * pages == (n - 1) * pages + pages
  {
  }

  lemma {:induction false} FreshOfUnion(l: B.Ledger, l': B.Ledger, ticks: seq<set<B.AttemptId>>, pages: nat)
    requires forall k :: 0 <= k < |ticks| ==> |B.Fresh(l, l', ticks[k])| <= pages
    ensures |B.Fresh(l, l', Union(ticks))| <= |ticks| * pages
  {
    if ticks == [] {
      assert B.Fresh(l, l', Union(ticks)) == {};
    } else {
      var init, last := ticks[..|ticks| - 1], ticks[|ticks| - 1];
      FreshOfUnion(l, l', init, pages);
      FreshSplits(l, l', Union(init), last);
      OneMoreTick(|ticks|, pages);
    }
  }

  /** Together `n` such ticks add at most `n` times what each was granted. */
  lemma OverlapBound(c: B.Config, l: B.Ledger, l': B.Ledger, at: nat, ticks: seq<set<B.AttemptId>>)
    requires OverlapMoves(c, l, l', at, ticks)
    ensures B.DailyUsed(l', at) <= B.DailyUsed(l, at) + |ticks| * Pages(c, l, at)
  {
    B.RoutineGrowth(c, l, l', B.Scope({}, Some(Union(ticks)), Some(DayOf(at))), at);
    FreshOfUnion(l, l', ticks, Pages(c, l, at));
  }

  predicate Disjoint(ticks: seq<set<B.AttemptId>>) { forall j, k :: 0 <= j < k < |ticks| ==> ticks[j] !! ticks[k] }

  /** Ticks that begin with the same ledger and end at `ends`, each the others' peer; after
      its end the others carry on to `l'`. */
  ghost predicate OverlappingTicks(
      c: B.Config, l: B.Ledger, ends: seq<B.Ledger>, l': B.Ledger, at: nat, ticks: seq<set<B.AttemptId>>)
  {
    && |ends| == |ticks| > 0 && Disjoint(ticks)
    && forall k :: 0 <= k < |ticks| ==>
      && TickShare(c, l, ends[k], at, ticks[k], Union(ticks) - ticks[k])
      && B.Reaches(c, ends[k], l', B.Scope(ticks[k], Some(Union(ticks)), Some(DayOf(at))))
  }

  lemma {:induction false} InUnion(ticks: seq<set<B.AttemptId>>, k: nat)
    requires k < |ticks|
    ensures ticks[k] <= Union(ticks)
    decreases |ticks|
  {
    if k < |ticks| - 1 {
      InUnion(ticks[..|ticks| - 1], k);
    }
  }

  lemma ShareOfEnd(
      c: B.Config, l: B.Ledger, end: B.Ledger, l': B.Ledger, at: nat, own: set<B.AttemptId>, all: set<B.AttemptId>)
    requires own <= all && TickShare(c, l, end, at, own, all - own)
    requires B.Reaches(c, end, l', B.Scope(own, Some(all), Some(DayOf(at))))
    ensures B.Reaches(c, l, l', B.Scope({}, Some(all), Some(DayOf(at))))
    ensures |B.Fresh(l, l', own)| <= Pages(c, l, at)
  {
    var after, day := B.Scope(own, Some(all), Some(DayOf(at))), B.Scope({}, Some(all), Some(DayOf(at)));
    assert own + (all - own) == all;
    B.ReachesKeeps(c, end, l', after);
    B.ReachesWider(c, end, l', after, day);
    B.ReachesTransitive(c, l, end, l', day);
    assert B.Fresh(l, l', own) == B.Fresh(l, end, own);
  }

  /** So what such ticks do together is bounded by the readings of each. */
  lemma OverlapFromTicks(
      c: B.Config, l: B.Ledger, ends: seq<B.Ledger>, l': B.Ledger, at: nat, ticks: seq<set<B.AttemptId>>)
    requires OverlappingTicks(c, l, ends, l', at, ticks)
    ensures OverlapMoves(c, l, l', at, ticks)
  {
    forall k | 0 <= k < |ticks|
      ensures |B.Fresh(l, l', ticks[k])| <= Pages(c, l, at)
      ensures B.Reaches(c, l, l', B.Scope({}, Some(Union(ticks)), Some(DayOf(at))))
    {
      InUnion(ticks, k);
      ShareOfEnd(c, l, ends[k], l', at, ticks[k], Union(ticks));
    }
    assert |B.Fresh(l, l', ticks[0])| <= Pages(c, l, at);
  }

  /** Together `n` overlapping ticks add at most `n` times what one of them was granted. */
  lemma OverlappingTicksBound(
      c: B.Config, l: B.Ledger, ends: seq<B.Ledger>, l': B.Ledger, at: nat, ticks: seq<set<B.AttemptId>>)
    requires OverlappingTicks(c, l, ends, l', at, ticks)
    ensures B.DailyUsed(l', at) <= B.DailyUsed(l, at) + |ticks| * Pages(c, l, at)
  {
    OverlapFromTicks(c, l, ends, l', at, ticks);
    OverlapBound(c, l, l', at, ticks);
  }

  /** Since `l0` exactly these ids were charged, and the day's cap is as it was. */
  ghost predicate Holds(c: B.Config, l0: B.Ledger, l: B.Ledger, t: nat, ids: seq<B.AttemptId>) {
    && B.DailyUsed(l, t) == B.DailyUsed(l0, t) + |ids| && B.DailyCap(c, l, t) == B.DailyCap(c, l0, t)
    && (forall id :: id in l.reservations ==> id in l0.reservations || id in ids)
  }

  lemma QuotientAtMost(a: nat, n: int)
    requires n >= 1
    ensures a / n <= a
  {
    B.MulMonotone(1, n, a / n);
  }

  /** While the day's cap is not used up the month has room. */
  lemma RoomInMonth(c: B.Config, l: B.Ledger, t: nat)
    requires B.DailyUsed(l, t) < B.DailyCap(c, l, t)
    ensures B.Verdict(c, l, B.Routine, t).None?
  {
    RemainingDaysCountToday(t);
    QuotientAtMost(B.Available(c, l, t) + B.DailyUsed(l, t), RemainingUtcDays(t));
  }

  lemma OneMoreGranted(c: B.Config, l0: B.Ledger, l: B.Ledger, t: nat, ids: seq<B.AttemptId>, id: B.AttemptId)
    requires Holds(c, l0, l, t, ids) && id !in ids && id !in l0.reservations
    requires B.DailyUsed(l0, t) + |ids| < B.DailyCap(c, l0, t)
    ensures Holds(c, l0, B.Step(c, l, B.Reserve(id, L.Copart, B.Routine, t)).0, t, ids + [id])
  {
    var op := B.Reserve(id, L.Copart, B.Routine, t);
    RoomInMonth(c, l, t);
    B.StepSameDay(c, l, op, t);
    B.CapWithinDay(c, l, op, t);
  }

  /** Routine reservations at one moment, one for each id. */
  function Reservations(ids: seq<B.AttemptId>, t: nat): (ops: seq<B.Op>)
    ensures |ops| == |ids|
  {
    if ids == [] then [] else Reservations(ids[..|ids| - 1], t) + [B.Reserve(ids[|ids| - 1], L.Copart, B.Routine, t)]
  }

  predicate NewIds(l: B.Ledger, ids: seq<B.AttemptId>) {
    && (forall i, j :: 0 <= i < j < |ids| ==> ids[i] != ids[j])
    && (forall i :: 0 <= i < |ids| ==> ids[i] !in l.reservations)
  }

  /** All of them are granted while the cap has room. */
  lemma {:induction false} AllGranted(c: B.Config, l: B.Ledger, ids: seq<B.AttemptId>, t: nat)
    requires NewIds(l, ids) && B.DailyUsed(l, t) + |ids| <= B.DailyCap(c, l, t)
    ensures Holds(c, l, B.Run(c, l, Reservations(ids, t)), t, ids)
  {
    hide B.DailyUsed, B.DailyCap;
    if ids != [] {
      var init, id := ids[..|ids| - 1], ids[|ids| - 1];
      AllGranted(c, l, init, t);
      OneMoreGranted(c, l, B.Run(c, l, Reservations(init, t)), t, init, id);
      assert ids == init + [id];
      assert Reservations(ids, t)[..|ids| - 1] == Reservations(init, t);
    }
  }

  lemma {:induction false} ReservationsConcat(a: seq<B.AttemptId>, b: seq<B.AttemptId>, t: nat)
    ensures Reservations(a + b, t) == Reservations(a, t) + Reservations(b, t)
  {
    if b == [] {
      assert a + b == a;
    } else {
      assert (a + b)[..|a + b| - 1] == a + b[..|b| - 1];
      ReservationsConcat(a, b[..|b| - 1], t);
    }
  }

  lemma {:induction false} ReservationsPermitted(ids: seq<B.AttemptId>, t: nat, scope: B.Scope)
    requires scope.day == Some(DayOf(t)) && scope.routine.Some?
    requires forall id :: id in ids ==> id !in scope.spared && id in scope.routine.value
    ensures B.Permitted(Reservations(ids, t), scope)
  {
    if ids != [] {
      ReservationsPermitted(ids[..|ids| - 1], t, scope);
    }
  }

  /** The shares of several ticks, one after the other. */
  function Flatten(shares: seq<seq<B.AttemptId>>): seq<B.AttemptId> {
    if shares == [] then [] else Flatten(shares[..|shares| - 1]) + shares[|shares| - 1]
  }

  function SetOf(share: seq<B.AttemptId>): set<B.AttemptId> { set id | id in share }

  function Sets(shares: seq<seq<B.AttemptId>>): (ticks: seq<set<B.AttemptId>>)
    ensures |ticks| == |shares| && forall k :: 0 <= k < |shares| ==> ticks[k] == SetOf(shares[k])
  {
    seq(|shares|, k requires 0 <= k < |shares| => SetOf(shares[k]))
  }

  /** The ledger after the first `k` shares. */
  function After(c: B.Config, l: B.Ledger, shares: seq<seq<B.AttemptId>>, k: nat, at: nat): B.Ledger
    requires k <= |shares|
  {
    B.Run(c, l, Reservations(Flatten(shares[..k]), at))
  }

  lemma {:induction false} UnionIsFlatten(shares: seq<seq<B.AttemptId>>)
    ensures Union(Sets(shares)) == SetOf(Flatten(shares))
  {
    if shares != [] {
      var init := shares[..|shares| - 1];
      UnionIsFlatten(init);
      assert Sets(shares)[..|shares| - 1] == Sets(init);
    }
  }

  lemma {:induction false} InFlatten(shares: seq<seq<B.AttemptId>>, k: nat)
    requires k < |shares|
    ensures SetOf(shares[k]) <= SetOf(Flatten(shares))
    decreases |shares|
  {
    if k < |shares| - 1 {
      InFlatten(shares[..|shares| - 1], k);
    }
  }

  lemma NewInit(l: B.Ledger, a: seq<B.AttemptId>, b: seq<B.AttemptId>)
    requires NewIds(l, a + b)
    ensures NewIds(l, a) && SetOf(a) !! SetOf(b)
  {
    forall i, j | 0 <= i < |a| && 0 <= j < |b| ensures a[i] != b[j] {
      assert (a + b)[i] == a[i] && (a + b)[|a| + j] == b[j];
    }
    assert forall i :: 0 <= i < |a| ==> (a + b)[i] == a[i];
  }

  lemma {:induction false} SharesDisjoint(l: B.Ledger, shares: seq<seq<B.AttemptId>>, j: nat, k: nat)
    requires NewIds(l, Flatten(shares)) && j < k < |shares|
    ensures SetOf(shares[j]) !! SetOf(shares[k])
    decreases |shares|
  {
    var init := shares[..|shares| - 1];
    NewInit(l, Flatten(init), shares[|shares| - 1]);
    if k < |shares| - 1 {
      SharesDisjoint(l, init, j, k);
    } else {
      InFlatten(init, j);
    }
  }

  lemma {:induction false} SharesReach(
      c: B.Config, l: B.Ledger, shares: seq<seq<B.AttemptId>>, i: nat, j: nat, at: nat, scope: B.Scope)
    requires i <= j <= |shares| && scope.day == Some(DayOf(at)) && scope.routine.Some?
    requires forall m :: i <= m < j ==> SetOf(shares[m]) !! scope.spared && SetOf(shares[m]) <= scope.routine.value
    ensures B.Reaches(c, After(c, l, shares, i, at), After(c, l, shares, j, at), scope)
    decreases j
  {
    if i == j {
      B.ReachesSelf(c, After(c, l, shares, i, at), scope);
    } else {
      SharesReach(c, l, shares, i, j - 1, at, scope);
      var ids, before := shares[j - 1], After(c, l, shares, j - 1, at);
      assert shares[..j][..j - 1] == shares[..j - 1];
      ReservationsConcat(Flatten(shares[..j - 1]), ids, at);
      B.RunConcat(c, l, Reservations(Flatten(shares[..j - 1]), at), Reservations(ids, at));
      assert forall id :: id in ids ==> id in SetOf(ids);
      ReservationsPermitted(ids, at, scope);
      B.ReachesTransitive(c, After(c, l, shares, i, at), before, After(c, l, shares, j, at), scope);
    }
  }

  lemma {:induction false} FlattenLength(shares: seq<seq<B.AttemptId>>, pages: nat)
    requires forall k :: 0 <= k < |shares| ==> |shares[k]| == pages
    ensures |Flatten(shares)| == |shares| * pages
  {
    if shares != [] {
      FlattenLength(shares[..|shares| - 1], pages);
      OneMoreTick(|shares|, pages);
    }
  }

  lemma {:induction false} SetOfShare(share: seq<B.AttemptId>)
    ensures |SetOf(share)| <= |share|
  {
    if share != [] {
      SetOfShare(share[..|share| - 1]);
      assert SetOf(share) == SetOf(share[..|share| - 1]) + {share[|share| - 1]};
    }
  }

  /** Tick `k` spends its share after the ticks before it and before the others. */
  lemma ShareSpent(c: B.Config, l: B.Ledger, shares: seq<seq<B.AttemptId>>, k: nat, at: nat)
    requires NewIds(l, Flatten(shares)) && k < |shares| && |shares[k]| <= Pages(c, l, at)
    ensures var own, all := SetOf(shares[k]), SetOf(Flatten(shares));
      && TickShare(c, l, After(c, l, shares, k + 1, at), at, own, all - own)
      && B.Reaches(c, After(c, l, shares, k + 1, at), After(c, l, shares, |shares|, at),
                   B.Scope(own, Some(all), Some(DayOf(at))))
  {
    var own, all := SetOf(shares[k]), SetOf(Flatten(shares));
    forall m | 0 <= m < |shares| ensures SetOf(shares[m]) <= all && (m > k ==> SetOf(shares[m]) !! own) {
      InFlatten(shares, m);
      if m > k {
        SharesDisjoint(l, shares, k, m);
      }
    }
    SharesReach(c, l, shares, 0, k + 1, at, B.Scope({}, Some(all), Some(DayOf(at))));
    SharesReach(c, l, shares, k + 1, |shares|, at, B.Scope(own, Some(all), Some(DayOf(at))));
    assert After(c, l, shares, 0, at) == l && own + (all - own) == all;
    var end := After(c, l, shares, k + 1, at);
    B.Subset(B.Fresh(l, end, own), own);
    SetOfShare(shares[k]);
  }

  function Ends(c: B.Config, l: B.Ledger, shares: seq<seq<B.AttemptId>>, at: nat): (ends: seq<B.Ledger>)
    ensures |ends| == |shares| && forall k :: 0 <= k < |shares| ==> ends[k] == After(c, l, shares, k + 1, at)
  {
    seq(|shares|, k requires 0 <= k < |shares| => After(c, l, shares, k + 1, at))
  }

  lemma SharesOverlap(c: B.Config, l: B.Ledger, shares: seq<seq<B.AttemptId>>, at: nat)
    requires NewIds(l, Flatten(shares)) && shares != []
    requires forall k :: 0 <= k < |shares| ==> |shares[k]| <= Pages(c, l, at)
    ensures OverlappingTicks(c, l, Ends(c, l, shares, at), After(c, l, shares, |shares|, at), at, Sets(shares))
  {
    UnionIsFlatten(shares);
    forall k | 0 <= k < |shares|
      ensures TickShare(c, l, Ends(c, l, shares, at)[k], at, Sets(shares)[k], Union(Sets(shares)) - Sets(shares)[k])
      ensures B.Reaches(c, Ends(c, l, shares, at)[k], After(c, l, shares, |shares|, at),
                        B.Scope(Sets(shares)[k], Some(Union(Sets(shares))), Some(DayOf(at))))
    {
      ShareSpent(c, l, shares, k, at);
    }
    forall j, k | 0 <= j < k < |shares| ensures Sets(shares)[j] !! Sets(shares)[k] {
      SharesDisjoint(l, shares, j, k);
    }
  }

  /** The bound is reached, from every ledger and by any number of overlapping ticks for
      which the cap has room; so two or more of them overshoot the pace whenever some
      attempts are due but fewer than a tick's maximum. */
  lemma OverlappingTicksOvershoot(c: B.Config, l: B.Ledger, at: nat, shares: seq<seq<B.AttemptId>>)
    requires NewIds(l, Flatten(shares)) && shares != []
    requires forall k :: 0 <= k < |shares| ==> |shares[k]| == Pages(c, l, at)
    requires B.DailyUsed(l, at) + |Flatten(shares)| <= B.DailyCap(c, l, at)
    ensures var l' := After(c, l, shares, |shares|, at);
      && OverlappingTicks(c, l, Ends(c, l, shares, at), l', at, Sets(shares))
      && B.DailyUsed(l', at) == B.DailyUsed(l, at) + |shares| * Pages(c, l, at)
      && (|shares| >= 2 && 0 < Pages(c, l, at) < MAX_TICK_ATTEMPTS ==>
          B.DailyUsed(l', at) > PacedTarget(B.DailyCap(c, l', at), at))
  {
    SharesOverlap(c, l, shares, at);
    assert shares[..|shares|] == shares;
    FlattenLength(shares, Pages(c, l, at));
    AllGranted(c, l, Flatten(shares), at);
    TargetWithinCap(B.DailyCap(c, l, at), at);
    if |shares| >= 2 {
      B.MulMonotone(2, |shares|, Pages(c, l, at));
    }
  }

  lemma ExampleDay(c: B.Config, t: nat)
    requires c == B.Config(1240, 0) && t == 4_320_000
    ensures B.DailyCap(c, B.EMPTY, t) == 40 && B.DailyUsed(B.EMPTY, t) == 0 && PacedTarget(40, t) == 2
  {
    assert MonthStartDay(1) == 31 && MonthOf(t) == 0;
    RemainingDaysCountToday(t);
    assert B.Matching(B.EMPTY.reservations, MonthOf(t), None, B.RoutineSince(DayStart(t))) == {};
  }

  /** For instance 72 minutes into a day with a cap of 40: each of two ticks reads that
      two attempts are due, and together they make four. */
  lemma OverlapOnOneDay()
    ensures var c, t, shares := B.Config(1240, 0), 4_320_000, [["a", "b"], ["c", "d"]];
      && PacedTarget(B.DailyCap(c, B.EMPTY, t), t) == 2 == Pages(c, B.EMPTY, t)
      && OverlappingTicks(c, B.EMPTY, Ends(c, B.EMPTY, shares, t), After(c, B.EMPTY, shares, 2, t), t, Sets(shares))
      && B.DailyUsed(After(c, B.EMPTY, shares, 2, t), t) == 2 + 2
  {
    var shares := [["a", "b"], ["c", "d"]];
    assert shares[..1][..0] == [] && Flatten(shares[..1]) == ["a", "b"];
    assert shares[..2] == shares && Flatten(shares) == ["a", "b", "c", "d"];
    hide B.DailyCap, B.DailyUsed, PacedTarget, Reservations, OverlappingTicks, After;
    ExampleDay(B.Config(1240, 0), 4_320_000);
    OverlappingTicksOvershoot(B.Config(1240, 0), B.EMPTY, 4_320_000, shares);
  }

  // ---------------------------------------------------------------------------
  // Sharing a tick between the providers
  // ---------------------------------------------------------------------------

  function Other(p: Provider): Provider { if p.Copart? then L.Iaai else L.Copart }

  /** A run of the tick's queue. */
  datatype Turn = Turn(provider: Provider, result: R.RunResult)

  /** The providers no run has taken out yet. */
  function Runnable(log: seq<Turn>): set<Provider> {
    if log == [] then {L.Copart, L.Iaai} else Remaining(Runnable(log[..|log| - 1]), log[|log| - 1])
  }

  function Remaining(up: set<Provider>, turn: Turn): set<Provider> {
    if R.Unavailable(turn.result.reason) then up - {turn.provider} else up
  }

  lemma RunnableAppend(log: seq<Turn>, turn: Turn)
    ensures Runnable(log + [turn]) == Remaining(Runnable(log), turn)
  {
    assert (log + [turn])[..|log|] == log;
  }

  lemma {:induction false} RunnableSubset(log: seq<Turn>)
    ensures Runnable(log) <= {L.Copart, L.Iaai}
  {
    if log != [] {
      RunnableSubset(log[..|log| - 1]);
    }
  }

  /** Why a provider is taken out of a tick. */
  predicate TakesOut(turn: Turn, p: Provider) {
    && turn.provider == p
    && turn.result.reason in {R.LeaseHeld, R.ConfigurationError, R.NotDue, R.Exhausted, R.LeaseLost, R.PersistenceError,
                              R.ProviderError}
  }

  /** A provider is in the queue exactly until a run of its own ends for such a reason. */
  lemma {:induction false} RunnableExactly(log: seq<Turn>, p: Provider)
    ensures p in Runnable(log) <==> forall k :: 0 <= k < |log| ==> !TakesOut(log[k], p)
  {
    if log != [] {
      var init := log[..|log| - 1];
      RunnableExactly(init, p);
      assert forall k :: 0 <= k < |init| ==> init[k] == log[k];
    }
  }

  /** A provider that was taken out stays out. */
  lemma {:induction false} OutStaysOut(log: seq<Turn>, d: nat)
    requires d < |log| && R.Unavailable(log[d].result.reason)
    ensures log[d].provider !in Runnable(log)
  {
    if d < |log| - 1 {
      OutStaysOut(log[..|log| - 1], d);
    }
  }

  function InRotation(first: Provider, slot: nat): Provider { if slot % 2 == 0 then first else Other(first) }

  /** The next provider: the one whose turn it is, or the other if that one is out. */
  function Due(first: Provider, log: seq<Turn>): Provider {
    var p := InRotation(first, |log|);
    if p in Runnable(log) then p else Other(p)
  }

  /** Every turn went to the provider that was due, and it was still runnable. */
  predicate Rotates(first: Provider, log: seq<Turn>) {
    forall k :: 0 <= k < |log| ==> log[k].provider == Due(first, log[..k]) && log[k].provider in Runnable(log[..k])
  }

  function Turns(log: seq<Turn>, p: Provider): nat {
    if log == [] then 0 else Turns(log[..|log| - 1], p) + B.One(log[|log| - 1].provider == p)
  }

  predicate AllUp(log: seq<Turn>) { forall k :: 0 <= k < |log| ==> !R.Unavailable(log[k].result.reason) }

  lemma {:induction false} RunnableWhileUp(log: seq<Turn>)
    requires AllUp(log)
    ensures Runnable(log) == {L.Copart, L.Iaai}
  {
    if log != [] {
      RunnableWhileUp(log[..|log| - 1]);
    }
  }

  lemma RotatesPrefix(first: Provider, log: seq<Turn>, n: nat)
    requires Rotates(first, log) && n <= |log|
    ensures Rotates(first, log[..n])
  {
    forall k | 0 <= k < n
      ensures log[..n][k].provider == Due(first, log[..n][..k]) && log[..n][k].provider in Runnable(log[..n][..k])
    {
      assert log[..n][..k] == log[..k];
    }
  }

  /** The slot of the day a moment lies in decides who starts its tick. */
  predicate StartsInSlot(slot: nat, log: seq<Turn>) {
    log != [] && (log[0].provider.Copart? <==> slot % 2 == 0) && (log[0].provider.Iaai? <==> slot % 2 == 1)
  }

  /** A tick at this moment, if it runs anybody, starts with the one its slot decides. */
  predicate StartsRight(at: nat, interval: nat, log: seq<Turn>)
    requires interval > 0
  {
    log != [] ==> StartsInSlot(at % 86_400_000 / interval, log)
  }

  /** Ticks in adjacent slots start with different providers. */
  lemma AdjacentTicksAlternate(slot: nat, log: seq<Turn>, next: seq<Turn>)
    requires StartsInSlot(slot, log) && StartsInSlot(slot + 1, next)
    ensures next[0].provider == Other(log[0].provider)
  {
  }

  function FirstTurns(logs: seq<seq<Turn>>, p: Provider): nat
    requires forall k :: 0 <= k < |logs| ==> logs[k] != []
  {
    if logs == [] then 0
    else FirstTurns(logs[..|logs| - 1], p) + B.One(logs[|logs| - 1][0].provider == p)
  }

  /** So over adjacent slots the first turns of the two differ by at most one. */
  lemma {:induction false} FirstTurnsBalanced(slot: nat, logs: seq<seq<Turn>>)
    requires forall k {:trigger logs[k]} :: 0 <= k < |logs| ==> logs[k] != [] && StartsInSlot(slot + k, logs[k])
    ensures var copart, iaai := FirstTurns(logs, L.Copart), FirstTurns(logs, L.Iaai);
      && copart + iaai == |logs|
      && copart == (if slot % 2 == 0 then (|logs| + 1) / 2 else |logs| / 2)
  {
    if logs != [] {
      FirstTurnsBalanced(slot, logs[..|logs| - 1]);
      assert StartsInSlot(slot + |logs| - 1, logs[|logs| - 1]);
    }
  }

  /** While both providers stay runnable the turns alternate: the first is level with the
      other or one ahead. */
  lemma {:induction false} TurnsBalanced(first: Provider, log: seq<Turn>)
    requires Rotates(first, log) && (|log| > 0 ==> AllUp(log[..|log| - 1]))
    ensures Turns(log, first) == (|log| + 1) / 2 && Turns(log, Other(first)) == |log| / 2
  {
    if log != [] {
      var init := log[..|log| - 1];
      RotatesPrefix(first, log, |log| - 1);
      assert |init| > 0 ==> AllUp(init[..|init| - 1]);
      TurnsBalanced(first, init);
      RunnableWhileUp(init);
    }
  }

  /** Once a provider is out, every later turn is the other's. */
  lemma OtherGetsTheRest(first: Provider, log: seq<Turn>, d: nat, k: nat)
    requires Rotates(first, log) && d < k < |log| && R.Unavailable(log[d].result.reason)
    ensures log[k].provider == Other(log[d].provider)
  {
    assert log[..k][d] == log[d];
    OutStaysOut(log[..k], d);
  }

  /** A run that missed its deadline before its first attempt. */
  predicate Late(r: R.RunResult) { r.attempts == 0 && r.reason.DeadlineExceeded? }

  function LateRuns(log: seq<Turn>): nat {
    if log == [] then 0 else LateRuns(log[..|log| - 1]) + B.One(Late(log[|log| - 1].result))
  }

  /** What is left to do: attempts, and providers still in the queue. */
  function Measure(remaining: int, log: seq<Turn>): nat { Max(0, remaining) + |Runnable(log)| }

  /** Each run of the queue lowers the measure, unless it was late. A late run leaves
      both the allowance and the set of runnable providers as they were, so without a
      bound on late runs the loop has none either. */
  lemma TurnProgress(remaining: int, log: seq<Turn>, turn: Turn)
    requires remaining > 0 && turn.provider in Runnable(log) && R.Honest(turn.result, remaining)
    ensures Late(turn.result) ==> Measure(remaining - turn.result.attempts, log + [turn]) == Measure(remaining, log)
    ensures !Late(turn.result) ==> Measure(remaining - turn.result.attempts, log + [turn]) < Measure(remaining, log)
  {
    RunnableAppend(log, turn);
  }

  /** The number of runs of a queue is bounded by what it started with and its late runs. */
  predicate QueueBounded(remaining: int, remaining0: int, log: seq<Turn>) {
    |log| + Measure(remaining, log) <= Max(0, remaining0) + 2 + LateRuns(log)
  }

  /** The queue ended by itself, unless late runs used up the surroundings it was given. */
  predicate QueueDone(limit: nat, granted: int, remaining: int, log: seq<Turn>) {
    limit > granted + 2 + LateRuns(log) ==> remaining <= 0 || Runnable(log) == {}
  }

  lemma QueueEnds(limit: nat, granted: int, remaining: int, log: seq<Turn>)
    requires QueueBounded(remaining, granted, log) && granted >= 0
    requires remaining <= 0 || Runnable(log) == {} || |log| >= limit
    ensures QueueDone(limit, granted, remaining, log)
  {
  }

  /** The attempts of all runs so far. */
  function Attempts(log: seq<Turn>): int {
    if log == [] then 0 else Attempts(log[..|log| - 1]) + log[|log| - 1].result.attempts
  }

  /** When every run is late the queue never ends: however many there have been, the
      whole grant is left and both providers are still in it, so the loop goes on. */
  lemma {:induction false} LateRunsNeverEnd(first: Provider, granted: nat, log: seq<Turn>)
    requires Rotates(first, log) && forall k :: 0 <= k < |log| ==> Late(log[k].result)
    ensures granted - Attempts(log) == granted && Runnable(log) == {L.Copart, L.Iaai} && LateRuns(log) == |log|
  {
    if log != [] {
      RotatesPrefix(first, log, |log| - 1);
      LateRunsNeverEnd(first, granted, log[..|log| - 1]);
    }
  }

  // ---------------------------------------------------------------------------
  // The attempt ids of a tick
  // ---------------------------------------------------------------------------

  /** One run of the queue: its token, the partition it sweeps and its surroundings. */
  datatype Job = Job(token: D.Token, query: D.Query, world: R.World)

  function JobIds(job: Job): set<T.AttemptId> { R.TurnIds(job.world, 0) + R.TurnIds(job.world, 1) }

  function AllIds(jobs: seq<Job>): set<T.AttemptId> {
    if jobs == [] then {} else AllIds(jobs[..|jobs| - 1]) + JobIds(jobs[|jobs| - 1])
  }

  /** The day of a tick, and the attempt ids of the ticks that overlap it. */
  datatype Today = Today(day: nat, peers: set<T.AttemptId>)

  /** During the tick, routine attempts are reserved only under its own ids and those of
      its peers, and it is the tick's day. */
  function TickScope(jobs: seq<Job>, today: Today): B.Scope {
    B.Scope({}, Some(AllIds(jobs) + today.peers), Some(today.day))
  }

  /** During run `i`, besides, nobody else uses an id of another run. */
  function RunScope(jobs: seq<Job>, i: nat, today: Today): B.Scope
    requires i < |jobs|
  {
    TickScope(jobs, today).(spared := AllIds(jobs) - JobIds(jobs[i]))
  }

  predicate DistinctJobs(jobs: seq<Job>) {
    forall i, j {:trigger JobIds(jobs[i]), JobIds(jobs[j])} {:trigger jobs[i].token, jobs[j].token} ::
      0 <= i < j < |jobs| ==>
        JobIds(jobs[i]) !! JobIds(jobs[j]) && jobs[i].token != jobs[j].token
  }

  ghost predicate JobReady(jobs: seq<Job>, j: nat, today: Today, l: B.Ledger)
    requires j < |jobs|
  {
    R.FreshWorld(jobs[j].world, RunScope(jobs, j, today), l)
  }

  ghost predicate JobsReady(jobs: seq<Job>, from: nat, today: Today, l: B.Ledger) {
    forall j: nat {:trigger JobReady(jobs, j, today, l)} :: from <= j < |jobs| ==> JobReady(jobs, j, today, l)
  }

  lemma {:induction false} JobIdsAmongAll(jobs: seq<Job>, i: nat)
    requires i < |jobs|
    ensures JobIds(jobs[i]) <= AllIds(jobs)
    decreases |jobs|
  {
    if i < |jobs| - 1 {
      JobIdsAmongAll(jobs[..|jobs| - 1], i);
    }
  }

  function Reserved(l: B.Ledger, ids: set<T.AttemptId>): set<T.AttemptId> { set id | id in ids && id in l.reservations }

  lemma ReservedSplits(l: B.Ledger, a: set<T.AttemptId>, b: set<T.AttemptId>)
    ensures |Reserved(l, a + b)| <= |Reserved(l, a)| + |Reserved(l, b)|
  {
    assert Reserved(l, a + b) == Reserved(l, a) + Reserved(l, b);
  }

  lemma {:induction false} FirstIds(attempts: seq<T.Attempt>, n: nat)
    requires n <= |attempts|
    ensures |set k | 0 <= k < n :: attempts[k].id| <= n
  {
    if n > 0 {
      FirstIds(attempts, n - 1);
      var a, b := set k | 0 <= k < n - 1 :: attempts[k].id, set k | 0 <= k < n :: attempts[k].id;
      assert b == a + {attempts[n - 1].id};
    }
  }

  lemma ReservedOfPage(l: B.Ledger, attempts: seq<T.Attempt>, n: nat, committed: bool)
    requires R.Accounted(l, attempts, n, committed)
    ensures |Reserved(l, T.Ids(attempts))| <= n
  {
    FirstIds(attempts, n);
    var a := set k | 0 <= k < n :: attempts[k].id;
    assert Reserved(l, T.Ids(attempts)) <= a;
    B.Subset(Reserved(l, T.Ids(attempts)), a);
  }

  /** A run's books bound the ids it has reserved. */
  lemma ReservedOfRun(l: B.Ledger, job: Job, made: seq<nat>, pages: nat)
    requires R.Books(job.world, made, pages, l)
    ensures |Reserved(l, JobIds(job))| <= R.Sum(made)
  {
    ReservedOfPage(l, job.world.turns[0].attempts, made[0], 0 < pages);
    ReservedOfPage(l, job.world.turns[1].attempts, made[1], 1 < pages);
    ReservedSplits(l, R.TurnIds(job.world, 0), R.TurnIds(job.world, 1));
  }

  lemma JobKept(jobs: seq<Job>, j: nat, today: Today, l: B.Ledger, l': B.Ledger, ids: set<T.AttemptId>)
    requires j < |jobs| && JobReady(jobs, j, today, l) && B.SameOn(l, l', ids) && JobIds(jobs[j]) <= ids
    ensures JobReady(jobs, j, today, l')
  {
    var scope := RunScope(jobs, j, today);
    forall k: nat | k < 2 ensures R.FreshTurn(jobs[j].world, k, scope, l') {
      assert R.FreshTurn(jobs[j].world, k, scope, l);
      R.FreshKept(jobs[j].world, k, scope, l, l', ids);
    }
  }

  /** Ids reserved by the first `i` runs, at most `used`; the rest are still unused. */
  ghost predicate TickBooks(jobs: seq<Job>, i: nat, today: Today, l0: B.Ledger, l: B.Ledger, c: B.Config, used: int) {
    && i <= |jobs| && JobsReady(jobs, i, today, l)
    && |Reserved(l, AllIds(jobs[..i]))| <= used
    && B.Reaches(c, l0, l, TickScope(jobs, today))
  }

  lemma {:induction false} EarlierIdsSpared(jobs: seq<Job>, i: nat, n: nat)
    requires DistinctJobs(jobs) && n <= i < |jobs|
    ensures AllIds(jobs[..n]) <= AllIds(jobs) - JobIds(jobs[i])
    decreases n
  {
    if n > 0 {
      EarlierIdsSpared(jobs, i, n - 1);
      assert jobs[..n][..n - 1] == jobs[..n - 1];
      JobIdsAmongAll(jobs, n - 1);
    }
  }

  lemma ReservedSame(l: B.Ledger, l': B.Ledger, ids: set<T.AttemptId>, spared: set<T.AttemptId>)
    requires B.SameOn(l, l', spared) && ids <= spared
    ensures Reserved(l', ids) == Reserved(l, ids)
  {
  }

  lemma AllIdsStep(jobs: seq<Job>, i: nat)
    requires i < |jobs|
    ensures AllIds(jobs[..i + 1]) == AllIds(jobs[..i]) + JobIds(jobs[i])
  {
    assert jobs[..i + 1][..i] == jobs[..i];
  }

  lemma RunReserved(jobs: seq<Job>, i: nat, l: B.Ledger, l': B.Ledger, made: seq<nat>, pages: nat)
    requires DistinctJobs(jobs) && i < |jobs|
    requires B.SameOn(l, l', AllIds(jobs) - JobIds(jobs[i])) && R.Books(jobs[i].world, made, pages, l')
    ensures |Reserved(l', AllIds(jobs[..i + 1]))| <= |Reserved(l, AllIds(jobs[..i]))| + R.Sum(made)
  {
    var earlier, own := AllIds(jobs[..i]), JobIds(jobs[i]);
    EarlierIdsSpared(jobs, i, i);
    ReservedOfRun(l', jobs[i], made, pages);
    ReservedSame(l, l', earlier, AllIds(jobs) - own);
    AllIdsStep(jobs, i);
    ReservedSplits(l', earlier, own);
  }

  lemma LaterJobsKept(jobs: seq<Job>, i: nat, today: Today, l: B.Ledger, l': B.Ledger)
    requires DistinctJobs(jobs) && i < |jobs| && JobsReady(jobs, i, today, l)
    requires B.SameOn(l, l', AllIds(jobs) - JobIds(jobs[i]))
    ensures JobsReady(jobs, i + 1, today, l')
  {
    forall j: nat | i + 1 <= j < |jobs| ensures JobReady(jobs, j, today, l') {
      assert JobReady(jobs, j, today, l);
      JobIdsAmongAll(jobs, j);
      JobKept(jobs, j, today, l, l', AllIds(jobs) - JobIds(jobs[i]));
    }
  }

  lemma RunBooked(
      jobs: seq<Job>, i: nat, today: Today, l0: B.Ledger, l: B.Ledger, l': B.Ledger, c: B.Config, used: int,
      made: seq<nat>, pages: nat)
    requires DistinctJobs(jobs) && i < |jobs| && TickBooks(jobs, i, today, l0, l, c, used)
    requires B.Reaches(c, l, l', RunScope(jobs, i, today)) && R.Books(jobs[i].world, made, pages, l')
    ensures TickBooks(jobs, i + 1, today, l0, l', c, used + R.Sum(made))
  {
    var all := TickScope(jobs, today);
    B.ReachesKeeps(c, l, l', RunScope(jobs, i, today));
    B.ReachesWider(c, l, l', RunScope(jobs, i, today), all);
    B.ReachesTransitive(c, l0, l, l', all);
    RunReserved(jobs, i, l, l', made, pages);
    LaterJobsKept(jobs, i, today, l, l');
  }

  lemma ReadyUnreserved(jobs: seq<Job>, j: nat, today: Today, l: B.Ledger)
    requires j < |jobs| && JobReady(jobs, j, today, l)
    ensures Reserved(l, JobIds(jobs[j])) == {}
  {
    var scope := RunScope(jobs, j, today);
    assert R.FreshTurn(jobs[j].world, 0, scope, l) && R.FreshTurn(jobs[j].world, 1, scope, l);
  }

  lemma {:induction false} LaterUnreserved(jobs: seq<Job>, i: nat, n: nat, today: Today, l: B.Ledger)
    requires i <= n <= |jobs| && JobsReady(jobs, i, today, l)
    ensures Reserved(l, AllIds(jobs[..n])) == Reserved(l, AllIds(jobs[..i]))
    decreases n
  {
    if i < n {
      LaterUnreserved(jobs, i, n - 1, today, l);
      assert jobs[..n][..n - 1] == jobs[..n - 1];
      assert JobReady(jobs, n - 1, today, l);
      ReadyUnreserved(jobs, n - 1, today, l);
      assert Reserved(l, AllIds(jobs[..n])) == Reserved(l, AllIds(jobs[..n - 1])) + Reserved(l, JobIds(jobs[n - 1]));
    }
  }

  /** So the tick has reserved no more under its ids than it counted. */
  lemma TickGrowth(jobs: seq<Job>, i: nat, today: Today, l0: B.Ledger, l: B.Ledger, c: B.Config, used: int)
    requires TickBooks(jobs, i, today, l0, l, c, used)
    ensures |B.Fresh(l0, l, AllIds(jobs))| <= used
  {
    LaterUnreserved(jobs, i, |jobs|, today, l);
    assert jobs[..|jobs|] == jobs;
    B.Subset(B.Fresh(l0, l, AllIds(jobs)), Reserved(l, AllIds(jobs)));
  }

  // ---------------------------------------------------------------------------
  // The tick
  // ---------------------------------------------------------------------------

  class FreshnessScheduler {
    const budgetService: B.RequestBudgetService
    const copart: R.DiscoveryService
    const iaai: R.DiscoveryService

    constructor (budgetService: B.RequestBudgetService, copart: R.DiscoveryService, iaai: R.DiscoveryService)
      ensures this.budgetService == budgetService && this.copart == copart && this.iaai == iaai
    {
      this.budgetService, this.copart, this.iaai := budgetService, copart, iaai;
    }

    ghost predicate Wired() { copart != iaai && copart.budgetService == budgetService == iaai.budgetService }

    /** The tokens of the runs still to come are known to nobody. */
    ghost predicate TokensUnused(jobs: seq<Job>, from: nat)
      reads copart, iaai
    {
      forall j :: from <= j < |jobs| ==>
        && jobs[j].token in copart.tokens && jobs[j].token in iaai.tokens && jobs[j].token != L.NO_OWNER
        && R.Unused(copart.View(), jobs[j].token) && R.Unused(iaai.View(), jobs[j].token)
    }

    /** Both providers' rows have moved only by the steps of `Discovery`. */
    ghost predicate RowsSince(c0: D.System, i0: D.System)
      reads copart, iaai
    {
      R.Reaches(copart.provider, c0, copart.View()) && R.Reaches(iaai.provider, i0, iaai.View())
    }

    /** One run of `runDiscovery`, as far as the tick goes by it. */
    method RunJob(service: R.DiscoveryService, job: Job, pages: int, budget: T.AttemptBudget, ghost scope: B.Scope)
      returns (r: R.RunResult, ghost made: seq<nat>)
      requires service.budgetService == budgetService && job.token != L.NO_OWNER
      requires R.Unused(service.View(), job.token) && R.FreshWorld(job.world, scope, budgetService.View())
      modifies service, budgetService, budget
      ensures R.Reaches(service.provider, old(service.View()), service.View())
      ensures forall v ::
        v in service.tokens && v != job.token && v != L.NO_OWNER && R.Unused(old(service.View()), v) ==>
        R.Unused(service.View(), v)
      ensures R.Books(job.world, made, r.pages, budgetService.View()) && r.attempts == R.Sum(made)
      ensures B.Reaches(budgetService.config, old(budgetService.View()), budgetService.View(), scope)
      ensures budget.remaining == old(budget.remaining) - r.attempts && budget.used == old(budget.used) + r.attempts
      ensures R.Honest(r, old(budget.remaining))
      ensures r.pages <= Max(1, Min(2, pages)) && (r.reason.Completed? ==> r.pages == Max(1, Min(2, pages)))
    {
      hide R.Reaches, R.Accounted, R.FreshTurn, R.FreshWorld, R.Books, B.Reaches, R.Honest;
      ghost var deadline;
      r, made, deadline := service.RunDiscovery(job.token, job.query, Some(pages), budget, job.world, scope);
    }

    method RunProvider(
        p: Provider, jobs: seq<Job>, i: nat, ghost today: Today, pages: int, budget: T.AttemptBudget,
        ghost c0: D.System, ghost i0: D.System)
      returns (r: R.RunResult, ghost made: seq<nat>)
      requires Wired() && i < |jobs| && DistinctJobs(jobs) && TokensUnused(jobs, i) && RowsSince(c0, i0)
      requires JobReady(jobs, i, today, budgetService.View())
      modifies copart, iaai, budgetService, budget
      ensures TokensUnused(jobs, i + 1) && RowsSince(c0, i0)
      ensures R.Books(jobs[i].world, made, r.pages, budgetService.View()) && r.attempts == R.Sum(made)
      ensures B.Reaches(budgetService.config, old(budgetService.View()), budgetService.View(), RunScope(jobs, i, today))
      ensures budget.remaining == old(budget.remaining) - r.attempts && budget.used == old(budget.used) + r.attempts
      ensures R.Honest(r, old(budget.remaining))
      ensures r.pages <= Max(1, Min(2, pages)) && (r.reason.Completed? ==> r.pages == Max(1, Min(2, pages)))
    {
      hide R.Reaches, R.Accounted, R.FreshTurn, R.FreshWorld, R.Books, B.Reaches, R.Honest;
      ghost var scope := RunScope(jobs, i, today);
      ghost var c1, i1 := copart.View(), iaai.View();
      if p.Copart? {
        r, made := RunJob(copart, jobs[i], pages, budget, scope);
        R.ReachesTransitive(copart.provider, c0, c1, copart.View());
      } else {
        r, made := RunJob(iaai, jobs[i], pages, budget, scope);
        R.ReachesTransitive(iaai.provider, i0, i1, iaai.View());
      }
    }

    /** The next run of the queue, entered in the tick's books. */
    method RunNext(
        p: Provider, jobs: seq<Job>, i: nat, ghost today: Today, budget: T.AttemptBudget, ghost l0: B.Ledger,
        ghost c0: D.System, ghost i0: D.System)
      returns (r: R.RunResult)
      requires Wired() && i < |jobs| && DistinctJobs(jobs) && TokensUnused(jobs, i) && RowsSince(c0, i0)
      requires TickBooks(jobs, i, today, l0, budgetService.View(), budgetService.config, budget.used)
      modifies copart, iaai, budgetService, budget
      ensures TokensUnused(jobs, i + 1) && RowsSince(c0, i0)
      ensures TickBooks(jobs, i + 1, today, l0, budgetService.View(), budgetService.config, budget.used)
      ensures budget.remaining == old(budget.remaining) - r.attempts && budget.used == old(budget.used) + r.attempts
      ensures R.Honest(r, old(budget.remaining))
      ensures r.reason.Completed? && old(budget.remaining) > 0 ==> r.pages == Min(2, old(budget.remaining))
    {
      ghost var l1, used := budgetService.View(), budget.used;
      assert JobReady(jobs, i, today, l1);
      ghost var made;
      r, made := RunProvider(p, jobs, i, today, Min(budget.remaining, MAX_PAGES_PER_RUN), budget, c0, i0);
      RunBooked(jobs, i, today, l0, l1, budgetService.View(), budgetService.config, used, made, r.pages);
    }

    /** The first runnable provider from the slot on, in rotating order. */
    static method Select(first: Provider, runnable: set<Provider>, slotIdx: nat) returns (p: Provider)
      requires runnable != {}
      ensures p == if InRotation(first, slotIdx) in runnable
        then InRotation(first, slotIdx) else Other(InRotation(first, slotIdx))
      ensures p in runnable
    {
      var providerOrder := [first, Other(first)];
      var i := 0;
      while providerOrder[(slotIdx + i) % 2] !in runnable
        invariant i == 0 || (i == 1 && InRotation(first, slotIdx) !in runnable)
        decreases 2 - i
      {
        i := i + 1;
        assert first in runnable || Other(first) in runnable by {
          var q :| q in runnable;
          assert q == first || q == Other(first);
        }
      }
      p := providerOrder[(slotIdx + i) % 2];
    }

    /** The queue of one tick, given the surroundings of |jobs| runs. It stops when the
        attempts are used up or no provider is left, unless so many runs were late that
        the surroundings ran out first. */
    method ShareTick(
        first: Provider, jobs: seq<Job>, ghost today: Today, budget: T.AttemptBudget, ghost c0: D.System,
        ghost i0: D.System)
      returns (ghost log: seq<Turn>)
      requires Wired() && DistinctJobs(jobs) && TokensUnused(jobs, 0) && RowsSince(c0, i0)
      requires JobsReady(jobs, 0, today, budgetService.View()) && budget.used == 0 <= budget.remaining
      modifies copart, iaai, budgetService, budget
      ensures RowsSince(c0, i0) && Rotates(first, log)
      ensures |log| <= |jobs|
      ensures TickBooks(jobs, |log|, today, old(budgetService.View()), budgetService.View(), budgetService.config,
        budget.used)
      ensures 0 <= budget.remaining == old(budget.remaining) - budget.used
      ensures budget.used == Attempts(log) && QueueBounded(budget.remaining, old(budget.remaining), log)
      ensures QueueDone(|jobs|, old(budget.remaining), budget.remaining, log)
      ensures old(budget.remaining) > 0 && jobs != [] ==> log != []
    {
      hide R.Reaches, R.FreshTurn, B.Reaches, Reserved, JobsReady, AllIds;
      ghost var l0 := budgetService.View();
      ghost var granted := budget.remaining;
      var runnable := {L.Copart, L.Iaai};
      var slotIdx := 0;
      log := [];
      NothingBooked(jobs, today, l0, budgetService.config);
      while budget.remaining > 0 && runnable != {} && slotIdx < |jobs|
        invariant slotIdx == |log| <= |jobs| && runnable == Runnable(log) && Rotates(first, log)
        invariant TokensUnused(jobs, slotIdx) && RowsSince(c0, i0)
        invariant TickBooks(jobs, slotIdx, today, l0, budgetService.View(), budgetService.config, budget.used)
        invariant 0 <= budget.remaining == granted - budget.used && budget.used == Attempts(log)
        invariant QueueBounded(budget.remaining, granted, log)
        decreases |jobs| - slotIdx
      {
        var provider := Select(first, runnable, slotIdx);
        ghost var before := budget.remaining;
        var result := RunNext(provider, jobs, slotIdx, today, budget, l0, c0, i0);
        LogTurn(first, granted, before, log, Turn(provider, result));
        if R.Unavailable(result.reason) {
          runnable := runnable - {provider};
        }
        log := log + [Turn(provider, result)];
        slotIdx := slotIdx + 1;
      }
      QueueEnds(|jobs|, granted, budget.remaining, log);
    }

    /** How many attempts the tick may spend. */
    method Grant(paused: bool, readAt: nat, at: nat) returns (granted: nat)
      requires DayOf(readAt) == DayOf(at)
      ensures var l, c := budgetService.View(), budgetService.config;
        granted == if paused || B.Verdict(c, l, B.Routine, readAt).Some? then 0
          else TickPages(B.DailyCap(c, l, at), B.DailyUsed(l, at), at)
    {
      if paused {
        return 0;
      }
      var snapshot := budgetService.BuildSnapshot(readAt);
      B.CapConstantInDay(budgetService.config, budgetService.View(), readAt, at);
      if snapshot.routineBlocked || snapshot.dailyRemaining <= 0 {
        return 0;
      }
      var elapsed := at - DayStart(at);
      var pacedTarget := snapshot.dailyCap * elapsed / 86_400_000;
      granted := Min(Min(snapshot.dailyRemaining, Max(0, pacedTarget - snapshot.dailyUsed)), 4);
    }

    static method First(at: nat, interval: nat) returns (first: Provider)
      requires interval > 0
      ensures first == FirstOf(at, interval)
    {
      var elapsed := at - DayStart(at);
      var slot := elapsed / interval;
      first := if slot % 2 == 0 then L.Copart else L.Iaai;
    }

    /** One tick, while its peers reserve routine attempts of their own. Its new attempts
        stay within what the pace read at its start allows, four at most; `log` is the fair
        queue they were spent on. */
    method Tick(paused: bool, readAt: nat, at: nat, interval: nat, jobs: seq<Job>, ghost peers: set<T.AttemptId>)
      returns (granted: nat, used: int, ghost log: seq<Turn>)
      requires Wired() && DistinctJobs(jobs) && TokensUnused(jobs, 0) && interval > 0 && DayOf(readAt) == DayOf(at)
      requires JobsReady(jobs, 0, Today(DayOf(at), peers), budgetService.View())
      modifies copart, iaai, budgetService
      ensures TickShare(budgetService.config, old(budgetService.View()), budgetService.View(), at, AllIds(jobs), peers)
      ensures RowsSince(old(copart.View()), old(iaai.View()))
      ensures 0 <= used <= granted <= MAX_TICK_ATTEMPTS && Rotates(FirstOf(at, interval), log)
      ensures granted > 0 ==> QueueDone(|jobs|, granted, granted - used, log)
      ensures log != [] <==> granted > 0 && jobs != []
      ensures StartsRight(at, interval, log)
    {
      ghost var l0, c0, i0 := budgetService.View(), copart.View(), iaai.View();
      R.ReachesSelf(copart.provider, c0);
      R.ReachesSelf(iaai.provider, i0);
      ghost var today := Today(DayOf(at), peers);
      B.ReachesSelf(budgetService.config, l0, TickScope(jobs, today));
      assert B.Fresh(l0, l0, AllIds(jobs)) == {};
      used, log := 0, [];
      granted := Grant(paused, readAt, at);
      if granted > 0 {
        var first := First(at, interval);
        var budget := new T.AttemptBudget(granted);
        log := ShareTick(first, jobs, today, budget, c0, i0);
        used := budget.used;
        if log != [] {
          FirstTurn(first, log, at, interval);
        }
        TickGrowth(jobs, |log|, today, l0, budgetService.View(), budgetService.config, used);
      }
    }
  }

  lemma FirstTurn(first: Provider, log: seq<Turn>, at: nat, interval: nat)
    requires interval > 0 && first == FirstOf(at, interval) && Rotates(first, log) && log != []
    ensures StartsRight(at, interval, log)
  {
    assert log[0].provider == Due(first, log[..0]) && log[..0] == [];
    assert Elapsed(at) == at % 86_400_000;
  }

  /** Slots alternate who starts. */
  function FirstOf(at: nat, interval: nat): Provider
    requires interval > 0
  {
    InRotation(L.Copart, Elapsed(at) / interval)
  }

  lemma NothingBooked(jobs: seq<Job>, today: Today, l: B.Ledger, c: B.Config)
    requires JobsReady(jobs, 0, today, l)
    ensures TickBooks(jobs, 0, today, l, l, c, 0)
  {
    B.ReachesSelf(c, l, TickScope(jobs, today));
    assert Reserved(l, AllIds(jobs[..0])) == {};
  }

  /** The provider picked by slot is the one due, and the bound on the queue survives. */
  lemma LogTurn(first: Provider, granted: int, remaining: int, log: seq<Turn>, turn: Turn)
    requires Rotates(first, log) && remaining > 0 && Runnable(log) != {} && turn.provider == Due(first, log)
    requires R.Honest(turn.result, remaining) && QueueBounded(remaining, granted, log)
    ensures Rotates(first, log + [turn]) && QueueBounded(remaining - turn.result.attempts, granted, log + [turn])
    ensures Runnable(log + [turn]) == Remaining(Runnable(log), turn)
    ensures Attempts(log + [turn]) == Attempts(log) + turn.result.attempts
  {
    var longer := log + [turn];
    RunnableAppend(log, turn);
    assert Runnable(log) <= {L.Copart, L.Iaai} by { RunnableSubset(log); }
    TurnProgress(remaining, log, turn);
    assert longer[..|log|] == log;
    forall k | 0 <= k < |longer|
      ensures longer[k].provider == Due(first, longer[..k]) && longer[k].provider in Runnable(longer[..k])
    {
      if k < |log| {
        assert longer[..k] == log[..k];
      }
    }
  }
}
