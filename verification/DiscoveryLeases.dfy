/** The lease of a sweep is the lease of `Leases`: every run of the discovery workers is a
    run of the lease protocol, so the theorems about tenures and fences hold of them. */
module DiscoveryLeases {
  import opened Wrappers
  import L = Leases
  import D = Discovery

  // ---------------------------------------------------------------------------
  // The lease transactions of a run
  // ---------------------------------------------------------------------------

  /** A job write that finds no job: it touches neither the row nor a job. */
  const NOTHING: L.Op := L.WriteJob("", L.Running)

  /** Another lease user's operation, on this provider's row. */
  function Retarget(op: L.Op, p: L.Provider): L.Op {
    match op
    case Claim(_, owner, ttl, wanted) => L.Claim(p, owner, ttl, wanted)
    case ClaimWithRecovery(_, owner, ttl, claimer) => L.ClaimWithRecovery(p, owner, ttl, claimer)
    case Renew(_, owner, fence, ttl) => L.Renew(p, owner, fence, ttl)
    case Release(_, owner, fence) => L.Release(p, owner, fence)
    case Leased(_, owner, fence, elapsed, body) => L.Leased(p, owner, fence, elapsed, body)
    case Recover(_) => L.Recover(p)
    case _ => NOTHING
  }

  /** A worker's transaction under its lease. */
  function UnderLease(s: D.System, ev: D.Event, p: L.Provider, w: D.Token): L.Op
    requires w in s.workers && ev.checked <= ev.now
  {
    L.Leased(p, w, s.workers[w].fence, ev.now - ev.checked, L.Quiet)
  }

  /** The lease transaction that a step of the sweep contains. */
  function LeaseEvent(s: D.System, ev: D.Event, p: L.Provider): L.Event
    requires D.Enabled(s, ev)
  {
    L.Event(ev.checked,
      match ev.act
      case Claim(w, _, ttl, _) => L.Claim(p, w, ttl, None)
      case Restart(w) => UnderLease(s, ev, p, w)
      case StartCycle(w) => UnderLease(s, ev, p, w)
      case Commit(w) => UnderLease(s, ev, p, w)
      case NoteError(w) => UnderLease(s, ev, p, w)
      case Release(w) => L.Release(p, w, s.workers[w].fence)
      case Foreign(op) => Retarget(op, p)
      case _ => NOTHING)
  }

  ghost predicate Steps(s: seq<D.System>, e: seq<D.Event>) {
    |s| == |e| + 1 && forall i :: 0 <= i < |e| ==> D.Enabled(s[i], e[i])
  }

  /** The lease table after the first `n` steps, starting without a row. */
  ghost function Table(s: seq<D.System>, e: seq<D.Event>, p: L.Provider, n: nat): L.Db
    requires Steps(s, e) && n <= |e|
  {
    if n == 0 then L.Db(map[], map[]) else L.Step(Table(s, e, p, n - 1), LeaseEvent(s[n - 1], e[n - 1], p)).0
  }

  ghost function Tables(s: seq<D.System>, e: seq<D.Event>, p: L.Provider): (dbs: seq<L.Db>)
    requires Steps(s, e)
    ensures |dbs| == |s| && forall i :: 0 <= i <= |e| ==> dbs[i] == Table(s, e, p, i)
  {
    seq(|s|, i requires 0 <= i <= |e| => Table(s, e, p, i))
  }

  ghost function LeaseEvents(s: seq<D.System>, e: seq<D.Event>, p: L.Provider): (evs: seq<L.Event>)
    requires Steps(s, e)
    ensures |evs| == |e| && forall i :: 0 <= i < |e| ==> evs[i] == LeaseEvent(s[i], e[i], p)
  {
    seq(|e|, i requires 0 <= i < |e| => LeaseEvent(s[i], e[i], p))
  }

  /** Transactions lock the row one after the other: each reads its clock when the ones
      before it have ended. */
  ghost predicate InLockOrder(s: seq<D.System>, e: seq<D.Event>, p: L.Provider) {
    Steps(s, e) &&
    var evs := LeaseEvents(s, e, p);
    forall i, j :: 0 <= i < j < |evs| && L.RowOf(evs[i].op).Some? && L.RowOf(evs[i].op) == L.Sees(evs[j].op)
      ==> L.EndOf(evs[i]) <= evs[j].now
  }

  // ---------------------------------------------------------------------------
  // The simulation
  // ---------------------------------------------------------------------------

  /** The table's row is the sweep's lease, but for the times a seeded row carries. */
  predicate SameRow(db: L.Db, p: L.Provider, l: L.Lease) {
    && db.jobs == map[]
    && var row := L.Row(db, p, 0);
       row.owner == l.owner && row.fence == l.fence && row.expiresAt == l.expiresAt && row.job == l.job
  }

  lemma ForeignSimulates(db: L.Db, l: L.Lease, op: L.Op, checked: int, p: L.Provider)
    requires SameRow(db, p, l) && L.WellFormed(L.Event(checked, op))
    ensures SameRow(L.Step(db, L.Event(checked, Retarget(op, p))).0, p, D.ForeignLease(l, op, checked))
    ensures L.WellFormed(L.Event(checked, Retarget(op, p)))
  {
    assert forall ids :: L.AbandonAll(map[], ids) == map[];
  }

  lemma ClaimSimulates(db: L.Db, l: L.Lease, p: L.Provider, w: D.Token, ttl: int, checked: int)
    requires SameRow(db, p, l)
    ensures var after := L.ClaimRow(l, w, ttl, None, checked);
      SameRow(L.Step(db, L.Event(checked, L.Claim(p, w, ttl, None))).0, p, if after.Some? then after.value else l)
  {
  }

  lemma ReleaseSimulates(db: L.Db, l: L.Lease, p: L.Provider, w: D.Token, fence: nat, checked: int)
    requires SameRow(db, p, l) && w != L.NO_OWNER
    ensures SameRow(L.Step(db, L.Event(checked, L.Release(p, w, fence))).0, p,
      if l.owner == w && l.fence == fence
      then l.(owner := L.NO_OWNER, expiresAt := 0, heartbeatAt := 0, job := None) else l)
  {
  }

  lemma LeasedSimulates(db: L.Db, l: L.Lease, p: L.Provider, w: D.Token, fence: nat, checked: int, elapsed: nat)
    requires SameRow(db, p, l) && w != L.NO_OWNER
    ensures var ev := L.Event(checked, L.Leased(p, w, fence, elapsed, L.Quiet));
      && (L.Succeeds(db, ev) <==> L.Usable(l, w, fence, checked))
      && SameRow(L.Step(db, ev).0, p, if L.Succeeds(db, ev) then L.Heartbeat(l, checked + elapsed) else l)
  {
  }

  lemma UnderLeaseSimulates(provider: D.Provider, db: L.Db, s: D.System, ev: D.Event, p: L.Provider, w: D.Token)
    requires D.Enabled(s, ev) && SameRow(db, p, s.lease) && w != L.NO_OWNER
    requires ev.act in {D.Restart(w), D.StartCycle(w), D.Commit(w), D.NoteError(w)}
    ensures SameRow(L.Step(db, LeaseEvent(s, ev, p)).0, p, D.Apply(provider, s, ev).lease)
  {
    LeasedSimulates(db, s.lease, p, w, s.workers[w].fence, ev.checked, ev.now - ev.checked);
    hide L.Step, SameRow, L.Usable;
  }

  lemma OtherSimulates(provider: D.Provider, db: L.Db, s: D.System, ev: D.Event, p: L.Provider)
    requires D.Enabled(s, ev) && SameRow(db, p, s.lease) && LeaseEvent(s, ev, p).op == NOTHING && !ev.act.Foreign?
    ensures SameRow(L.Step(db, LeaseEvent(s, ev, p)).0, p, D.Apply(provider, s, ev).lease)
  {
    assert L.Step(db, LeaseEvent(s, ev, p)).0 == db;
    hide SameRow, L.Step;
  }

  lemma StepSimulates(provider: D.Provider, db: L.Db, s: D.System, ev: D.Event, p: L.Provider)
    requires D.Enabled(s, ev) && SameRow(db, p, s.lease) && L.NO_OWNER !in s.workers
    ensures SameRow(L.Step(db, LeaseEvent(s, ev, p)).0, p, D.Apply(provider, s, ev).lease)
  {
    hide SameRow, L.Step;
    match ev.act
    case Claim(w, _, ttl, _) => ClaimSimulates(db, s.lease, p, w, ttl, ev.checked);
    case Restart(w) => UnderLeaseSimulates(provider, db, s, ev, p, w);
    case StartCycle(w) => UnderLeaseSimulates(provider, db, s, ev, p, w);
    case Commit(w) => UnderLeaseSimulates(provider, db, s, ev, p, w);
    case NoteError(w) => UnderLeaseSimulates(provider, db, s, ev, p, w);
    case Release(w) => ReleaseSimulates(db, s.lease, p, w, s.workers[w].fence, ev.checked);
    case Foreign(op) => ForeignSimulates(db, s.lease, op, ev.checked, p);
    case _ => OtherSimulates(provider, db, s, ev, p);
  }

  /** Workers are not forgotten, keep their fence, and have tokens. */
  predicate KeepsWorkers(s: D.System, s': D.System) {
    && (forall v :: v in s.workers ==> v in s'.workers && s'.workers[v].fence == s.workers[v].fence)
    && (L.NO_OWNER in s'.workers ==> L.NO_OWNER in s.workers)
  }

  lemma ClaimKeepsWorkers(provider: D.Provider, s: D.System, ev: D.Event)
    requires D.Enabled(s, ev) && (ev.act.Claim? || ev.act.Read?)
    ensures KeepsWorkers(s, D.Apply(provider, s, ev))
  {
    hide D.PhaseAfterRead, L.ClaimRow;
  }

  lemma OpenKeepsWorkers(provider: D.Provider, s: D.System, ev: D.Event)
    requires D.Enabled(s, ev) && (ev.act.Restart? || ev.act.StartCycle?)
    ensures KeepsWorkers(s, D.Apply(provider, s, ev))
  {
    hide D.Usable;
  }

  lemma PageKeepsWorkers(provider: D.Provider, s: D.System, ev: D.Event)
    requires D.Enabled(s, ev) && (ev.act.Fetch? || ev.act.Commit?)
    ensures KeepsWorkers(s, D.Apply(provider, s, ev))
  {
    hide D.Persist, D.ChargeMisses, D.PersistCharges, D.AddCharges, D.Usable, D.Request;
  }

  lemma EndKeepsWorkers(provider: D.Provider, s: D.System, ev: D.Event)
    requires D.Enabled(s, ev) && (ev.act.NoteError? || ev.act.Stop? || ev.act.Release? || ev.act.Crash?)
    ensures KeepsWorkers(s, D.Apply(provider, s, ev))
  {
    hide D.Usable;
  }

  lemma StepKeepsWorkers(provider: D.Provider, s: D.System, ev: D.Event)
    requires D.Enabled(s, ev)
    ensures KeepsWorkers(s, D.Apply(provider, s, ev))
  {
    if ev.act.Claim? || ev.act.Read? {
      ClaimKeepsWorkers(provider, s, ev);
    } else if ev.act.Restart? || ev.act.StartCycle? {
      OpenKeepsWorkers(provider, s, ev);
    } else if ev.act.Fetch? || ev.act.Commit? {
      PageKeepsWorkers(provider, s, ev);
    } else if ev.act.NoteError? || ev.act.Stop? || ev.act.Release? || ev.act.Crash? {
      EndKeepsWorkers(provider, s, ev);
    }
  }

  lemma LeaseEventWellFormed(s: D.System, ev: D.Event, p: L.Provider)
    requires D.Enabled(s, ev) && L.NO_OWNER !in s.workers
    ensures L.WellFormed(LeaseEvent(s, ev, p))
  {
  }

  lemma {:induction false} TableFollows(provider: D.Provider, s: seq<D.System>, e: seq<D.Event>, p: L.Provider, n: nat)
    requires D.Run(provider, s, e) && Steps(s, e) && n <= |e|
    ensures SameRow(Table(s, e, p, n), p, s[n].lease) && L.NO_OWNER !in s[n].workers
  {
    if n > 0 {
      TableFollows(provider, s, e, p, n - 1);
      assert D.Taken(provider, s, e, n - 1);
      StepKeepsWorkers(provider, s[n - 1], e[n - 1]);
      StepSimulates(provider, Table(s, e, p, n - 1), s[n - 1], e[n - 1], p);
    }
  }

  /** Every run of the workers, with its locks taken in order, is a run of the lease
      protocol on the same row. */
  lemma SweepRunsAreLeaseRuns(provider: D.Provider, s: seq<D.System>, e: seq<D.Event>, p: L.Provider)
    requires D.Run(provider, s, e) && InLockOrder(s, e, p)
    ensures L.Run(Tables(s, e, p), LeaseEvents(s, e, p))
    ensures forall i :: 0 <= i <= |e| ==> SameRow(Tables(s, e, p)[i], p, s[i].lease)
  {
    var dbs, evs := Tables(s, e, p), LeaseEvents(s, e, p);
    forall i | 0 <= i <= |e| ensures SameRow(dbs[i], p, s[i].lease) {
      TableFollows(provider, s, e, p, i);
    }
    forall i | 0 <= i < |e| ensures L.Taken(dbs, evs, i) {
      TableFollows(provider, s, e, p, i);
      LeaseEventWellFormed(s[i], e[i], p);
    }
  }

  // ---------------------------------------------------------------------------
  // What the workers inherit
  // ---------------------------------------------------------------------------

  /** A committed page is a successful leased transaction of its worker. */
  lemma CommitIsLeased(provider: D.Provider, s: seq<D.System>, e: seq<D.Event>, p: L.Provider, i: nat, w: D.Token)
    requires D.Run(provider, s, e) && InLockOrder(s, e, p) && D.CommitsAt(s, e, i, w)
    ensures var op := LeaseEvents(s, e, p)[i].op;
      && op.Leased? && op.p == p && op.owner == w && op.fence == s[i].workers[w].fence
      && L.Succeeds(Tables(s, e, p)[i], LeaseEvents(s, e, p)[i])
  {
    TableFollows(provider, s, e, p, i);
    assert D.Taken(provider, s, e, i);
    LeasedSimulates(Table(s, e, p, i), s[i].lease, p, w, s[i].workers[w].fence, e[i].checked, e[i].now - e[i].checked);
    hide L.Step, SameRow, D.Apply;
  }

  /** So every page is committed inside the tenure its worker was granted, which is the
      latest, and all tenures are disjoint in time. */
  lemma PageLiesInTenure(provider: D.Provider, s: seq<D.System>, e: seq<D.Event>, p: L.Provider, i: nat, w: D.Token)
    requires D.Run(provider, s, e) && InLockOrder(s, e, p) && D.CommitsAt(s, e, i, w)
    ensures var h := L.Tenures(Tables(s, e, p), LeaseEvents(s, e, p), p, i);
      && L.Ordered(h) && 0 < |h| == s[i].workers[w].fence && h[|h| - 1].owner == w
      && h[|h| - 1].from <= e[i].checked < h[|h| - 1].until
  {
    SweepRunsAreLeaseRuns(provider, s, e, p);
    CommitIsLeased(provider, s, e, p, i, w);
    L.TenuresDisjoint(Tables(s, e, p), LeaseEvents(s, e, p), p, i);
    L.UseLiesInTenure(Tables(s, e, p), LeaseEvents(s, e, p), p, i);
  }

  /** Pages are committed in fence order, and a fence commits for one worker only. */
  lemma PagesInFenceOrder(
      provider: D.Provider, s: seq<D.System>, e: seq<D.Event>, p: L.Provider, i: nat, j: nat, v: D.Token, w: D.Token)
    requires D.Run(provider, s, e) && InLockOrder(s, e, p) && i <= j
    requires D.CommitsAt(s, e, i, v) && D.CommitsAt(s, e, j, w)
    ensures s[i].workers[v].fence <= s[j].workers[w].fence
    ensures s[i].workers[v].fence == s[j].workers[w].fence ==> v == w
  {
    var dbs, evs := Tables(s, e, p), LeaseEvents(s, e, p);
    SweepRunsAreLeaseRuns(provider, s, e, p);
    CommitIsLeased(provider, s, e, p, i, v);
    CommitIsLeased(provider, s, e, p, j, w);
    L.CommitsInFenceOrder(dbs, evs, p, i, j);
    PageLiesInTenure(provider, s, e, p, i, v);
    PageLiesInTenure(provider, s, e, p, j, w);
    L.TenureOwnersKept(dbs, evs, p, i, j);
  }

  /** A worker keeps the fence it was granted. */
  lemma {:induction false} FenceOfWorkerKept(
      provider: D.Provider, s: seq<D.System>, e: seq<D.Event>, i: nat, j: nat, v: D.Token)
    requires D.Run(provider, s, e) && i <= j <= |e| && v in s[i].workers
    ensures v in s[j].workers && s[j].workers[v].fence == s[i].workers[v].fence
    decreases j
  {
    if i < j {
      FenceOfWorkerKept(provider, s, e, i, j - 1, v);
      assert D.Taken(provider, s, e, j - 1);
      StepKeepsWorkers(provider, s[j - 1], e[j - 1]);
    }
  }

  /** Hence, among all workers of a provider, the pages that one of them commits are not
      interleaved with pages of any other, however slow or stale the others are. */
  lemma CommitsNotInterleaved(
      provider: D.Provider, s: seq<D.System>, e: seq<D.Event>, p: L.Provider,
      i: nat, k: nat, j: nat, v: D.Token, w: D.Token)
    requires D.Run(provider, s, e) && InLockOrder(s, e, p) && i <= k <= j
    requires D.CommitsAt(s, e, i, v) && D.CommitsAt(s, e, k, w) && D.CommitsAt(s, e, j, v)
    ensures v == w
  {
    FenceOfWorkerKept(provider, s, e, i, j, v);
    PagesInFenceOrder(provider, s, e, p, i, k, v, w);
    PagesInFenceOrder(provider, s, e, p, k, j, w, v);
  }
}
