/** Fenced provider leases: one row per provider, plus the import jobs that the
    recovery steps may abandon.

    `Step` gives every database transaction of the service as one atomic step.
    `ProviderLeaseService` holds the same rows as mutable fields and is proved to
    take exactly those steps; the lemmas are about every run of them. */
module Leases {
  import opened Wrappers

  datatype Provider = Copart | Iaai

  type Token = string
  type JobId = string

  const NO_OWNER: Token := ""
  const HEARTBEAT_MS: int := 60_000

  /** `owner == NO_OWNER` marks a seeded or released row. */
  datatype Lease = Lease(
    owner: Token, fence: nat, acquiredAt: int, heartbeatAt: int, expiresAt: int, job: Option<JobId>)

  datatype JobStatus = Pending | Running | Success | PartialSuccess | Failed | Abandoned

  datatype Job = Job(provider: Provider, status: JobStatus)

  datatype Db = Db(leases: map<Provider, Lease>, jobs: map<JobId, Job>)

  /** What the callback of a leased transaction does besides the heartbeat. */
  datatype Body = Throws | Quiet | Finish(job: JobId, status: JobStatus)

  datatype Op =
    | Claim(p: Provider, owner: Token, ttl: int, wanted: Option<JobId>)
    | ClaimWithRecovery(p: Provider, owner: Token, ttl: int, claimer: JobId)
    | Renew(p: Provider, owner: Token, fence: nat, ttl: int)
    | Release(p: Provider, owner: Token, fence: nat)
    | Verify(p: Provider, owner: Token, fence: nat)
    | Leased(p: Provider, owner: Token, fence: nat, elapsed: nat, body: Body)
    | Recover(p: Provider)
    | CreateJob(id: JobId, p: Provider)
    | WriteJob(id: JobId, status: JobStatus)

  datatype Event = Event(now: int, op: Op)

  datatype Reply = Granted(fence: nat, recovered: set<JobId>) | Accepted | Recovered(recovered: set<JobId>) | Refused

  // ---------------------------------------------------------------------------
  // One row
  // ---------------------------------------------------------------------------

  /** The row `ensureAndLockLeaseRow` inserts when the provider has none. */
  function Seeded(now: int): Lease { Lease(NO_OWNER, 0, now, now, 0, None) }

  predicate Owned(l: Lease) { l.owner != NO_OWNER }

  /** Other claimants stay out up to and including the expiry instant. */
  predicate Blocking(l: Lease, now: int) { Owned(l) && now <= l.expiresAt }

  /** The owner itself may act only strictly before the expiry instant. */
  predicate Usable(l: Lease, owner: Token, fence: nat, now: int) {
    l.owner == owner && l.fence == fence && now < l.expiresAt
  }

  function Extend(l: Lease, ttl: int, wanted: Option<JobId>, now: int): Lease {
    l.(heartbeatAt := now, expiresAt := now + ttl, job := if wanted.Some? then wanted else l.job)
  }

  function Grant(l: Lease, owner: Token, ttl: int, wanted: Option<JobId>, now: int): Lease {
    Lease(owner, l.fence + 1, now, now, now + ttl, wanted)
  }

  function ClaimRow(l: Lease, owner: Token, ttl: int, wanted: Option<JobId>, now: int): Option<Lease> {
    if !Blocking(l, now) then Some(Grant(l, owner, ttl, wanted, now))
    else if l.owner == owner then Some(Extend(l, ttl, wanted, now))
    else None
  }

  function Heartbeat(l: Lease, later: int): Lease {
    l.(heartbeatAt := later, expiresAt := Max(l.expiresAt, later + HEARTBEAT_MS))
  }

  // ---------------------------------------------------------------------------
  // One transaction
  // ---------------------------------------------------------------------------

  function Row(db: Db, p: Provider, now: int): Lease {
    if p in db.leases then db.leases[p] else Seeded(now)
  }

  function Fence(db: Db, p: Provider): nat { if p in db.leases then db.leases[p].fence else 0 }

  predicate Active(j: Job) { j.status.Pending? || j.status.Running? }

  function ActiveJobs(db: Db, p: Provider): set<JobId> {
    set id | id in db.jobs && db.jobs[id].provider == p && Active(db.jobs[id])
  }

  function AbandonAll(jobs: map<JobId, Job>, ids: set<JobId>): map<JobId, Job> {
    map id | id in jobs :: if id in ids then jobs[id].(status := Abandoned) else jobs[id]
  }

  /** The job a live lease protects from stale-job recovery. */
  function Shielded(l: Lease, now: int): set<JobId> {
    if Owned(l) && now < l.expiresAt && l.job.Some? then {l.job.value} else {}
  }

  function SetRow(db: Db, p: Provider, l: Lease): Db { db.(leases := db.leases[p := l]) }

  predicate Holds(db: Db, p: Provider, owner: Token, fence: nat) {
    p in db.leases && db.leases[p].owner == owner && db.leases[p].fence == fence
  }

  predicate BodyCommits(db: Db, body: Body) {
    match body
    case Throws => false
    case Quiet => true
    case Finish(job, _) => job in db.jobs
  }

  function BodyJobs(db: Db, body: Body): map<JobId, Job> {
    if body.Finish? && body.job in db.jobs
    then db.jobs[body.job := db.jobs[body.job].(status := body.status)]
    else db.jobs
  }

  function Step(db: Db, ev: Event): (Db, Reply) {
    var now := ev.now;
    match ev.op
    case Claim(p, owner, ttl, wanted) =>
      (match ClaimRow(Row(db, p, now), owner, ttl, wanted, now)
       case None => (db, Refused)
       case Some(l) => (SetRow(db, p, l), Granted(l.fence, {})))
    case ClaimWithRecovery(p, owner, ttl, claimer) =>
      (match ClaimRow(Row(db, p, now), owner, ttl, Some(claimer), now)
       case None => (db, Refused)
       case Some(l) =>
         var stale := if Blocking(Row(db, p, now), now) then {} else ActiveJobs(db, p) - {claimer};
         (Db(db.leases[p := l], AbandonAll(db.jobs, stale)), Granted(l.fence, stale)))
    case Renew(p, owner, fence, ttl) =>
      if Holds(db, p, owner, fence) then (SetRow(db, p, Extend(db.leases[p], ttl, None, now)), Accepted)
      else (db, Refused)
    case Release(p, owner, fence) =>
      if Holds(db, p, owner, fence)
      then (SetRow(db, p, db.leases[p].(owner := NO_OWNER, expiresAt := 0, heartbeatAt := 0, job := None)), Accepted)
      else (db, Accepted)
    case Verify(p, owner, fence) =>
      (db, if p in db.leases && Usable(db.leases[p], owner, fence, now) then Accepted else Refused)
    case Leased(p, owner, fence, elapsed, body) =>
      if p in db.leases && Usable(db.leases[p], owner, fence, now) && BodyCommits(db, body)
      then (Db(db.leases[p := Heartbeat(db.leases[p], now + elapsed)], BodyJobs(db, body)), Accepted)
      else (db, Refused)
    case Recover(p) =>
      var l := Row(db, p, now);
      var stale := ActiveJobs(db, p) - Shielded(l, now);
      (Db(db.leases[p := l], AbandonAll(db.jobs, stale)), Recovered(stale))
    case CreateJob(id, p) =>
      if id in db.jobs then (db, Refused) else (db.(jobs := db.jobs[id := Job(p, Pending)]), Accepted)
    case WriteJob(id, status) =>
      if id in db.jobs then (db.(jobs := db.jobs[id := db.jobs[id].(status := status)]), Accepted) else (db, Refused)
  }

  // ---------------------------------------------------------------------------
  // Runs
  // ---------------------------------------------------------------------------

  /** What every caller in the repository provides: random non-empty tokens and
      non-negative lifetimes. Job status writes outside the lease lock only start
      or fail a job. */
  predicate WellFormed(ev: Event) {
    match ev.op
    case Claim(_, owner, ttl, _) => owner != NO_OWNER && ttl >= 0
    case ClaimWithRecovery(_, owner, ttl, _) => owner != NO_OWNER && ttl >= 0
    case Renew(_, owner, _, ttl) => owner != NO_OWNER && ttl >= 0
    case Release(_, owner, _) => owner != NO_OWNER
    case Verify(_, owner, _) => owner != NO_OWNER
    case Leased(_, owner, _, _, body) => owner != NO_OWNER && (body.Finish? ==> !body.status.Abandoned?)
    case WriteJob(_, status) => status.Running? || status.Failed?
    case _ => true
  }

  function EndOf(ev: Event): int { if ev.op.Leased? then ev.now + ev.op.elapsed else ev.now }

  /** The provider whose row an operation locks until it commits. */
  function RowOf(op: Op): Option<Provider> {
    if op.CreateJob? || op.WriteJob? || op.Verify? then None else Some(op.p)
  }

  /** The provider whose row an operation locks or reads. */
  function Sees(op: Op): Option<Provider> { if op.Verify? then Some(op.p) else RowOf(op) }

  predicate Taken(s: seq<Db>, e: seq<Event>, i: nat)
    requires |s| == |e| + 1 && i < |e|
  {
    WellFormed(e[i]) && s[i + 1] == Step(s[i], e[i]).0
  }

  /** States and events of one interleaving of all workers, in commit order: a
      transaction sees a row only after the earlier ones that locked it have ended. */
  ghost predicate Run(s: seq<Db>, e: seq<Event>) {
    && |s| == |e| + 1
    && (forall i :: 0 <= i < |e| ==> Taken(s, e, i))
    && (forall i, j :: 0 <= i < j < |e| && RowOf(e[i].op).Some? && RowOf(e[i].op) == Sees(e[j].op)
          ==> EndOf(e[i]) <= e[j].now)
  }

  predicate IsClaim(op: Op, p: Provider) { (op.Claim? || op.ClaimWithRecovery?) && op.p == p }

  /** A claim that found the provider free. */
  predicate Fresh(db: Db, ev: Event, p: Provider) { IsClaim(ev.op, p) && !Blocking(Row(db, p, ev.now), ev.now) }

  predicate Succeeds(db: Db, ev: Event) { !Step(db, ev).1.Refused? }

  /** The operations that present a fence and are refused without it. */
  predicate Fenced(op: Op, p: Provider) { (op.Renew? || op.Verify? || op.Leased?) && op.p == p }

  lemma FenceStep(db: Db, ev: Event, p: Provider)
    ensures Fence(Step(db, ev).0, p) == Fence(db, p) + (if Fresh(db, ev, p) then 1 else 0)
  {
  }

  /** Between two points of a run the fence has risen by exactly the number of fresh grants. */
  ghost function FreshGrants(s: seq<Db>, e: seq<Event>, p: Provider, i: nat, j: nat): nat
    requires |s| == |e| + 1 && i <= j <= |e|
    decreases j
  {
    if i == j then 0 else FreshGrants(s, e, p, i, j - 1) + (if Fresh(s[j - 1], e[j - 1], p) then 1 else 0)
  }

  lemma {:induction false} FenceCountsGrants(s: seq<Db>, e: seq<Event>, p: Provider, i: nat, j: nat)
    requires Run(s, e) && i <= j <= |e|
    ensures Fence(s[j], p) == Fence(s[i], p) + FreshGrants(s, e, p, i, j)
    decreases j
  {
    if i < j {
      FenceCountsGrants(s, e, p, i, j - 1);
      assert Taken(s, e, j - 1);
      FenceStep(s[j - 1], e[j - 1], p);
    }
  }

  /** Once a higher fence exists, nothing presented with a lower one ever succeeds
      again; not even a late release changes the database. */
  lemma StaleFenceIsDead(s: seq<Db>, e: seq<Event>, p: Provider, i: nat, j: nat)
    requires Run(s, e) && i <= j < |e|
    requires Fenced(e[j].op, p) || (e[j].op.Release? && e[j].op.p == p)
    requires e[j].op.fence < Fence(s[i], p)
    ensures s[j + 1] == s[j]
    ensures Fenced(e[j].op, p) ==> !Succeeds(s[j], e[j])
  {
    FenceCountsGrants(s, e, p, i, j);
    assert Taken(s, e, j);
  }

  /** Successful fenced operations happen in fence order, and each of them carries
      the fence of the latest grant. */
  lemma CommitsInFenceOrder(s: seq<Db>, e: seq<Event>, p: Provider, i: nat, j: nat)
    requires Run(s, e) && i <= j < |e|
    requires Fenced(e[i].op, p) && Succeeds(s[i], e[i])
    requires Fenced(e[j].op, p) && Succeeds(s[j], e[j])
    ensures e[i].op.fence <= e[j].op.fence
    ensures e[j].op.fence == e[i].op.fence + FreshGrants(s, e, p, i, j)
  {
    FenceCountsGrants(s, e, p, i, j);
    assert Taken(s, e, j);
  }

  // ---------------------------------------------------------------------------
  // What each transaction leaves of the row
  // ---------------------------------------------------------------------------

  /** A granted claim: a new row with the next fence, or the owner's own row extended. */
  lemma ClaimedRow(db: Db, ev: Event, p: Provider)
    requires IsClaim(ev.op, p) && ev.op.owner != "" && Succeeds(db, ev)
    ensures p in Step(db, ev).0.leases
    ensures var row, job := Step(db, ev).0.leases[p], if ev.op.Claim? then ev.op.wanted else Some(ev.op.claimer);
      && row.owner == ev.op.owner && row.heartbeatAt == ev.now && row.expiresAt == ev.now + ev.op.ttl
      && (p in db.leases && db.leases[p].owner == ev.op.owner && ev.now <= db.leases[p].expiresAt ==>
            && row.fence == db.leases[p].fence && row.acquiredAt == db.leases[p].acquiredAt
            && row.job == if job.Some? then job else db.leases[p].job)
      && (!(p in db.leases && db.leases[p].owner == ev.op.owner && ev.now <= db.leases[p].expiresAt) ==>
            && row.fence == (if p in db.leases then db.leases[p].fence else 0) + 1
            && row.acquiredAt == ev.now && row.job == job)
    ensures Step(db, ev).1.Granted? && Step(db, ev).1.fence == Step(db, ev).0.leases[p].fence
  {
  }

  /** A renewal is accepted exactly if the row has this owner and fence, expired or not,
      and then lasts for the whole new lifetime. */
  lemma RenewedRow(db: Db, ev: Event)
    requires ev.op.Renew?
    ensures var p := ev.op.p;
      && (Succeeds(db, ev) <==>
            p in db.leases && db.leases[p].owner == ev.op.owner && db.leases[p].fence == ev.op.fence)
      && (!Succeeds(db, ev) ==> Step(db, ev).0 == db)
      && (Succeeds(db, ev) ==>
            && p in Step(db, ev).0.leases && Step(db, ev).0.jobs == db.jobs
            && var row, after := db.leases[p], Step(db, ev).0.leases[p];
              && after.expiresAt == ev.now + ev.op.ttl && after.heartbeatAt == ev.now
              && after.owner == row.owner && after.fence == row.fence && after.acquiredAt == row.acquiredAt
              && after.job == row.job)
  {
  }

  /** A release under owner and fence frees the row and keeps the fence. */
  lemma ReleasedRow(db: Db, ev: Event)
    requires ev.op.Release? && ev.op.owner != ""
    ensures var p := ev.op.p;
      var mine := p in db.leases && db.leases[p].owner == ev.op.owner && db.leases[p].fence == ev.op.fence;
      && Step(db, ev).1.Accepted? && Step(db, ev).0.jobs == db.jobs
      && (!mine ==> Step(db, ev).0 == db)
      && (mine ==>
            && p in Step(db, ev).0.leases
            && var after := Step(db, ev).0.leases[p];
              && after.owner == "" && after.expiresAt == 0 && after.heartbeatAt == 0 && after.job.None?
              && after.fence == db.leases[p].fence && after.acquiredAt == db.leases[p].acquiredAt)
  {
  }

  /** A leased commit keeps the row but for its heartbeat, which lasts a minute at least. */
  lemma LeasedRow(db: Db, ev: Event)
    requires ev.op.Leased? && Succeeds(db, ev)
    ensures var p := ev.op.p;
      && p in db.leases && p in Step(db, ev).0.leases
      && var row, after, end := db.leases[p], Step(db, ev).0.leases[p], ev.now + ev.op.elapsed;
        && after.heartbeatAt == end
        && after.expiresAt == (if row.expiresAt < end + 60_000 then end + 60_000 else row.expiresAt)
        && after.owner == row.owner && after.fence == row.fence && after.acquiredAt == row.acquiredAt
        && after.job == row.job
  {
  }

  /** No transaction between the two events locks the provider's row. */
  ghost predicate RowUntouched(e: seq<Event>, p: Provider, i: nat, j: nat)
    requires j <= |e|
  {
    forall k :: i < k < j ==> RowOf(e[k].op) != Some(p)
  }

  lemma {:induction false} UntouchedRowStays(s: seq<Db>, e: seq<Event>, p: Provider, i: nat, j: nat)
    requires Run(s, e) && i < j <= |e| && p in s[i + 1].leases && RowUntouched(e, p, i, j)
    ensures p in s[j].leases && s[j].leases[p] == s[i + 1].leases[p]
    decreases j
  {
    if i + 1 < j {
      UntouchedRowStays(s, e, p, i, j - 1);
      assert Taken(s, e, j - 1);
    }
  }

  /** A check or a leased commit is accepted exactly for the row's owner and fence, strictly
      before the expiry instant, unless the callback throws or finishes a missing job. */
  lemma AcceptedExactly(db: Db, ev: Event)
    requires ev.op.Verify? || ev.op.Leased?
    ensures Succeeds(db, ev) <==>
      && ev.op.p in db.leases && db.leases[ev.op.p].owner == ev.op.owner && db.leases[ev.op.p].fence == ev.op.fence
      && ev.now < db.leases[ev.op.p].expiresAt
      && (ev.op.Leased? ==> !ev.op.body.Throws? && (ev.op.body.Finish? ==> ev.op.body.job in db.jobs))
    ensures ev.op.Verify? || !Succeeds(db, ev) ==> Step(db, ev).0 == db
  {
  }

  /** In every run, after an accepted renewal and until the next transaction on the row, the
      owner's checks and leased commits succeed exactly before `now + ttl`: a lease that
      had run out, and that nobody else claimed, is alive again. */
  lemma RenewedLeaseLives(s: seq<Db>, e: seq<Event>, p: Provider, i: nat, j: nat)
    requires Run(s, e) && i < j < |e| && e[i].op.Renew? && e[i].op.p == p && Succeeds(s[i], e[i])
    requires RowUntouched(e, p, i, j)
    requires (e[j].op.Verify? || (e[j].op.Leased? && BodyCommits(s[j], e[j].op.body))) && e[j].op.p == p
    requires e[j].op.owner == e[i].op.owner && e[j].op.fence == e[i].op.fence
    ensures Succeeds(s[j], e[j]) <==> e[j].now < e[i].now + e[i].op.ttl
  {
    assert Taken(s, e, i);
    RenewedRow(s[i], e[i]);
    UntouchedRowStays(s, e, p, i, j);
  }

  // ---------------------------------------------------------------------------
  // Mutual exclusion and tenures
  // ---------------------------------------------------------------------------

  /** A claim is refused exactly while another owner's lease is unreleased and its
      expiry instant has not passed, the instant itself included. */
  lemma ClaimRefusedIffBlocked(db: Db, ev: Event, p: Provider)
    requires IsClaim(ev.op, p) && ev.op.owner != NO_OWNER
    ensures !Succeeds(db, ev)
      <==> p in db.leases && db.leases[p].owner !in {NO_OWNER, ev.op.owner} && ev.now <= db.leases[p].expiresAt
    ensures !Succeeds(db, ev) ==> Step(db, ev).0 == db
    ensures Succeeds(db, ev) ==>
      && Holds(Step(db, ev).0, p, ev.op.owner, Step(db, ev).1.fence)
      && Step(db, ev).0.leases[p].expiresAt == ev.now + ev.op.ttl
  {
  }

  lemma LeasedNeverShortens(db: Db, ev: Event)
    requires ev.op.Leased? && Succeeds(db, ev)
    ensures var p := ev.op.p; var after := Step(db, ev).0;
      && db.leases[p].expiresAt <= after.leases[p].expiresAt
      && EndOf(ev) + HEARTBEAT_MS <= after.leases[p].expiresAt
      && Usable(after.leases[p], ev.op.owner, ev.op.fence, EndOf(ev))
  {
  }

  /** The time a fence was in force: from its grant to the last expiry it was given
      or to its release. */
  datatype Tenure = Tenure(owner: Token, fence: nat, from: int, until: int)

  /** The history with another end of its last tenure. */
  function EndLastAt(h: seq<Tenure>, until: int): seq<Tenure>
    requires h != []
  {
    h[..|h| - 1] + [h[|h| - 1].(until := until)]
  }

  function TrackRow(h: seq<Tenure>, before: Lease, after: Lease, granted: bool, now: int): seq<Tenure> {
    if granted then h + [Tenure(after.owner, after.fence, now, after.expiresAt)]
    else if h == [] then h
    else if Owned(after) then EndLastAt(h, after.expiresAt)
    else if Owned(before) then EndLastAt(h, Min(h[|h| - 1].until, now))
    else h
  }

  function Track(h: seq<Tenure>, db: Db, ev: Event, p: Provider): seq<Tenure> {
    TrackRow(h, Row(db, p, ev.now), Row(Step(db, ev).0, p, ev.now), Fresh(db, ev, p), ev.now)
  }

  ghost function Tenures(s: seq<Db>, e: seq<Event>, p: Provider, n: nat): seq<Tenure>
    requires |s| == |e| + 1 && n <= |e|
  {
    if n == 0 then [] else Track(Tenures(s, e, p, n - 1), s[n - 1], e[n - 1], p)
  }

  predicate Ordered(h: seq<Tenure>) {
    && (forall k :: 0 <= k < |h| ==> h[k].fence == k + 1 && h[k].from <= h[k].until)
    && (forall a, b :: 0 <= a < b < |h| ==> h[a].until <= h[b].from)
  }

  /** How the tenures so far relate to the row, at any time no earlier than its last transaction. */
  predicate TenureInv(h: seq<Tenure>, l: Lease, clock: int) {
    && Ordered(h) && |h| == l.fence
    && (forall k :: 0 <= k < |h| ==> h[k].from <= clock)
    && (Owned(l) ==> |h| > 0 && h[|h| - 1].owner == l.owner && h[|h| - 1].until == l.expiresAt)
    && (!Owned(l) && |h| > 0 ==> h[|h| - 1].until <= clock)
  }

  /** The four things a transaction can do to a row. */
  predicate RowMove(before: Lease, after: Lease, granted: bool, now: int) {
    if granted then !Blocking(before, now) && Owned(after) && after.fence == before.fence + 1 && now <= after.expiresAt
    else if Owned(after) then
      && after.owner == before.owner && after.fence == before.fence
      && (after.expiresAt == before.expiresAt || now <= after.expiresAt)
    else after.fence == before.fence
  }

  lemma StepMovesRow(db: Db, ev: Event, p: Provider)
    requires WellFormed(ev)
    ensures RowMove(Row(db, p, ev.now), Row(Step(db, ev).0, p, ev.now), Fresh(db, ev, p), ev.now)
    ensures RowOf(ev.op) != Some(p) ==> Row(Step(db, ev).0, p, ev.now) == Row(db, p, ev.now)
  {
  }

  lemma GrantKeepsInv(h: seq<Tenure>, before: Lease, after: Lease, now: int)
    requires TenureInv(h, before, now) && RowMove(before, after, true, now)
    ensures TenureInv(h + [Tenure(after.owner, after.fence, now, after.expiresAt)], after, now)
  {
  }

  lemma EndLastKeepsOrder(h: seq<Tenure>, until: int)
    requires Ordered(h) && h != [] && h[|h| - 1].from <= until
    ensures Ordered(EndLastAt(h, until)) && |EndLastAt(h, until)| == |h|
    ensures forall k :: 0 <= k < |h| ==> EndLastAt(h, until)[k].from == h[k].from
    ensures EndLastAt(h, until)[|h| - 1] == h[|h| - 1].(until := until)
  {
  }

  lemma TrackKeepsInv(h: seq<Tenure>, before: Lease, after: Lease, granted: bool, now: int)
    requires TenureInv(h, before, now) && RowMove(before, after, granted, now)
    ensures TenureInv(TrackRow(h, before, after, granted, now), after, now)
  {
    if granted {
      GrantKeepsInv(h, before, after, now);
    } else if h != [] && Owned(after) {
      EndLastKeepsOrder(h, after.expiresAt);
    } else if h != [] && Owned(before) {
      EndLastKeepsOrder(h, Min(h[|h| - 1].until, now));
    }
  }

  lemma TrackOnRow(h: seq<Tenure>, db: Db, ev: Event, p: Provider)
    requires WellFormed(ev) && TenureInv(h, Row(db, p, ev.now), ev.now)
    ensures TenureInv(Track(h, db, ev, p), Row(Step(db, ev).0, p, ev.now), ev.now)
  {
    StepMovesRow(db, ev, p);
    TrackKeepsInv(h, Row(db, p, ev.now), Row(Step(db, ev).0, p, ev.now), Fresh(db, ev, p), ev.now);
  }

  lemma TrackOffRow(h: seq<Tenure>, db: Db, ev: Event, p: Provider, clock: int)
    requires WellFormed(ev) && TenureInv(h, Row(db, p, ev.now), clock) && RowOf(ev.op) != Some(p)
    ensures Track(h, db, ev, p) == h && Row(Step(db, ev).0, p, ev.now) == Row(db, p, ev.now)
  {
    StepMovesRow(db, ev, p);
  }

  lemma TrackStep(h: seq<Tenure>, db: Db, ev: Event, p: Provider, clock: int)
    requires WellFormed(ev)
    requires TenureInv(h, Row(db, p, ev.now), if RowOf(ev.op) == Some(p) then ev.now else clock)
    requires RowOf(ev.op) == Some(p) ==> EndOf(ev) <= clock
    ensures TenureInv(Track(h, db, ev, p), Row(Step(db, ev).0, p, ev.now), clock)
  {
    if RowOf(ev.op) == Some(p) {
      TrackOnRow(h, db, ev, p);
    } else {
      TrackOffRow(h, db, ev, p, clock);
    }
  }

  lemma SeedTimeIrrelevant(h: seq<Tenure>, db: Db, p: Provider, t: int, u: int, clock: int)
    requires TenureInv(h, Row(db, p, t), clock)
    ensures TenureInv(h, Row(db, p, u), clock)
  {
  }

  ghost predicate ClockPast(e: seq<Event>, p: Provider, n: nat, clock: int)
    requires n <= |e|
  {
    forall i :: 0 <= i < n && RowOf(e[i].op) == Some(p) ==> EndOf(e[i]) <= clock
  }

  lemma {:induction false} TenureInvHolds(s: seq<Db>, e: seq<Event>, p: Provider, n: nat, clock: int, t: int)
    requires Run(s, e) && n <= |e| && p !in s[0].leases && ClockPast(e, p, n, clock)
    ensures TenureInv(Tenures(s, e, p, n), Row(s[n], p, t), clock)
  {
    if n > 0 {
      var ev := e[n - 1];
      var before := if RowOf(ev.op) == Some(p) then ev.now else clock;
      assert ClockPast(e, p, n - 1, before);
      TenureInvHolds(s, e, p, n - 1, before, ev.now);
      assert Taken(s, e, n - 1);
      TrackStep(Tenures(s, e, p, n - 1), s[n - 1], ev, p, clock);
      SeedTimeIrrelevant(Tenures(s, e, p, n), s[n], p, ev.now, t, clock);
    }
  }

  ghost function ClockBound(e: seq<Event>, n: nat): (c: int)
    requires n <= |e|
    ensures forall i :: 0 <= i < n ==> EndOf(e[i]) <= c
  {
    if n == 0 then 0 else Max(ClockBound(e, n - 1), EndOf(e[n - 1]))
  }

  /** In every run from an empty table, the k-th tenure has fence k + 1, and the
      tenures are pairwise disjoint in time and ordered by fence. */
  lemma TenuresDisjoint(s: seq<Db>, e: seq<Event>, p: Provider, n: nat)
    requires Run(s, e) && n <= |e| && p !in s[0].leases
    ensures Ordered(Tenures(s, e, p, n)) && |Tenures(s, e, p, n)| == FreshGrants(s, e, p, 0, n)
  {
    TenureInvHolds(s, e, p, n, ClockBound(e, n), 0);
    FenceCountsGrants(s, e, p, 0, n);
  }

  /** Every ownership check and every leased commit that succeeds lies strictly
      inside the tenure of the fence it carries, and that tenure is the latest. */
  lemma UseLiesInTenure(s: seq<Db>, e: seq<Event>, p: Provider, n: nat)
    requires Run(s, e) && n < |e| && p !in s[0].leases
    requires (e[n].op.Verify? || e[n].op.Leased?) && e[n].op.p == p && Succeeds(s[n], e[n])
    ensures var h := Tenures(s, e, p, n);
      && 0 < |h| == e[n].op.fence && h[|h| - 1].owner == e[n].op.owner
      && h[|h| - 1].from <= e[n].now < h[|h| - 1].until
  {
    assert Taken(s, e, n);
    TenureInvHolds(s, e, p, n, e[n].now, e[n].now);
  }

  /** A tenure that has a successor is history: it never changes again. */
  lemma {:induction false} PastTenuresFrozen(s: seq<Db>, e: seq<Event>, p: Provider, m: nat, n: nat)
    requires |s| == |e| + 1 && m <= n <= |e|
    ensures |Tenures(s, e, p, m)| <= |Tenures(s, e, p, n)|
    ensures forall k :: 0 <= k < |Tenures(s, e, p, m)| - 1 ==> Tenures(s, e, p, n)[k] == Tenures(s, e, p, m)[k]
    decreases n
  {
    hide Track;
    if m < n {
      PastTenuresFrozen(s, e, p, m, n - 1);
      TrackFreezesPast(Tenures(s, e, p, n - 1), s[n - 1], e[n - 1], p);
    }
  }

  /** Nor does any tenure ever change its owner or its start. */
  lemma {:induction false} TenureOwnersKept(s: seq<Db>, e: seq<Event>, p: Provider, m: nat, n: nat)
    requires |s| == |e| + 1 && m <= n <= |e|
    ensures |Tenures(s, e, p, m)| <= |Tenures(s, e, p, n)|
    ensures forall k :: 0 <= k < |Tenures(s, e, p, m)| ==>
      && Tenures(s, e, p, n)[k].owner == Tenures(s, e, p, m)[k].owner
      && Tenures(s, e, p, n)[k].from == Tenures(s, e, p, m)[k].from
    decreases n
  {
    hide Track;
    if m < n {
      TenureOwnersKept(s, e, p, m, n - 1);
      TrackKeepsOwners(Tenures(s, e, p, n - 1), s[n - 1], e[n - 1], p);
    }
  }

  lemma TrackKeepsOwners(h: seq<Tenure>, db: Db, ev: Event, p: Provider)
    ensures |h| <= |Track(h, db, ev, p)|
    ensures forall k :: 0 <= k < |h| ==>
      Track(h, db, ev, p)[k].owner == h[k].owner && Track(h, db, ev, p)[k].from == h[k].from
  {
  }

  lemma TrackFreezesPast(h: seq<Tenure>, db: Db, ev: Event, p: Provider)
    ensures |h| <= |Track(h, db, ev, p)|
    ensures forall k :: 0 <= k < |h| - 1 ==> Track(h, db, ev, p)[k] == h[k]
  {
  }

  // ---------------------------------------------------------------------------
  // Recovery of stale jobs
  // ---------------------------------------------------------------------------

  /** Exactly which jobs one step turns into ABANDONED: active jobs of the provider
      being recovered, never the claimer's, never one bound to an unexpired lease. */
  lemma AbandonedExactly(db: Db, ev: Event, id: JobId)
    requires WellFormed(ev)
    requires id in db.jobs && !db.jobs[id].status.Abandoned?
    ensures id in Step(db, ev).0.jobs
    ensures Step(db, ev).0.jobs[id].status.Abandoned? <==>
      && Active(db.jobs[id])
      && RowOf(ev.op) == Some(db.jobs[id].provider)
      && ( || (ev.op.ClaimWithRecovery? && Fresh(db, ev, ev.op.p) && id != ev.op.claimer)
           || (ev.op.Recover? && id !in Shielded(Row(db, ev.op.p, ev.now), ev.now)))
  {
  }

  /** What becomes of every job: created pending, written as asked by a status write or by
      a leased commit that succeeds, abandoned by the two recoveries, and else unchanged. */
  lemma JobAfter(db: Db, ev: Event, id: JobId)
    ensures id in Step(db, ev).0.jobs <==> id in db.jobs || (ev.op.CreateJob? && ev.op.id == id)
    ensures id !in db.jobs && ev.op.CreateJob? && ev.op.id == id ==> Step(db, ev).0.jobs[id] == Job(ev.op.p, Pending)
    ensures id in db.jobs ==>
      var job, after := db.jobs[id], Step(db, ev).0.jobs[id];
      && after.provider == job.provider
      && after.status ==
         if ev.op.WriteJob? && ev.op.id == id then ev.op.status
         else if ev.op.Leased? && Succeeds(db, ev) && ev.op.body.Finish? && ev.op.body.job == id then ev.op.body.status
         else if Abandons(db, ev, id, job) then Abandoned
         else job.status
  {
  }

  /** The two recoveries, by the fields of job and row. */
  predicate Abandons(db: Db, ev: Event, id: JobId, job: Job) {
    && (job.status.Pending? || job.status.Running?) && (ev.op.ClaimWithRecovery? || ev.op.Recover?)
    && job.provider == ev.op.p
    && if ev.op.p !in db.leases || db.leases[ev.op.p].owner == "" then ev.op.ClaimWithRecovery? ==> id != ev.op.claimer
       else
         var row := db.leases[ev.op.p];
         if ev.op.ClaimWithRecovery? then row.expiresAt < ev.now && id != ev.op.claimer
         else row.expiresAt <= ev.now || row.job != Some(id)
  }

  /** ABANDONED is not final: exactly an unfenced status write, or a leased commit of the
      owner that still finishes the job, takes a job out of it. */
  lemma AbandonedRevivedExactly(db: Db, ev: Event, id: JobId)
    requires WellFormed(ev) && id in db.jobs && db.jobs[id].status.Abandoned?
    ensures id in Step(db, ev).0.jobs
    ensures !Step(db, ev).0.jobs[id].status.Abandoned? <==>
      ( || (ev.op.WriteJob? && ev.op.id == id)
        || (ev.op.Leased? && Succeeds(db, ev) && ev.op.body.Finish? && ev.op.body.job == id))
  {
  }

  /** The safety half of it, against the lease the job is bound to. */
  lemma NeverAbandonsLiveJob(db: Db, ev: Event, p: Provider, id: JobId)
    requires WellFormed(ev)
    requires p in db.leases && Owned(db.leases[p]) && db.leases[p].job == Some(id) && ev.now < db.leases[p].expiresAt
    requires id in db.jobs && db.jobs[id].provider == p && !db.jobs[id].status.Abandoned?
    ensures !Step(db, ev).0.jobs[id].status.Abandoned?
  {
    AbandonedExactly(db, ev, id);
  }

  /** Right after a fresh claim with recovery only the claimer's job can be active,
      the lease is bound to it, and what was abandoned is what was reported. */
  lemma RecoveryLeavesOnlyClaimer(db: Db, ev: Event)
    requires ev.op.ClaimWithRecovery? && Fresh(db, ev, ev.op.p)
    ensures var p, after := ev.op.p, Step(db, ev).0;
      && ActiveJobs(after, p) <= {ev.op.claimer}
      && ActiveJobs(after, p) == ActiveJobs(db, p) * {ev.op.claimer}
      && after.leases[p].job == Some(ev.op.claimer)
      && Step(db, ev).1 == Granted(Fence(db, p) + 1, ActiveJobs(db, p) - {ev.op.claimer})
  {
  }

  /** A stale job is abandoned exactly once: a second recovery abandons only the active
      job whose lease has run out in between, and so nothing if none has. */
  lemma RecoverIsIdempotent(db: Db, p: Provider, now: int, later: int)
    requires now <= later
    ensures var once := Step(db, Event(now, Recover(p))).0; var l := Row(db, p, now);
      && Step(once, Event(later, Recover(p))).1 ==
         Recovered(ActiveJobs(db, p) * (Shielded(l, now) - Shielded(l, later)))
      && (Shielded(l, now) == Shielded(l, later) || ActiveJobs(db, p) !! Shielded(l, now) <==>
            Step(once, Event(later, Recover(p))) == (once, Recovered({})))
  {
    var once, l := Step(db, Event(now, Recover(p))).0, Row(db, p, now);
    assert Row(once, p, later) == l && Shielded(l, later) <= Shielded(l, now);
    assert ActiveJobs(once, p) == ActiveJobs(db, p) * Shielded(l, now);
    var again := ActiveJobs(db, p) * (Shielded(l, now) - Shielded(l, later));
    assert ActiveJobs(once, p) - Shielded(l, later) == again;
    assert once.leases[p := l] == once.leases;
    assert AbandonAll(once.jobs, {}) == once.jobs;
    if Shielded(l, now) == Shielded(l, later) || ActiveJobs(db, p) !! Shielded(l, now) {
      assert again == {};
    } else {
      assert Shielded(l, later) == {} && Shielded(l, now) == {l.job.value};
      assert l.job.value in again;
    }
  }

  /** The two providers' rows and jobs do not affect each other. */
  lemma ProvidersIndependent(db: Db, ev: Event, q: Provider)
    requires RowOf(ev.op).Some? && RowOf(ev.op) != Some(q)
    requires ev.op.Leased? && ev.op.body.Finish? && ev.op.body.job in db.jobs ==> db.jobs[ev.op.body.job].provider != q
    ensures var after := Step(db, ev).0;
      && (q in after.leases <==> q in db.leases) && (q in db.leases ==> after.leases[q] == db.leases[q])
      && (forall id :: id in db.jobs && db.jobs[id].provider == q ==> id in after.jobs && after.jobs[id] == db.jobs[id])
  {
  }

  // ---------------------------------------------------------------------------
  // The service
  // ---------------------------------------------------------------------------

  class ProviderLeaseService {
    var leases: map<Provider, Lease>
    var jobs: map<JobId, Job>

    constructor ()
      ensures View() == Db(map[], map[])
    {
      leases, jobs := map[], map[];
    }

    ghost function View(): Db reads this { Db(leases, jobs) }

    method EnsureAndLock(p: Provider, now: int) returns (existing: Lease)
      modifies this`leases
      ensures existing == Row(old(View()), p, now)
      ensures leases == old(leases)[p := existing]
    {
      if p !in leases {
        leases := leases[p := Lease(NO_OWNER, 0, now, now, 0, None)];
      }
      existing := leases[p];
    }

    method Claim(p: Provider, owner: Token, ttl: int, wanted: Option<JobId>, now: int) returns (reply: Reply)
      requires owner != NO_OWNER
      modifies this`leases
      ensures (View(), reply) == Step(old(View()), Event(now, Op.Claim(p, owner, ttl, wanted)))
    {
      var existing := EnsureAndLock(p, now);
      var hasOwner := existing.owner != NO_OWNER;
      var expired := !hasOwner || existing.expiresAt < now;
      if !hasOwner {
        var fence := if existing.fence > 0 then existing.fence + 1 else 1;
        leases := leases[p := Lease(owner, fence, now, now, now + ttl, wanted)];
        reply := Granted(fence, {});
      } else if expired {
        leases := leases[p := Lease(owner, existing.fence + 1, now, now, now + ttl, wanted)];
        reply := Granted(existing.fence + 1, {});
      } else if existing.owner == owner {
        leases := leases[p := existing.(heartbeatAt := now, expiresAt := now + ttl,
                                        job := if wanted.Some? then wanted else existing.job)];
        reply := Granted(existing.fence, {});
      } else {
        assert leases == old(leases);
        reply := Refused;
      }
      assert leases == old(leases)[p := leases[p]];
    }

    /** Marks every candidate except the spared ones, re-checking each status as it goes. */
    method AbandonCandidates(p: Provider, spared: set<JobId>) returns (recovered: set<JobId>)
      modifies this`jobs
      ensures recovered == ActiveJobs(old(View()), p) - spared
      ensures jobs == AbandonAll(old(jobs), recovered)
    {
      var candidates := set id | id in jobs && jobs[id].provider == p && Active(jobs[id]);
      var todo := candidates;
      recovered := {};
      while todo != {}
        invariant todo <= candidates && recovered == candidates - todo - spared
        invariant jobs == AbandonAll(old(jobs), recovered)
      {
        var id :| id in todo;
        todo := todo - {id};
        if id !in spared && Active(jobs[id]) {
          jobs := jobs[id := jobs[id].(status := Abandoned)];
          recovered := recovered + {id};
        }
      }
    }

    method ClaimWithRecovery(p: Provider, owner: Token, ttl: int, claimer: JobId, now: int) returns (reply: Reply)
      requires owner != NO_OWNER
      modifies this
      ensures (View(), reply) == Step(old(View()), Event(now, Op.ClaimWithRecovery(p, owner, ttl, claimer)))
    {
      var existing := EnsureAndLock(p, now);
      var hasOwner := existing.owner != NO_OWNER;
      var expired := !hasOwner || existing.expiresAt < now;
      if hasOwner && !expired && existing.owner != owner {
        assert leases == old(leases);
        return Refused;
      }
      if hasOwner && !expired && existing.owner == owner {
        leases := leases[p := existing.(heartbeatAt := now, expiresAt := now + ttl, job := Some(claimer))];
        assert leases == old(leases)[p := Extend(existing, ttl, Some(claimer), now)];
        assert AbandonAll(jobs, {}) == jobs;
        return Granted(existing.fence, {});
      }
      var fence := if !hasOwner then (if existing.fence > 0 then existing.fence + 1 else 1) else existing.fence + 1;
      leases := leases[p := Lease(owner, fence, now, now, now + ttl, Some(claimer))];
      assert leases == old(leases)[p := leases[p]];
      var recovered := AbandonCandidates(p, {claimer});
      reply := Granted(fence, recovered);
    }

    method Renew(p: Provider, owner: Token, fence: nat, ttl: int, now: int) returns (reply: Reply)
      modifies this`leases
      ensures (View(), reply) == Step(old(View()), Event(now, Op.Renew(p, owner, fence, ttl)))
    {
      if p in leases && leases[p].owner == owner && leases[p].fence == fence {
        leases := leases[p := leases[p].(heartbeatAt := now, expiresAt := now + ttl)];
        reply := Accepted;
      } else {
        reply := Refused;
      }
    }

    method Release(p: Provider, owner: Token, fence: nat, now: int) returns (reply: Reply)
      modifies this`leases
      ensures (View(), reply) == Step(old(View()), Event(now, Op.Release(p, owner, fence)))
    {
      if p in leases && leases[p].owner == owner && leases[p].fence == fence {
        leases := leases[p := leases[p].(owner := NO_OWNER, expiresAt := 0, heartbeatAt := 0, job := None)];
      }
      reply := Accepted;
    }

    method VerifyOwnership(p: Provider, owner: Token, fence: nat, now: int) returns (valid: bool)
      ensures valid <==> Succeeds(View(), Event(now, Verify(p, owner, fence)))
    {
      if p !in leases {
        return false;
      }
      valid := leases[p].owner == owner && leases[p].fence == fence && leases[p].expiresAt > now;
    }

    method WithLeasedTransaction(p: Provider, owner: Token, fence: nat, now: int, elapsed: nat, body: Body)
      returns (reply: Reply)
      modifies this
      ensures (View(), reply) == Step(old(View()), Event(now, Leased(p, owner, fence, elapsed, body)))
    {
      if p !in leases {
        return Refused;
      }
      var lease := leases[p];
      if lease.owner != owner || lease.fence != fence || lease.expiresAt <= now {
        return Refused;
      }
      match body {
        case Throws =>
          return Refused;
        case Quiet =>
        case Finish(job, status) =>
          if job !in jobs {
            return Refused;
          }
          jobs := jobs[job := jobs[job].(status := status)];
      }
      var heartbeatAt := now + elapsed;
      var heartbeatExpiry := heartbeatAt + 60_000;
      var newExpiresAt := if lease.expiresAt > heartbeatExpiry then lease.expiresAt else heartbeatExpiry;
      leases := leases[p := lease.(heartbeatAt := heartbeatAt, expiresAt := newExpiresAt)];
      reply := Accepted;
    }

    method RecoverStaleJobs(p: Provider, now: int) returns (recovered: set<JobId>)
      modifies this
      ensures (View(), Recovered(recovered)) == Step(old(View()), Event(now, Recover(p)))
    {
      var lease := EnsureAndLock(p, now);
      var hasOwner := lease.owner != NO_OWNER;
      var leaseExpired := !hasOwner || lease.expiresAt <= now;
      var spared := if hasOwner && !leaseExpired && lease.job.Some? then {lease.job.value} else {};
      recovered := AbandonCandidates(p, spared);
    }
  }
}
