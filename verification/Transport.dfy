/** One `listVehicles` call: at most three HTTP attempts, each reserved before it is
    sent and settled before the call ends, while other callers use the same ledger. */
module Transport {
  import opened Wrappers
  import B = Budget

  type AttemptId = B.AttemptId

  // ---------------------------------------------------------------------------
  // Delays
  // ---------------------------------------------------------------------------

  const RETRY_AFTER_LIMIT_MS: nat := 2_000

  function Pow2(n: nat): nat { if n == 0 then 1 else 2 * Pow2(n - 1) }

  function MinReal(a: real, b: real): real { if a <= b then a else b }

  lemma JitterNotNegative(exponential: real, jitter: real)
    requires exponential >= 0.0 && jitter >= 0.0
    ensures exponential * jitter >= 0.0
  {
  }

  /** The jittered exponential, clamped to the maximum. */
  function Exponential(errors: nat, initial: nat, maxDelay: nat, jitter: real): (delay: real)
    requires errors >= 1 && 0.0 <= jitter <= 1.0
    ensures 0.0 <= delay <= maxDelay as real
  {
    var exponential := (initial * Pow2(Min(errors - 1, 10))) as real;
    JitterNotNegative(exponential, jitter);
    MinReal(exponential * jitter, maxDelay as real)
  }

  /** A short Retry-After is always waited out; otherwise the delay is the jittered
      exponential, never above the configured maximum. */
  function BackoffDelay(errors: nat, initial: nat, maxDelay: nat, retryAfter: Option<nat>, jitter: real): (ms: nat)
    requires errors >= 1 && 0.0 <= jitter <= 1.0
    ensures ms <= Max(maxDelay, RETRY_AFTER_LIMIT_MS)
    ensures retryAfter.Some? && retryAfter.value <= RETRY_AFTER_LIMIT_MS ==> ms >= retryAfter.value
    ensures retryAfter.None? || retryAfter.value > RETRY_AFTER_LIMIT_MS ==> ms <= maxDelay
  {
    var clamped := Exponential(errors, initial, maxDelay, jitter);
    if retryAfter.Some? && retryAfter.value <= RETRY_AFTER_LIMIT_MS && retryAfter.value as real > clamped
    then retryAfter.value
    else clamped.Floor
  }

  lemma PowerDoubles(initial: nat, n: nat)
    ensures initial * Pow2(n + 1) == 2 * (initial * Pow2(n)) && initial * Pow2(0) == initial
  {
  }

  /** Without jitter the delay is a whole number of milliseconds. */
  lemma PlainDelay(errors: nat, initial: nat, maxDelay: nat)
    requires errors >= 1
    ensures var delay := Min(initial * Pow2(Min(errors - 1, 10)), maxDelay);
      && Exponential(errors, initial, maxDelay, 1.0) == delay as real
      && BackoffDelay(errors, initial, maxDelay, None, 1.0) == delay
  {
    hide Pow2;
    assert Exponential(errors, initial, maxDelay, 1.0) == Min(initial * Pow2(Min(errors - 1, 10)), maxDelay) as real;
    hide Exponential;
  }

  /** The delay starts at the initial one, doubles with each of the next ten errors up to
      the maximum, and then stays. */
  lemma DelayDoubles(errors: nat, initial: nat, maxDelay: nat)
    requires errors >= 1
    ensures BackoffDelay(1, initial, maxDelay, None, 1.0) == Min(initial, maxDelay)
    ensures var delay := BackoffDelay(errors, initial, maxDelay, None, 1.0);
      BackoffDelay(errors + 1, initial, maxDelay, None, 1.0) ==
      if errors <= 10 then Min(2 * delay, maxDelay) else delay
  {
    hide BackoffDelay, Exponential;
    PlainDelay(1, initial, maxDelay);
    PlainDelay(errors, initial, maxDelay);
    PlainDelay(errors + 1, initial, maxDelay);
    PowerDoubles(initial, Min(errors - 1, 10));
    hide Pow2;
  }

  /** A Retry-After of at most two seconds replaces a shorter delay, a longer one does not. */
  lemma ShortRetryAfterCounts(errors: nat, initial: nat, maxDelay: nat, retryAfter: nat)
    requires errors >= 1
    ensures var delay := BackoffDelay(errors, initial, maxDelay, None, 1.0);
      BackoffDelay(errors, initial, maxDelay, Some(retryAfter), 1.0) ==
      if retryAfter <= 2_000 then Max(retryAfter, delay) else delay
  {
    PlainDelay(errors, initial, maxDelay);
    hide Exponential, Pow2;
  }

  /** The delay before it is capped. */
  ghost function Scaled(initial: nat, n: nat, jitter: real): real { (initial * Pow2(n)) as real * jitter }

  lemma ScaledDoubles(initial: nat, n: nat, jitter: real)
    requires jitter >= 0.0
    ensures Scaled(initial, n + 1, jitter) == 2.0 * Scaled(initial, n, jitter) && Scaled(initial, n, jitter) >= 0.0
    ensures Scaled(initial, 0, jitter) == initial as real * jitter
  {
    PowerDoubles(initial, n);
    hide Pow2;
    var x := (initial * Pow2(n)) as real;
    JitterNotNegative(x, jitter);
    assert (initial * Pow2(n + 1)) as real == 2.0 * x;
    assert (2.0 * x) * jitter == 2.0 * (x * jitter);
  }

  lemma CappedScale(errors: nat, initial: nat, maxDelay: nat, jitter: real)
    requires errors >= 1 && 0.0 <= jitter <= 1.0
    ensures Exponential(errors, initial, maxDelay, jitter) ==
      MinReal(Scaled(initial, Min(errors - 1, 10), jitter), maxDelay as real)
  {
    hide Pow2;
  }

  /** Jitter scales the delay before it is capped. */
  lemma JitteredDelayDoubles(errors: nat, initial: nat, maxDelay: nat, jitter: real)
    requires errors >= 1 && 0.0 <= jitter <= 1.0
    ensures Exponential(1, initial, maxDelay, jitter) == MinReal(initial as real * jitter, maxDelay as real)
    ensures var delay := Exponential(errors, initial, maxDelay, jitter);
      Exponential(errors + 1, initial, maxDelay, jitter) ==
      if errors <= 10 then MinReal(2.0 * delay, maxDelay as real) else delay
  {
    hide Exponential, Scaled;
    ScaledDoubles(initial, Min(errors - 1, 10), jitter);
    ScaledDoubles(initial, 0, jitter);
    CappedScale(1, initial, maxDelay, jitter);
    CappedScale(errors, initial, maxDelay, jitter);
    CappedScale(errors + 1, initial, maxDelay, jitter);
  }

  /** Sleeping never runs past the job's deadline. */
  function SleepFor(delay: nat, now: nat, deadline: int): (ms: nat)
    ensures ms <= delay && (ms > 0 ==> now + ms <= deadline)
    ensures now + delay <= deadline ==> ms == delay
    ensures now < deadline < now + delay ==> now + ms == deadline
  {
    if deadline <= now then 0 else Min(delay, deadline - now)
  }

  // ---------------------------------------------------------------------------
  // What the network and the other callers do
  // ---------------------------------------------------------------------------

  datatype FetchKind = NetworkError | Http429 | Http5xx | Http4xx | MalformedResponse | DeadlineExceeded | Aborted

  /** A JSON value; items carry the provider their platform field names, if it names one. */
  datatype Body = Scalar | Payload(items: seq<Option<B.Provider>>)

  datatype Answer = Responded(status: nat, json: Option<Body>, retryAfter: Option<nat>) | TimedOut | ConnectionFailed

  /** Other callers' ledger operations, then the clock reading that follows. */
  datatype Moment = Moment(others: seq<B.Op>, now: nat)

  datatype Attempt = Attempt(
    id: AttemptId, gate: Moment, sentAt: nat, answer: Answer, answeredAt: nat, onResponse: Moment, onFailure: Moment)

  /** How the callback ends; a page it rejects may be one that repeats the current cursor. */
  datatype PersistOutcome = NoCallback | Persisted | LeaseLost | PageRejected(repeated: bool) | OtherError

  datatype Finish = Finish(persist: PersistOutcome, at: Moment)

  datatype FetchConfig = FetchConfig(maxRetryAttempts: int, initialDelay: nat, maxDelay: nat, deadline: int)

  datatype FetchOutcome = Fetched(body: Body, attempts: nat) | Broken(kind: FetchKind, attempts: nat)

  datatype ListResult =
    | Listed(requestCount: nat, retryCount: nat)
    | FetchFailed(kind: FetchKind)
    | NotAnObject
    | WrongProvider
    | PersistFailed(why: PersistOutcome)

  function MaxAttempts(config: FetchConfig): (n: nat)
    ensures 1 <= n <= 3
    ensures (n == 1 <==> config.maxRetryAttempts <= 0) && (n == 3 <==> config.maxRetryAttempts >= 2)
  {
    Min(3, Max(1, config.maxRetryAttempts + 1))
  }

  predicate Retryable(status: nat) { status in {429, 500, 502, 503, 504} }

  function ToFailureKind(kind: FetchKind): B.FailureKind {
    match kind
    case Http429 => B.RateLimit
    case Http5xx => B.Server
    case NetworkError => B.Network
    case Http4xx => B.ClientContract
    case MalformedResponse => B.ClientContract
    case _ => B.Timeout
  }

  function PersistFailureKind(why: PersistOutcome): B.FailureKind {
    match why
    case LeaseLost => B.LeaseLost
    case PageRejected(_) => B.ClientContract
    case _ => B.Persistence
  }

  predicate OwnItems(items: seq<Option<B.Provider>>, p: B.Provider) {
    forall i :: 0 <= i < |items| ==> items[i] == Some(p)
  }

  function Ids(world: seq<Attempt>): set<AttemptId> { set i | 0 <= i < |world| :: world[i].id }

  /** Attempt ids are fresh random identifiers: distinct, unused, and unknown to others. */
  predicate DistinctIds(world: seq<Attempt>) { forall i, j :: 0 <= i < j < |world| ==> world[i].id != world[j].id }

  /** What other callers do meanwhile uses none of the ids and keeps to the limits. */
  predicate Outside(m: Moment, ids: set<AttemptId>, scope: B.Scope) {
    B.Foreign(m.others, ids) && B.Permitted(m.others, scope) && B.OnDay(scope, m.now)
  }

  predicate AttemptOutside(a: Attempt, ids: set<AttemptId>, scope: B.Scope) {
    Outside(a.gate, ids, scope) && Outside(a.onResponse, ids, scope) && Outside(a.onFailure, ids, scope)
  }

  predicate OwnIds(world: seq<Attempt>, scope: B.Scope) {
    && DistinctIds(world) && Ids(world) !! scope.spared
    && (scope.routine.Some? ==> Ids(world) <= scope.routine.value)
  }

  ghost predicate FreshIds(world: seq<Attempt>, at: Moment, scope: B.Scope, l: B.Ledger) {
    && OwnIds(world, scope)
    && (forall id :: id in Ids(world) ==> id !in l.reservations)
    && (forall i :: 0 <= i < |world| ==> AttemptOutside(world[i], Ids(world), scope))
    && Outside(at, Ids(world), scope)
  }

  // ---------------------------------------------------------------------------
  // The state of the attempts in the ledger
  // ---------------------------------------------------------------------------

  /** What became of one attempt, deadline included; `Answered` carries a readable body. */
  datatype Fate = Answered(body: Body) | Lost(kind: FetchKind, again: bool)

  function FateOf(deadline: int, a: Attempt): Fate {
    if deadline <= a.sentAt then Lost(DeadlineExceeded, false)
    else
      match a.answer
      case Responded(status, json, _) =>
        if 200 <= status < 300 then (if json.Some? then Answered(json.value) else Lost(MalformedResponse, false))
        else if 400 <= status < 500 && status != 429 then Lost(Http4xx, false)
        else Lost(if status == 429 then Http429 else Http5xx, Retryable(status))
      case TimedOut => if deadline <= a.answeredAt then Lost(DeadlineExceeded, false) else Lost(Aborted, true)
      case ConnectionFailed => Lost(NetworkError, true)
  }

  predicate HasStatus(a: Attempt, low: int, high: int) { a.answer.Responded? && low <= a.answer.status <= high }

  /** The loss of this attempt may be repeated. */
  predicate MayRepeat(deadline: int, a: Attempt) {
    && a.sentAt < deadline
    && match a.answer
       case Responded(status, _, _) => status in {429, 500, 502, 503, 504}
       case TimedOut => a.answeredAt < deadline
       case ConnectionFailed => true
  }

  /** A body comes with a status from 200 to 299 in time; which losses are repeated. */
  lemma FateExactly(deadline: int, a: Attempt)
    ensures FateOf(deadline, a).Answered? <==> a.sentAt < deadline && HasStatus(a, 200, 299) && a.answer.json.Some?
    ensures FateOf(deadline, a).Answered? ==> Some(FateOf(deadline, a).body) == a.answer.json
    ensures FateOf(deadline, a).Lost? && FateOf(deadline, a).again <==> MayRepeat(deadline, a)
  {
  }

  /** The column of the ledger in which a lost attempt is booked, by the status number. */
  lemma LossBookedByStatus(deadline: int, l: B.Ledger, a: Attempt)
    requires SettledLost(deadline, l, a)
    ensures var kind := l.reservations[a.id].failure; var sent := a.sentAt < deadline;
      && (kind == Some(B.RateLimit) <==> sent && HasStatus(a, 429, 429))
      && (kind == Some(B.ClientContract) <==>
            sent && a.answer.Responded? && a.answer.status != 429
            && (200 <= a.answer.status < 300 || 400 <= a.answer.status < 500))
      && (kind == Some(B.Server) <==>
            sent && a.answer.Responded?
            && (a.answer.status < 200 || 300 <= a.answer.status < 400 || a.answer.status >= 500))
      && (kind == Some(B.Network) <==> sent && a.answer.ConnectionFailed?)
      && (kind == Some(B.Timeout) <==> !sent || a.answer.TimedOut?)
  {
  }

  predicate Charged(l: B.Ledger, id: AttemptId, status: B.Status, failure: Option<B.FailureKind>)
  {
    id in l.reservations && l.reservations[id].status == status && l.reservations[id].failure == failure
  }

  /** The attempt was lost and is settled as failed with the kind of its own fate. */
  predicate SettledLost(deadline: int, l: B.Ledger, a: Attempt) {
    && FateOf(deadline, a).Lost?
    && Charged(l, a.id, B.Failed, Some(ToFailureKind(FateOf(deadline, a).kind)))
  }

  /** The first `n` attempts were reserved, lost and settled; no other was reserved. */
  ghost predicate AllFailed(deadline: int, l: B.Ledger, world: seq<Attempt>, n: nat) {
    && n <= |world|
    && (forall k :: 0 <= k < n ==> SettledLost(deadline, l, world[k]))
    && (forall k :: n <= k < |world| ==> world[k].id !in l.reservations)
  }

  /** As above, but the last of them has this status. */
  ghost predicate LastIs(
      deadline: int, l: B.Ledger, world: seq<Attempt>, n: nat, status: B.Status, failure: Option<B.FailureKind>)
  {
    && 1 <= n <= |world|
    && (forall k :: 0 <= k < n - 1 ==> SettledLost(deadline, l, world[k]))
    && Charged(l, world[n - 1].id, status, failure)
    && (forall k :: n <= k < |world| ==> world[k].id !in l.reservations)
  }

  /** An attempt is made only while every earlier one may be repeated. */
  ghost predicate OnlyRetried(deadline: int, world: seq<Attempt>, n: nat)
    requires n <= |world|
  {
    forall k :: 0 <= k < n ==> FateOf(deadline, world[k]).Lost? && FateOf(deadline, world[k]).again
  }

  /** Attempts were repeated only when they might be, and the loop stopped at a body, at
      a closed gate, at a final loss or after the last attempt permitted. */
  ghost predicate StopsRight(config: FetchConfig, world: seq<Attempt>, made: nat, denied: bool, outcome: FetchOutcome)
    requires made <= |world|
  {
    && OnlyRetried(config.deadline, world, if denied || made == 0 then made else made - 1)
    && (outcome.Fetched? ==>
        !denied && made == outcome.attempts >= 1 && FateOf(config.deadline, world[made - 1]) == Answered(outcome.body))
    && (denied ==> outcome == Broken(Aborted, made))
    && (outcome.Broken? && !denied ==>
          && made >= 1 && FateOf(config.deadline, world[made - 1]).Lost?
          && outcome.kind == FateOf(config.deadline, world[made - 1]).kind
          && (made < MaxAttempts(config) ==> !FateOf(config.deadline, world[made - 1]).again))
  }

  /** The loop by status number: every attempt but the last may be repeated, and a loss
      ends it exactly if it may not, or was the last one permitted. */
  lemma RepeatsByStatus(config: FetchConfig, world: seq<Attempt>, made: nat, denied: bool, outcome: FetchOutcome)
    requires made <= |world| && made <= MaxAttempts(config) && StopsRight(config, world, made, denied, outcome)
    ensures forall k :: 0 <= k < made - 1 ==> MayRepeat(config.deadline, world[k])
    ensures denied && made > 0 ==> MayRepeat(config.deadline, world[made - 1])
    ensures !denied ==> made >= 1
    ensures !denied && MayRepeat(config.deadline, world[made - 1]) ==>
              made == if config.maxRetryAttempts <= 0 then 1 else if config.maxRetryAttempts == 1 then 2 else 3
    ensures outcome.Fetched? <==>
              !denied && world[made - 1].sentAt < config.deadline && HasStatus(world[made - 1], 200, 299)
              && world[made - 1].answer.json.Some?
    ensures outcome.Fetched? ==> world[made - 1].answer.json == Some(outcome.body)
  {
    forall k | 0 <= k < made
      ensures FateOf(config.deadline, world[k]).Lost? && FateOf(config.deadline, world[k]).again <==>
        MayRepeat(config.deadline, world[k])
    {
      FateExactly(config.deadline, world[k]);
    }
    if made > 0 {
      FateExactly(config.deadline, world[made - 1]);
    }
  }

  function RetryAfterOf(a: Attempt): Option<nat> {
    if a.answer.Responded? then a.answer.retryAfter else None
  }

  /** Before every repetition the loop sleeps for the delay of that many errors, but not
      past the deadline, and nowhere else. */
  ghost predicate SleepsRight(config: FetchConfig, world: seq<Attempt>, n: nat, sleeps: seq<nat>)
    requires n <= |world|
  {
    && |sleeps| == n
    && forall k :: 0 <= k < n ==> sleeps[k] == SleepAfter(config, world[k], k + 1)
  }

  function SleepAfter(config: FetchConfig, a: Attempt, errors: nat): nat
    requires errors >= 1
  {
    SleepFor(BackoffDelay(errors, config.initialDelay, config.maxDelay, RetryAfterOf(a), 1.0), a.answeredAt,
      config.deadline)
  }

  lemma MemberId(world: seq<Attempt>, k: nat)
    requires k < |world|
    ensures world[k].id in Ids(world)
  {
  }

  lemma NoneReserved(d: int, l: B.Ledger, world: seq<Attempt>)
    requires forall id :: id in Ids(world) ==> id !in l.reservations
    ensures AllFailed(d, l, world, 0)
  {
    forall k | 0 <= k < |world| ensures world[k].id !in l.reservations {
      MemberId(world, k);
    }
  }

  lemma SameOnKeeps(d: int, l: B.Ledger, l': B.Ledger, world: seq<Attempt>, n: nat, status: B.Status)
    requires B.SameOn(l, l', Ids(world))
    ensures AllFailed(d, l, world, n) ==> AllFailed(d, l', world, n)
    ensures LastIs(d, l, world, n, status, None) ==> LastIs(d, l', world, n, status, None)
  {
    forall k | 0 <= k < |world| ensures world[k].id in Ids(world) {
      MemberId(world, k);
    }
  }

  /** The calls the hooks make, seen from the attempts. */
  lemma ReserveLast(d: int, c: B.Config, l: B.Ledger, world: seq<Attempt>, n: nat, p: B.Provider, now: nat)
    requires DistinctIds(world) && n < |world| && AllFailed(d, l, world, n)
    ensures var (l', reply) := B.Step(c, l, B.Reserve(world[n].id, p, B.Routine, now));
      if reply.Allowed? then LastIs(d, l', world, n + 1, B.Allocated, None) else l' == l
  {
  }

  lemma ConfirmLast(d: int, c: B.Config, l: B.Ledger, world: seq<Attempt>, n: nat, now: nat)
    requires DistinctIds(world) && LastIs(d, l, world, n, B.Allocated, None)
    ensures LastIs(d, B.Step(c, l, B.Confirm(world[n - 1].id, now)).0, world, n, B.Confirmed, None)
  {
  }

  lemma FailLast(
      d: int, c: B.Config, l: B.Ledger, world: seq<Attempt>, n: nat, status: B.Status, kind: B.FailureKind, now: nat)
    requires DistinctIds(world) && LastIs(d, l, world, n, status, None) && !B.Settled(status)
    ensures LastIs(d, B.Step(c, l, B.Complete(world[n - 1].id, false, Some(kind), now)).0, world, n, B.Failed,
      Some(kind))
  {
  }

  lemma SucceedLast(d: int, c: B.Config, l: B.Ledger, world: seq<Attempt>, n: nat, now: nat)
    requires DistinctIds(world) && LastIs(d, l, world, n, B.Confirmed, None)
    ensures LastIs(d, B.Step(c, l, B.Complete(world[n - 1].id, true, None, now)).0, world, n, B.Succeeded, None)
  {
  }

  /** The per-tick allowance of HTTP attempts shared by the providers. */
  class AttemptBudget {
    var remaining: int
    var used: int

    constructor (remaining: int)
      ensures this.remaining == remaining && used == 0
    {
      this.remaining, used := remaining, 0;
    }
  }

  /** The local state that the three hooks of one call share. */
  class ListCall {
    const service: B.RequestBudgetService
    const budget: AttemptBudget
    const provider: B.Provider
    const config: FetchConfig
    ghost const scope: B.Scope // spares the ids of the other calls of the same run
    var attemptCounter: nat
    var attemptIds: map<nat, AttemptId>
    var lastAttemptId: Option<AttemptId>

    constructor (
        service: B.RequestBudgetService, budget: AttemptBudget, provider: B.Provider, config: FetchConfig,
        ghost scope: B.Scope)
      ensures this.service == service && this.budget == budget && this.provider == provider && this.config == config
      ensures this.scope == scope
      ensures attemptCounter == 0 && attemptIds == map[] && lastAttemptId.None?
    {
      this.service, this.budget, this.provider, this.config, this.scope := service, budget, provider, config, scope;
      attemptCounter, attemptIds, lastAttemptId := 0, map[], None;
    }

    /** The hooks' counter and the retry loop's attempt number name the same attempts. */
    ghost predicate InStep(world: seq<Attempt>, n: nat)
      reads this
    {
      && attemptCounter == n <= |world|
      && (forall k :: k in attemptIds <==> 1 <= k <= n)
      && (forall k :: 1 <= k <= n ==> attemptIds[k] == world[k - 1].id)
      && lastAttemptId == (if n == 0 then None else Some(world[n - 1].id))
    }

    /** Since `l0` the ledger has only changed by calls of its operations. */
    ghost predicate Since(l0: B.Ledger)
      reads service
    {
      B.Reaches(service.config, l0, service.View(), scope)
    }

    ghost predicate AllLost(world: seq<Attempt>, n: nat)
      reads service
    {
      AllFailed(config.deadline, service.View(), world, n)
    }

    ghost predicate Last(world: seq<Attempt>, n: nat, status: B.Status, failure: Option<B.FailureKind>)
      reads service
    {
      LastIs(config.deadline, service.View(), world, n, status, failure)
    }

    ghost predicate Spent(n: nat, remaining: int, used: int)
      reads budget
    {
      budget.remaining == remaining - n && budget.used == used + n
    }

    /** The gate has no attempt to give: the tick's allowance is used up or the ledger
        refuses the reservation. */
    ghost predicate GateClosed(world: seq<Attempt>, n: nat)
      reads service, budget
    {
      || budget.remaining <= 0
      || (n < |world| && B.Step(service.config, service.View(), ReservationOf(world[n])).1.Denied?)
    }

    ghost function ReservationOf(a: Attempt): B.Op { B.Reserve(a.id, provider, B.Routine, a.gate.now) }

    method OthersAct(m: Moment, ghost world: seq<Attempt>, ghost l0: B.Ledger)
      requires Outside(m, Ids(world), scope) && Since(l0)
      modifies service
      ensures service.View() == B.Run(service.config, old(service.View()), m.others)
      ensures Since(l0) && B.SameOn(old(service.View()), service.View(), Ids(world))
    {
      B.ForeignOpsKeep(service.config, service.View(), m.others, Ids(world));
      service.Serve(m.others);
      B.ReachesTransitive(service.config, l0, old(service.View()), service.View(), scope);
    }

    /** The ledger's side of the gate: one routine reservation under a new id. */
    method ReserveAttempt(ghost world: seq<Attempt>, ghost n: nat, a: Attempt, ghost l0: B.Ledger)
      returns (allowed: bool)
      requires n < |world| && a == world[n] && OwnIds(world, scope)
      requires AttemptOutside(a, Ids(world), scope) && AllLost(world, n) && Since(l0)
      modifies service
      ensures Since(l0)
      ensures allowed ==> Last(world, n + 1, B.Allocated, None)
      ensures !allowed ==> AllLost(world, n) && B.Step(service.config, service.View(), ReservationOf(a)).1.Denied?
    {
      OthersAct(a.gate, world, l0);
      ghost var mid := service.View();
      SameOnKeeps(config.deadline, old(service.View()), mid, world, n, B.Allocated);
      ReserveLast(config.deadline, service.config, mid, world, n, provider, a.gate.now);
      B.ReachesStep(service.config, mid, ReservationOf(a), scope);
      var reply := service.Reserve(a.id, provider, B.Routine, a.gate.now);
      B.ReachesTransitive(service.config, l0, mid, service.View(), scope);
      allowed := reply.Allowed?;
    }

    /** Gate before each attempt: the tick allowance first, then the shared ledger. */
    method PreRequestHook(ghost world: seq<Attempt>, ghost n: nat, a: Attempt, ghost l0: B.Ledger) returns (ok: bool)
      requires InStep(world, n) && n < |world| && a == world[n] && OwnIds(world, scope)
      requires AttemptOutside(a, Ids(world), scope) && AllLost(world, n) && Since(l0)
      modifies this, service, budget
      ensures Since(l0) && Spent(B.One(ok), old(budget.remaining), old(budget.used))
      ensures ok ==> InStep(world, n + 1) && Last(world, n + 1, B.Allocated, None) && old(budget.remaining) > 0
      ensures !ok ==> AllLost(world, n) && GateClosed(world, n)
    {
      hide AllFailed, LastIs, FreshIds, OwnIds, AttemptOutside, B.Reaches, B.Step;
      if budget.remaining <= 0 {
        return false;
      }
      attemptCounter := attemptCounter + 1;
      ok := ReserveAttempt(world, n, a, l0);
      if !ok {
        return;
      }
      budget.remaining := budget.remaining - 1;
      budget.used := budget.used + 1;
      lastAttemptId := Some(a.id);
      attemptIds := attemptIds[attemptCounter := a.id];
    }

    method ResponseHook(ghost world: seq<Attempt>, m: Moment, attempt: nat, ghost l0: B.Ledger)
      requires OwnIds(world, scope) && InStep(world, attempt) && Last(world, attempt, B.Allocated, None)
      requires Outside(m, Ids(world), scope) && Since(l0)
      modifies service
      ensures Since(l0) && Last(world, attempt, B.Confirmed, None)
    {
      OthersAct(m, world, l0);
      ghost var mid := service.View();
      SameOnKeeps(config.deadline, old(service.View()), mid, world, attempt, B.Allocated);
      if attempt in attemptIds {
        ConfirmLast(config.deadline, service.config, mid, world, attempt, m.now);
        B.ReachesStep(service.config, mid, B.Confirm(world[attempt - 1].id, m.now), scope);
        service.Confirm(attemptIds[attempt], m.now);
        B.ReachesTransitive(service.config, l0, mid, service.View(), scope);
      }
    }

    /** Settles an attempt as failed; also what the checks after the fetch do. */
    method Fail(
        ghost world: seq<Attempt>, ghost n: nat, ghost status: B.Status, m: Moment, id: Option<AttemptId>,
        kind: B.FailureKind, ghost l0: B.Ledger)
      requires OwnIds(world, scope) && Last(world, n, status, None) && !B.Settled(status)
      requires Outside(m, Ids(world), scope) && id == Some(world[n - 1].id) && Since(l0)
      modifies service
      ensures Since(l0) && Last(world, n, B.Failed, Some(kind))
    {
      OthersAct(m, world, l0);
      ghost var mid := service.View();
      SameOnKeeps(config.deadline, old(service.View()), mid, world, n, status);
      if id.Some? {
        FailLast(config.deadline, service.config, mid, world, n, status, kind, m.now);
        B.ReachesStep(service.config, mid, B.Complete(id.value, false, Some(kind), m.now), scope);
        service.Complete(id.value, false, Some(kind), m.now);
        B.ReachesTransitive(service.config, l0, mid, service.View(), scope);
      }
    }

    method FailureHook(
        ghost world: seq<Attempt>, ghost status: B.Status, m: Moment, kind: FetchKind, attempt: nat,
        ghost l0: B.Ledger)
      requires OwnIds(world, scope) && InStep(world, attempt) && Last(world, attempt, status, None)
      requires !B.Settled(status)
      requires Outside(m, Ids(world), scope) && Since(l0)
      modifies service
      ensures Since(l0) && Last(world, attempt, B.Failed, Some(ToFailureKind(kind)))
    {
      var id := if attempt in attemptIds then Some(attemptIds[attempt]) else None;
      Fail(world, attempt, status, m, id, ToFailureKind(kind), l0);
    }

    /** One HTTP attempt behind an open gate, down to its settlement. */
    method SendRequest(ghost world: seq<Attempt>, a: Attempt, attempt: nat, ghost l0: B.Ledger)
      returns (fate: Fate, retryAfter: Option<nat>)
      requires OwnIds(world, scope) && 1 <= attempt <= |world| && a == world[attempt - 1] && InStep(world, attempt)
      requires Since(l0)
      requires AttemptOutside(a, Ids(world), scope)
      requires Last(world, attempt, B.Allocated, None)
      modifies service
      ensures Since(l0) && fate == FateOf(config.deadline, a)
      ensures fate.Answered? ==> Last(world, attempt, B.Confirmed, None)
      ensures fate.Lost? ==> AllLost(world, attempt) && (fate.again ==> retryAfter == RetryAfterOf(a))
    {
      hide OwnIds, B.Reaches;
      retryAfter := None;
      if config.deadline <= a.sentAt {
        FailureHook(world, B.Allocated, a.onFailure, DeadlineExceeded, attempt, l0);
        return Lost(DeadlineExceeded, false), None;
      }
      match a.answer {
        case Responded(status, json, after) =>
          ResponseHook(world, a.onResponse, attempt, l0);
          if 200 <= status < 300 && json.Some? {
            return Answered(json.value), None;
          }
          if 200 <= status < 300 {
            fate := Lost(MalformedResponse, false);
          } else if 400 <= status < 500 && status != 429 {
            fate := Lost(Http4xx, false);
          } else {
            fate := Lost(if status == 429 then Http429 else Http5xx, Retryable(status));
            retryAfter := after;
          }
          FailureHook(world, B.Confirmed, a.onFailure, fate.kind, attempt, l0);
        case TimedOut =>
          fate := if config.deadline <= a.answeredAt then Lost(DeadlineExceeded, false) else Lost(Aborted, true);
          FailureHook(world, B.Allocated, a.onFailure, fate.kind, attempt, l0);
        case ConnectionFailed =>
          fate := Lost(NetworkError, true);
          FailureHook(world, B.Allocated, a.onFailure, fate.kind, attempt, l0);
      }
    }

    /** Gate, request and settlement of the attempt after the first `n`. */
    method TryAttempt(world: seq<Attempt>, n: nat, ghost l0: B.Ledger)
      returns (ok: bool, fate: Fate, retryAfter: Option<nat>)
      requires n < |world| && OwnIds(world, scope) && AttemptOutside(world[n], Ids(world), scope)
      requires InStep(world, n) && AllLost(world, n) && Since(l0)
      modifies this, service, budget
      ensures Since(l0) && Spent(B.One(ok), old(budget.remaining), old(budget.used))
      ensures ok ==> InStep(world, n + 1) && fate == FateOf(config.deadline, world[n]) && old(budget.remaining) > 0
      ensures ok && fate.Answered? ==> Last(world, n + 1, B.Confirmed, None)
      ensures ok && fate.Lost? ==> AllLost(world, n + 1) && (fate.again ==> retryAfter == RetryAfterOf(world[n]))
      ensures !ok ==> AllLost(world, n) && GateClosed(world, n)
    {
      fate, retryAfter := Lost(Aborted, false), None;
      ok := PreRequestHook(world, n, world[n], l0);
      if ok {
        fate, retryAfter := SendRequest(world, world[n], n + 1, l0);
      }
    }

    /** The sleep before the next attempt. */
    method Backoff(errors: nat, retryAfter: Option<nat>, now: nat) returns (ms: nat)
      requires errors >= 1
      ensures ms == SleepFor(BackoffDelay(errors, config.initialDelay, config.maxDelay, retryAfter, 1.0), now,
        config.deadline)
    {
      var backoff := BackoffDelay(errors, config.initialDelay, config.maxDelay, retryAfter, 1.0);
      ms := SleepFor(backoff, now, config.deadline);
    }

    /** The retry loop. It makes an attempt only after a lost one that may be repeated,
        and stops at the first body, at the first loss that may not, when the gate
        closes, or after the last permitted attempt. The attempt number it reports on
        failure may exceed the number really made. */
    method ProviderFetch(world: seq<Attempt>, ghost l0: B.Ledger)
      returns (outcome: FetchOutcome, sleeps: seq<nat>, ghost made: nat, ghost denied: bool)
      requires |world| == 3 && OwnIds(world, scope) && InStep(world, 0) && AllLost(world, 0) && Since(l0)
      requires forall i :: 0 <= i < |world| ==> AttemptOutside(world[i], Ids(world), scope)
      modifies this, service, budget
      ensures Since(l0) && made <= MaxAttempts(config) && made <= outcome.attempts
      ensures Spent(made, old(budget.remaining), old(budget.used)) && made <= Max(0, old(budget.remaining))
      ensures StopsRight(config, world, made, denied, outcome)
      ensures SleepsRight(config, world, if denied || made == 0 then made else made - 1, sleeps)
      ensures outcome.Fetched? ==> InStep(world, made) && Last(world, made, B.Confirmed, None)
      ensures outcome.Broken? ==> AllLost(world, made) && (denied ==> GateClosed(world, made))
    {
      hide AllFailed, LastIs, OwnIds, AttemptOutside, B.Reaches, B.Step, FateOf;
      sleeps := [];
      var maxAttempts := MaxAttempts(config);
      var consecutiveErrors, attempt := 0, 1;
      made, denied := 0, false;
      outcome := Broken(NetworkError, maxAttempts);
      while attempt <= maxAttempts
        invariant 1 <= attempt <= maxAttempts && made == attempt - 1 == consecutiveErrors && !denied && outcome.Broken?
        invariant Since(l0) && InStep(world, made) && AllLost(world, made)
        invariant OnlyRetried(config.deadline, world, made) && SleepsRight(config, world, made, sleeps)
        invariant Spent(made, old(budget.remaining), old(budget.used)) && made <= Max(0, old(budget.remaining))
        decreases maxAttempts - attempt
      {
        var ok, fate, retryAfter := TryAttempt(world, attempt - 1, l0);
        if !ok {
          outcome, denied := Broken(Aborted, attempt - 1), true;
          break;
        }
        made := made + 1;
        if fate.Answered? {
          outcome := Fetched(fate.body, attempt);
          break;
        }
        outcome := Broken(fate.kind, if fate.kind.Http4xx? || fate.kind.MalformedResponse? then attempt
          else maxAttempts);
        consecutiveErrors := consecutiveErrors + 1;
        if !fate.again || attempt >= maxAttempts {
          break;
        }
        var ms := Backoff(consecutiveErrors, retryAfter, world[attempt - 1].answeredAt);
        assert ms == SleepAfter(config, world[attempt - 1], consecutiveErrors);
        sleeps := sleeps + [ms];
        attempt := attempt + 1;
      }
    }

    /** How a call left its attempts: all settled, none succeeded but possibly the last,
        and no other of its ids ever reserved. */
    ghost predicate Settles(world: seq<Attempt>, made: nat, r: ListResult)
      reads service
    {
      && made <= MaxAttempts(config)
      && match r
         case Listed(_, _) => Last(world, made, B.Succeeded, None)
         case FetchFailed(_) => AllLost(world, made)
         case PersistFailed(why) => Last(world, made, B.Failed, Some(PersistFailureKind(why)))
         case _ => Last(world, made, B.Failed, Some(B.ClientContract))
    }

    /** Which result a fetched body and the caller's callback lead to. */
    ghost predicate Judged(body: Body, finish: Finish, r: ListResult) {
      match r
      case FetchFailed(_) => false
      case NotAnObject => body.Scalar?
      case WrongProvider => body.Payload? && !OwnItems(body.items, provider)
      case PersistFailed(why) =>
        && body.Payload? && OwnItems(body.items, provider)
        && why == finish.persist && why !in {NoCallback, Persisted}
      case Listed(_, _) => body.Payload? && OwnItems(body.items, provider) && finish.persist in {NoCallback, Persisted}
    }

    /** The call up to its callback: a page whose last attempt is still open, or a
        result with every attempt settled. */
    method FetchPage(world: seq<Attempt>, at: Moment, ghost l0: B.Ledger)
      returns (early: Option<ListResult>, attempts: nat, ghost made: nat)
      requires |world| == 3 && FreshIds(world, at, scope, service.View()) && InStep(world, 0) && Since(l0)
      modifies this, service, budget
      ensures Since(l0) && made <= Max(0, old(budget.remaining)) && made <= MaxAttempts(config)
      ensures Spent(made, old(budget.remaining), old(budget.used))
      ensures made > 0 ==> OnlyRetried(config.deadline, world, made - 1)
      ensures early.Some? ==> Settles(world, made, early.value) && !early.value.Listed? && !early.value.PersistFailed?
      ensures early.Some? && early.value.FetchFailed? ==>
                if made == 0 then early.value.kind.Aborted? else FateOf(config.deadline, world[made - 1]).Lost?
      ensures early.None? ==>
        attempts == made && Last(world, made, B.Confirmed, None) && lastAttemptId == Some(world[made - 1].id)
      ensures early.None? || !early.value.FetchFailed? ==>
                && made >= 1 && FateOf(config.deadline, world[made - 1]).Answered?
                && Accepted(FateOf(config.deadline, world[made - 1]).body, early)
    {
      var outcome, sleeps;
      ghost var denied;
      NoneReserved(config.deadline, service.View(), world);
      outcome, sleeps, made, denied := ProviderFetch(world, l0);
      attempts := outcome.attempts;
      if outcome.Broken? {
        return Some(FetchFailed(outcome.kind)), attempts, made;
      }
      match outcome.body {
        case Scalar =>
          Fail(world, made, B.Confirmed, at, lastAttemptId, B.ClientContract, l0);
          return Some(NotAnObject), attempts, made;
        case Payload(items) =>
          var own := ValidateProviderIdentity(items);
          if !own {
            Fail(world, made, B.Confirmed, at, lastAttemptId, B.ClientContract, l0);
            return Some(WrongProvider), attempts, made;
          }
      }
      early := None;
    }

    /** What the fetched body is rejected for, if anything. */
    ghost predicate Accepted(body: Body, early: Option<ListResult>) {
      match early
      case None => body.Payload? && OwnItems(body.items, provider)
      case Some(NotAnObject) => body.Scalar?
      case Some(WrongProvider) => body.Payload? && !OwnItems(body.items, provider)
      case _ => false
    }

    /** The call from the end of its callback: the last attempt takes the outcome. */
    method Conclude(world: seq<Attempt>, attempts: nat, persist: PersistOutcome, at: Moment, ghost l0: B.Ledger)
      returns (r: ListResult)
      requires |world| == 3 && OwnIds(world, scope) && Last(world, attempts, B.Confirmed, None)
      requires lastAttemptId == Some(world[attempts - 1].id)
      requires attempts <= MaxAttempts(config) && Outside(at, Ids(world), scope) && Since(l0)
      modifies service
      ensures Since(l0) && Settles(world, attempts, r)
      ensures r == if persist in {NoCallback, Persisted} then Listed(attempts, attempts - 1) else PersistFailed(persist)
    {
      match persist {
        case NoCallback =>
        case Persisted =>
        case _ =>
          Fail(world, attempts, B.Confirmed, at, lastAttemptId, PersistFailureKind(persist), l0);
          return PersistFailed(persist);
      }
      Succeed(world, attempts, at, lastAttemptId, l0);
      r := Listed(attempts, Max(0, attempts - 1));
    }

    /** One call against the `/vehicles` endpoint. */
    method ListVehicles(world: seq<Attempt>, finish: Finish) returns (r: ListResult, ghost made: nat)
      requires |world| == 3 && FreshIds(world, finish.at, scope, service.View()) && InStep(world, 0)
      modifies this, service, budget
      ensures B.Reaches(service.config, old(service.View()), service.View(), scope)
      ensures Settles(world, made, r) && Spent(made, old(budget.remaining), old(budget.used))
      ensures made <= Max(0, old(budget.remaining)) && (made > 0 ==> OnlyRetried(config.deadline, world, made - 1))
      ensures !r.FetchFailed? ==>
                && made >= 1 && FateOf(config.deadline, world[made - 1]).Answered?
                && Judged(FateOf(config.deadline, world[made - 1]).body, finish, r)
      ensures r.Listed? ==> r == Listed(made, made - 1)
      ensures r == PersistFailed(LeaseLost) ==> Last(world, made, B.Failed, Some(B.LeaseLost))
      ensures r.PersistFailed? && r.why.PageRejected? ==> Last(world, made, B.Failed, Some(B.ClientContract))
      ensures r == PersistFailed(OtherError) ==> Last(world, made, B.Failed, Some(B.Persistence))
    {
      ghost var l0 := service.View();
      B.ReachesSelf(service.config, l0, scope);
      var early, attempts;
      early, attempts, made := FetchPage(world, finish.at, l0);
      if early.Some? {
        return early.value, made;
      }
      r := Conclude(world, attempts, finish.persist, finish.at, l0);
    }

    method Succeed(ghost world: seq<Attempt>, ghost n: nat, m: Moment, id: Option<AttemptId>, ghost l0: B.Ledger)
      requires OwnIds(world, scope) && Last(world, n, B.Confirmed, None)
      requires Outside(m, Ids(world), scope) && id == Some(world[n - 1].id) && Since(l0)
      modifies service
      ensures Since(l0) && Last(world, n, B.Succeeded, None)
    {
      OthersAct(m, world, l0);
      ghost var mid := service.View();
      SameOnKeeps(config.deadline, old(service.View()), mid, world, n, B.Confirmed);
      if id.Some? {
        SucceedLast(config.deadline, service.config, mid, world, n, m.now);
        B.ReachesStep(service.config, mid, B.Complete(id.value, true, None, m.now), scope);
        service.Complete(id.value, true, None, m.now);
        B.ReachesTransitive(service.config, l0, mid, service.View(), scope);
      }
    }

    method ValidateProviderIdentity(items: seq<Option<B.Provider>>) returns (own: bool)
      ensures own <==> OwnItems(items, provider)
    {
      for i := 0 to |items|
        invariant OwnItems(items[..i], provider)
      {
        if items[i] != Some(provider) {
          return false;
        }
      }
      own := true;
    }
  }
}
