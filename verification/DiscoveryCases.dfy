/** Runs that show the limits of the sweep's guarantees are reached: cursors that come
    back are committed again and again, and a late search has a shown lot charged. */
module DiscoveryCases {
  import opened Wrappers
  import L = Leases
  import D = Discovery
  import R = DiscoveryRun

  function Empty(clock: int): D.System { D.System(L.Seeded(clock), map[], map[], map[], map[], clock) }

  /** Some run from an empty start ends in this state. */
  ghost predicate Reachable(provider: D.Provider, s: D.System) {
    exists path, taken :: D.Run(provider, path, taken) && path[|taken|] == s
  }

  lemma ReachedIsReachable(provider: D.Provider, clock: int, s: D.System)
    requires R.Reaches(provider, Empty(clock), s)
    ensures Reachable(provider, s)
  {
    var events :| s == R.Replay(provider, Empty(clock), events);
    R.ReplayIsRun(provider, Empty(clock), events);
  }

  // ---------------------------------------------------------------------------
  // Every chain the code accepts is committed
  // ---------------------------------------------------------------------------

  /** The one check the code makes: a next cursor differs from the current one. */
  predicate Accepted(pages: seq<D.Page>) {
    forall k :: 0 <= k < |pages| ==> pages[k].next.Some? && pages[k].next != D.CursorAt(pages, k)
  }

  /** Nobody holds the lease, and the sweep of `q` has committed these pages. */
  predicate AtRest(s: D.System, q: D.Query, pages: seq<D.Page>, tokens: nat) {
    && s.lease.owner == L.NO_OWNER
    && (forall w :: w in s.workers ==> |w| <= tokens)
    && if q in s.checkpoints then
         var cp := s.checkpoints[q];
         && cp.exhaustedAt.None? && cp.cycleStartedAt.Some? && cp.cycle == 0
         && cp.pages == pages && cp.cursor == D.CursorAt(pages, |pages|)
       else pages == []
  }

  function NewToken(n: nat): string { seq(n + 1, _ => 'w') }

  function Now(s: D.System, act: D.Action): D.Event { D.Event(s.clock, s.clock, act) }

  /** A worker with this page about to be committed. */
  predicate Holding(s: D.System, q: D.Query, pages: seq<D.Page>, w: D.Token, page: D.Page, tokens: nat) {
    && s.lease.owner == w && w != L.NO_OWNER && s.clock < s.lease.expiresAt
    && (forall v :: v in s.workers ==> |v| <= tokens)
    && w in s.workers && s.workers[w].fence == s.lease.fence && s.workers[w].query == q
    && s.workers[w].phase == D.Fetched(page, s.clock)
    && q in s.checkpoints && s.checkpoints[q].cycle == 0 && s.checkpoints[q].pages == pages
    && s.checkpoints[q].cycleStartedAt.Some? && s.checkpoints[q].exhaustedAt.None?
  }

  lemma FetchNext(provider: D.Provider, s0: D.System, s: D.System, q: D.Query, pages: seq<D.Page>, n: nat)
    returns (s': D.System)
    requires R.Reaches(provider, s0, s) && AtRest(s, q, pages, n)
    requires D.Request(provider, q, 0, D.CursorAt(pages, |pages|)).next != D.CursorAt(pages, |pages|)
    requires D.Request(provider, q, 0, D.CursorAt(pages, |pages|)).next.Some?
    ensures R.Reaches(provider, s0, s')
    ensures Holding(s', q, pages, NewToken(n), D.Request(provider, q, 0, D.CursorAt(pages, |pages|)), n + 1)
  {
    var w := NewToken(n);
    assert |w| == n + 1;
    R.ReachesStep(provider, s0, s, Now(s, D.Claim(w, q, 180_000, 2)));
    var s1 := D.Apply(provider, s, Now(s, D.Claim(w, q, 180_000, 2)));
    R.ReachesStep(provider, s0, s1, Now(s1, D.Read(w)));
    var s2 := D.Apply(provider, s1, Now(s1, D.Read(w)));
    assert s2.workers[w].phase.Ready? && s2.workers[w].cursor == D.CursorAt(pages, |pages|);
    R.ReachesStep(provider, s0, s2, Now(s2, D.Fetch(w)));
    s' := D.Apply(provider, s2, Now(s2, D.Fetch(w)));
  }

  lemma CommitNext(
      provider: D.Provider, s0: D.System, s: D.System, q: D.Query, pages: seq<D.Page>, w: D.Token, page: D.Page, n: nat)
    returns (s': D.System)
    requires R.Reaches(provider, s0, s) && Holding(s, q, pages, w, page, n) && page.next.Some?
    ensures R.Reaches(provider, s0, s') && AtRest(s', q, pages + [page], n)
  {
    R.ReachesStep(provider, s0, s, Now(s, D.Commit(w)));
    var s1 := D.Apply(provider, s, Now(s, D.Commit(w)));
    R.ReachesStep(provider, s0, s1, Now(s1, D.Stop(w)));
    var s2 := D.Apply(provider, s1, Now(s1, D.Stop(w)));
    R.ReachesStep(provider, s0, s2, Now(s2, D.Release(w)));
    s' := D.Apply(provider, s2, Now(s2, D.Release(w)));
  }

  lemma StartsAtRest(provider: D.Provider, q: D.Query)
    ensures R.Reaches(provider, Empty(0), Empty(0)) && AtRest(Empty(0), q, [], 0)
  {
    R.ReachesSelf(provider, Empty(0));
  }

  lemma {:induction false} CommitAll(provider: D.Provider, q: D.Query, pages: seq<D.Page>) returns (s: D.System)
    requires D.Chain(provider, q, 0, pages) && Accepted(pages)
    ensures R.Reaches(provider, Empty(0), s) && AtRest(s, q, pages, |pages|)
  {
    hide *;
    if pages == [] {
      s := Empty(0);
      StartsAtRest(provider, q);
    } else {
      var before, page := pages[..|pages| - 1], pages[|pages| - 1];
      LastRequest(provider, q, pages);
      assert before + [page] == pages;
      s := CommitAll(provider, q, before);
      s := FetchNext(provider, Empty(0), s, q, before, |before|);
      s := CommitNext(provider, Empty(0), s, q, before, NewToken(|before|), page, |pages|);
    }
  }

  lemma LastRequest(provider: D.Provider, q: D.Query, pages: seq<D.Page>)
    requires D.Chain(provider, q, 0, pages) && Accepted(pages) && pages != []
    ensures var before, page := pages[..|pages| - 1], pages[|pages| - 1];
      && D.Chain(provider, q, 0, before) && Accepted(before)
      && page == D.Request(provider, q, 0, D.CursorAt(before, |before|))
      && page.next.Some? && page.next != D.CursorAt(before, |before|)
  {
    var before := pages[..|pages| - 1];
    D.ChainPrefix(provider, q, 0, pages);
    AcceptedPrefix(pages);
    assert D.CursorAt(before, |before|) == D.CursorAt(pages, |before|);
  }

  lemma AcceptedPrefix(pages: seq<D.Page>)
    requires Accepted(pages) && pages != []
    ensures Accepted(pages[..|pages| - 1])
  {
    var before := pages[..|pages| - 1];
    forall k | 0 <= k < |before| ensures before[k].next.Some? && before[k].next != D.CursorAt(before, k) {
      assert D.CursorAt(before, k) == D.CursorAt(pages, k) && before[k] == pages[k];
    }
  }

  /** Whatever chain the provider serves, if each next cursor differs from the one before
      it, runs of the workers commit it, however often its requests come back. */
  lemma AcceptedChainIsCommitted(provider: D.Provider, q: D.Query, pages: seq<D.Page>)
    requires D.Chain(provider, q, 0, pages) && Accepted(pages) && pages != []
    ensures exists s :: Reachable(provider, s) && q in s.checkpoints && s.checkpoints[q].pages == pages
  {
    var s := CommitAll(provider, q, pages);
    ReachedIsReachable(provider, 0, s);
  }

  /** A provider whose second and third page lead to each other, with no empty cursor and
      every cursor different from the one before. */
  function Circling(q: D.Query, cycle: nat, c: Option<D.Cursor>): D.Page {
    D.Page(map[], Some(if c == Some("a") then "b" else "a"))
  }

  function CirclePages(): seq<D.Page> {
    var toA, toB := D.Page(map[], Some("a")), D.Page(map[], Some("b"));
    [toA, toB, toA, toB]
  }

  /** Its sweep commits the same request twice, and never ends. */
  lemma CirclingSweepLoops(q: D.Query)
    ensures exists s :: Reachable(Circling, s) && q in s.checkpoints && D.Loops(s.checkpoints[q].pages, 1, 3)
    ensures !D.Exhausts(Circling, q, 0)
  {
    var pages := CirclePages();
    CircleIsChain(q);
    AcceptedChainIsCommitted(Circling, q, pages);
    assert D.Loops(pages, 1, 3);
    D.ChainIsServedPrefix(Circling, q, 0, pages);
    LoopNeverExhausts(Circling, q, 0, 4, 1, 3);
  }

  lemma LoopNeverExhausts(provider: D.Provider, q: D.Query, cycle: nat, n: nat, a: nat, b: nat)
    requires D.Loops(D.ServedPrefix(provider, q, cycle, n), a, b)
    ensures !D.Exhausts(provider, q, cycle)
  {
    if D.Exhausts(provider, q, cycle) {
      D.ExhaustsNeverLoops(provider, q, cycle);
      assert false;
    }
  }

  lemma CircleIsChain(q: D.Query)
    ensures D.Chain(Circling, q, 0, CirclePages()) && Accepted(CirclePages())
  {
    var pages := CirclePages();
    forall k | 0 <= k < |pages|
      ensures pages[k] == D.Request(Circling, q, 0, D.CursorAt(pages, k))
      ensures pages[k].next != D.CursorAt(pages, k)
    {
      assert k == 0 || k == 1 || k == 2 || k == 3;
    }
  }

  /** An empty next cursor is stored but sent as none, so it comes back to the first
      request: such a cycle is never exhausted either. */
  lemma EmptyCursorNeverEnds(
      provider: D.Provider, s: seq<D.System>, e: seq<D.Event>, i: nat, j: nat, q: D.Query)
    requires D.Run(provider, s, e) && i <= j <= |e| && q in s[i].checkpoints && s[i].checkpoints[q].cursor == Some("")
    ensures q in s[j].checkpoints && s[j].checkpoints[q].exhaustedAt.None?
    ensures s[j].checkpoints[q].cycle == s[i].checkpoints[q].cycle
  {
    D.ChainHolds(provider, s, e, i);
    var cp := s[i].checkpoints[q];
    assert D.CheckpointInv(provider, q, cp, s[i].clock);
    assert D.Loops(cp.pages, 0, |cp.pages|);
    D.LoopLastsForEver(provider, s, e, i, j, q, 0, |cp.pages|);
  }

  // ---------------------------------------------------------------------------
  // A shown lot that is charged
  // ---------------------------------------------------------------------------

  /** The provider shows the lot on its first page, and its second page is the last. */
  predicate ShowsFirst(provider: D.Provider, q: D.Query, l: D.LotId) {
    var first := provider(q, 0, None);
    && !q.scoped && l in first.lots && first.lots[l].passenger && first.next.Some? && first.next.value != ""
    && provider(q, 0, first.next).next.None? && l !in provider(q, 0, first.next).lots
  }

  /** From an empty market, with one worker and one search whose clock reading is a
      millisecond older than the sweep: the sweep shows the lot, is exhausted, and
      charges the lot a miss. */
  lemma ShownLotIsCharged(provider: D.Provider, q: D.Query, l: D.LotId)
    requires ShowsFirst(provider, q, l)
    ensures exists s :: Reachable(provider, s) && Charged(s, q, l)
  {
    var s := ShowLot(provider, q, l);
    s := SearchLate(provider, s, q, l);
    s := ExhaustSweep(provider, s, q, l);
    ReachedIsReachable(provider, 1, s);
  }

  ghost predicate Charged(s: D.System, q: D.Query, l: D.LotId) {
    && q in s.checkpoints && s.checkpoints[q].exhaustedAt.Some? && D.OnPages(s.checkpoints[q].pages, l)
    && l in s.lots && s.lots[l].misses == 1
  }

  /** The worker is between its two pages; the lot has been shown. */
  predicate Midway(provider: D.Provider, s: D.System, q: D.Query, l: D.LotId) {
    && s.clock == 1 && "w" in s.workers && s.lease.owner == "w" && s.workers["w"].fence == s.lease.fence
    && 1 < s.lease.expiresAt
    && s.workers["w"].query == q && s.workers["w"].phase.Ready? && s.workers["w"].cycleStart == 1
    && s.workers["w"].committed < s.workers["w"].limit && s.workers["w"].cursor == provider(q, 0, None).next
    && q in s.checkpoints && s.checkpoints[q].cycle == 0 && s.checkpoints[q].pages == [provider(q, 0, None)]
    && l in s.lots && s.lots[l].state.Discovered? && s.lots[l].nextRefreshAt.None?
  }

  lemma ShowLot(provider: D.Provider, q: D.Query, l: D.LotId) returns (s: D.System)
    requires ShowsFirst(provider, q, l)
    ensures R.Reaches(provider, Empty(1), s) && Midway(provider, s, q, l)
  {
    var s0 := Empty(1);
    R.ReachesSelf(provider, s0);
    R.ReachesStep(provider, s0, s0, Now(s0, D.Claim("w", q, 180_000, 2)));
    var s1 := D.Apply(provider, s0, Now(s0, D.Claim("w", q, 180_000, 2)));
    R.ReachesStep(provider, s0, s1, Now(s1, D.Read("w")));
    var s2 := D.Apply(provider, s1, Now(s1, D.Read("w")));
    R.ReachesStep(provider, s0, s2, Now(s2, D.Fetch("w")));
    var s3 := D.Apply(provider, s2, Now(s2, D.Fetch("w")));
    R.ReachesStep(provider, s0, s3, Now(s3, D.Commit("w")));
    s := D.Apply(provider, s3, Now(s3, D.Commit("w")));
  }

  lemma SearchLate(provider: D.Provider, s: D.System, q: D.Query, l: D.LotId) returns (s': D.System)
    requires R.Reaches(provider, Empty(1), s) && Midway(provider, s, q, l)
    ensures R.Reaches(provider, Empty(1), s') && Midway(provider, s', q, l)
    ensures s'.lots[l].lastSeenAt == 0 && s'.lots[l].misses == 0 && s'.lots[l].lifecycle.Open?
  {
    var ev := Now(s, D.Search(l, D.Facts(true, D.Open), 0));
    R.ReachesStep(provider, Empty(1), s, ev);
    s' := D.Apply(provider, s, ev);
  }

  lemma ExhaustSweep(provider: D.Provider, s: D.System, q: D.Query, l: D.LotId) returns (s': D.System)
    requires ShowsFirst(provider, q, l) && R.Reaches(provider, Empty(1), s) && Midway(provider, s, q, l)
    requires s.lots[l].lastSeenAt == 0 && s.lots[l].misses == 0 && s.lots[l].lifecycle.Open?
    ensures R.Reaches(provider, Empty(1), s') && Charged(s', q, l)
  {
    R.ReachesStep(provider, Empty(1), s, Now(s, D.Fetch("w")));
    var s1 := D.Apply(provider, s, Now(s, D.Fetch("w")));
    R.ReachesStep(provider, Empty(1), s1, Now(s1, D.Commit("w")));
    s' := D.Apply(provider, s1, Now(s1, D.Commit("w")));
    assert s'.checkpoints[q].pages[0] == provider(q, 0, None);
  }
}
