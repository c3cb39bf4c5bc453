/** Hot offers: the greedy selection from a ranked list under diversity caps, the
    provider cap on a finished list, and the list of manual overrides. */
module HotOffers {
  import opened Wrappers

  const MAX_ITEMS: nat := 6
  const MAX_PINS: nat := 2
  const MAX_SAME_MAKE: nat := 2
  const MAX_SAME_MAKE_MODEL: nat := 1
  const MAX_SAME_PROVIDER: nat := 3

  datatype LotRef = LotRef(provider: string, lotId: string)

  datatype Candidate = Candidate(provider: string, lotId: string, make: string, model: string)

  function LotKey(provider: string, lotId: string): string { provider + ":" + lotId }

  function KeyOf(c: Candidate): string { LotKey(c.provider, c.lotId) }

  // ---------------------------------------------------------------------------
  // Caps
  // ---------------------------------------------------------------------------

  /** What the caps count. */
  datatype Attr = Make | MakeModel | Provider

  function Value(c: Candidate, a: Attr): string {
    match a
    case Make => Lower(c.make)
    case MakeModel => Lower(c.make) + ":" + Lower(c.model)
    case Provider => Lower(c.provider)
  }

  function Cap(a: Attr): nat {
    match a
    case Make => MAX_SAME_MAKE
    case MakeModel => MAX_SAME_MAKE_MODEL
    case Provider => MAX_SAME_PROVIDER
  }

  /** How many of the chosen share a value. */
  function Count(chosen: seq<Candidate>, a: Attr, v: string): nat {
    if chosen == [] then 0
    else Count(chosen[..|chosen| - 1], a, v) + (if Value(chosen[|chosen| - 1], a) == v then 1 else 0)
  }

  predicate AtCap(chosen: seq<Candidate>, c: Candidate, a: Attr) { Count(chosen, a, Value(c, a)) >= Cap(a) }

  /** Some cap keeps the candidate out of the chosen list. */
  predicate Blocked(chosen: seq<Candidate>, c: Candidate) {
    AtCap(chosen, c, Make) || AtCap(chosen, c, MakeModel) || AtCap(chosen, c, Provider)
  }

  lemma CountOne(chosen: seq<Candidate>, c: Candidate, a: Attr, v: string)
    ensures Count(chosen + [c], a, v) == Count(chosen, a, v) + (if Value(c, a) == v then 1 else 0)
  {
    assert (chosen + [c])[..|chosen|] == chosen;
  }

  predicate HasKey(chosen: seq<Candidate>, key: string) { exists i :: 0 <= i < |chosen| && KeyOf(chosen[i]) == key }

  predicate NoDuplicates(chosen: seq<Candidate>) {
    forall i, j :: 0 <= i < j < |chosen| ==> KeyOf(chosen[i]) != KeyOf(chosen[j])
  }

  // ---------------------------------------------------------------------------
  // Specification of the selection
  // ---------------------------------------------------------------------------

  /** Choosing one ranked candidate after another: taken unless the list is full, it is
      already there, or a cap blocks it. */
  function Fill(chosen: seq<Candidate>, ranked: seq<Candidate>): seq<Candidate> {
    if ranked == [] then chosen
    else
      var before, c := Fill(chosen, ranked[..|ranked| - 1]), ranked[|ranked| - 1];
      if |before| >= MAX_ITEMS || HasKey(before, KeyOf(c)) || Blocked(before, c) then before else before + [c]
  }

  /** The pinned candidates that are ranked, each once, in the order of the pins. */
  function Pinned(pins: seq<LotRef>, ranked: seq<Candidate>): seq<Candidate> {
    if pins == [] then []
    else
      var before := Pinned(pins[..|pins| - 1], ranked);
      var found := Find(ranked, pins[|pins| - 1]);
      if found.Some? && !HasKey(before, KeyOf(found.value)) then before + [found.value] else before
  }

  predicate Is(c: Candidate, lot: LotRef) { c.provider == lot.provider && c.lotId == lot.lotId }

  function Find(ranked: seq<Candidate>, lot: LotRef): (found: Option<Candidate>)
    ensures found.Some? ==> found.value in ranked && Is(found.value, lot)
    ensures found.None? ==> forall c :: c in ranked ==> !Is(c, lot)
  {
    if ranked == [] then None
    else if Is(ranked[0], lot) then Some(ranked[0])
    else Find(ranked[1..], lot)
  }

  lemma {:induction false} FillExtends(chosen: seq<Candidate>, ranked: seq<Candidate>)
    ensures chosen <= Fill(chosen, ranked) && |Fill(chosen, ranked)| <= Max(|chosen|, MAX_ITEMS)
  {
    if ranked != [] {
      FillExtends(chosen, ranked[..|ranked| - 1]);
    }
  }

  lemma {:induction false} FillMonotone(chosen: seq<Candidate>, ranked: seq<Candidate>, n: nat)
    requires n <= |ranked|
    ensures Fill(chosen, ranked[..n]) <= Fill(chosen, ranked)
    decreases |ranked|
  {
    if n < |ranked| {
      assert ranked[..|ranked| - 1][..n] == ranked[..n];
      FillMonotone(chosen, ranked[..|ranked| - 1], n);
    } else {
      assert ranked[..n] == ranked;
    }
  }

  lemma {:induction false} FillNoDuplicates(chosen: seq<Candidate>, ranked: seq<Candidate>)
    requires NoDuplicates(chosen)
    ensures NoDuplicates(Fill(chosen, ranked))
  {
    if ranked != [] {
      FillNoDuplicates(chosen, ranked[..|ranked| - 1]);
    }
  }

  /** Every automatic pick was within all three caps when it was made, so it takes no
      make past two, no make and model past one and no provider past three. */
  lemma {:induction false} PicksWithinCaps(chosen: seq<Candidate>, ranked: seq<Candidate>, i: nat, a: Attr)
    requires |chosen| <= i < |Fill(chosen, ranked)|
    ensures Count(Fill(chosen, ranked)[..i + 1], a, Value(Fill(chosen, ranked)[i], a)) <= Cap(a)
  {
    FillExtends(chosen, ranked);
    if ranked != [] {
      var before, c, after := Fill(chosen, ranked[..|ranked| - 1]), ranked[|ranked| - 1], Fill(chosen, ranked);
      if i < |before| {
        PicksWithinCaps(chosen, ranked[..|ranked| - 1], i, a);
        assert after[..i + 1] == before[..i + 1];
      } else {
        assert after == before + [c] && after[..i + 1] == after;
        CountOne(before, c, a, Value(c, a));
        assert !AtCap(before, c, a);
      }
    }
  }

  /** The positions whose make, make with model, or provider is that of `c`, case aside. */
  function SameMake(s: seq<Candidate>, c: Candidate): set<nat> {
    set i: nat | i < |s| && Lower(s[i].make) == Lower(c.make)
  }

  function SameModel(s: seq<Candidate>, c: Candidate): set<nat> {
    set i: nat | i < |s| && Lower(s[i].make) + ":" + Lower(s[i].model) == Lower(c.make) + ":" + Lower(c.model)
  }

  function SameProvider(s: seq<Candidate>, c: Candidate): set<nat> {
    set i: nat | i < |s| && Lower(s[i].provider) == Lower(c.provider)
  }

  function Positions(s: seq<Candidate>, a: Attr, v: string): set<nat> { set i: nat | i < |s| && Value(s[i], a) == v }

  lemma OneMorePosition(s: seq<Candidate>, c: Candidate, a: Attr, v: string)
    ensures |Positions(s + [c], a, v)| == |Positions(s, a, v)| + (if Value(c, a) == v then 1 else 0)
  {
    hide Value;
    assert Positions(s + [c], a, v) == Positions(s, a, v) + if Value(c, a) == v then {|s|} else {};
  }

  lemma {:induction false} CountIsSize(s: seq<Candidate>, a: Attr, v: string)
    ensures Count(s, a, v) == |Positions(s, a, v)|
  {
    hide Value, Positions;
    if s == [] {
      NoPositions(a, v);
    } else {
      CountIsSize(s[..|s| - 1], a, v);
      OneMorePosition(s[..|s| - 1], s[|s| - 1], a, v);
      assert s == s[..|s| - 1] + [s[|s| - 1]];
    }
  }

  lemma NoPositions(a: Attr, v: string)
    ensures |Positions([], a, v)| == 0
  {
  }

  /** The counts behind the caps are the numbers of these positions. */
  lemma CountsAreSizes(s: seq<Candidate>, c: Candidate)
    ensures Count(s, Make, Value(c, Make)) == |SameMake(s, c)|
    ensures Count(s, MakeModel, Value(c, MakeModel)) == |SameModel(s, c)|
    ensures Count(s, Provider, Value(c, Provider)) == |SameProvider(s, c)|
  {
    hide Count;
    CountIsSize(s, Make, Value(c, Make));
    CountIsSize(s, MakeModel, Value(c, MakeModel));
    CountIsSize(s, Provider, Value(c, Provider));
    assert Positions(s, Make, Value(c, Make)) == SameMake(s, c);
    assert Positions(s, MakeModel, Value(c, MakeModel)) == SameModel(s, c);
    assert Positions(s, Provider, Value(c, Provider)) == SameProvider(s, c);
  }

  /** A pick brings its make to at most two, its make with model to one and its provider
      to three; no pick is made beyond six. */
  lemma PicksKeepCaps(chosen: seq<Candidate>, ranked: seq<Candidate>, i: nat)
    requires |chosen| <= i < |Fill(chosen, ranked)|
    ensures var shown, c := Fill(chosen, ranked)[..i + 1], Fill(chosen, ranked)[i];
      |SameMake(shown, c)| <= 2 && |SameModel(shown, c)| <= 1 && |SameProvider(shown, c)| <= 3 && i < 6
  {
    var all := Fill(chosen, ranked);
    CountsAreSizes(all[..i + 1], all[i]);
    PicksWithinCaps(chosen, ranked, i, Make);
    PicksWithinCaps(chosen, ranked, i, MakeModel);
    PicksWithinCaps(chosen, ranked, i, Provider);
    FillExtends(chosen, ranked);
  }

  /** A candidate left out of fewer than six met, before its turn, two of its make, one
      of its make with model or three of its provider. */
  lemma LeftOutMeetsCap(chosen: seq<Candidate>, ranked: seq<Candidate>, k: nat)
    requires k < |ranked| && |Fill(chosen, ranked)| < 6 && !HasKey(Fill(chosen, ranked), KeyOf(ranked[k]))
    ensures var before, c := Fill(chosen, ranked[..k]), ranked[k];
      |SameMake(before, c)| >= 2 || |SameModel(before, c)| >= 1 || |SameProvider(before, c)| >= 3
  {
    LeftOutIsBlocked(chosen, ranked, k);
    CountsAreSizes(Fill(chosen, ranked[..k]), ranked[k]);
  }

  /** The selection is maximal: a ranked candidate that is left out although there is
      room was blocked by the pins and the picks ranked before it. */
  lemma LeftOutIsBlocked(chosen: seq<Candidate>, ranked: seq<Candidate>, k: nat)
    requires k < |ranked| && |Fill(chosen, ranked)| < MAX_ITEMS && !HasKey(Fill(chosen, ranked), KeyOf(ranked[k]))
    ensures Blocked(Fill(chosen, ranked[..k]), ranked[k]) && Fill(chosen, ranked[..k]) <= Fill(chosen, ranked)
  {
    FillMonotone(chosen, ranked, k);
    FillMonotone(chosen, ranked, k + 1);
    var before, after, all := Fill(chosen, ranked[..k]), Fill(chosen, ranked[..k + 1]), Fill(chosen, ranked);
    assert ranked[..k + 1][..k] == ranked[..k];
    KeyStays(before, all, KeyOf(ranked[k]));
    KeyStays(after, all, KeyOf(ranked[k]));
    KeyAdded(before, ranked[k]);
  }

  lemma KeyStays(chosen: seq<Candidate>, longer: seq<Candidate>, key: string)
    requires chosen <= longer
    ensures HasKey(chosen, key) ==> HasKey(longer, key)
  {
    if HasKey(chosen, key) {
      var i :| 0 <= i < |chosen| && KeyOf(chosen[i]) == key;
      assert KeyOf(longer[i]) == key;
    }
  }

  lemma KeyAdded(chosen: seq<Candidate>, c: Candidate)
    ensures HasKey(chosen + [c], KeyOf(c))
  {
    assert KeyOf((chosen + [c])[|chosen|]) == KeyOf(c);
  }

  /** Picks appear in rank order: pick `i` is ranked before pick `j` exactly if `i < j`. */
  ghost predicate InRankOrder(chosen: seq<Candidate>, ranked: seq<Candidate>, all: seq<Candidate>, ranks: seq<nat>) {
    && |all| == |chosen| + |ranks|
    && (forall i :: 0 <= i < |ranks| ==> ranks[i] < |ranked| && all[|chosen| + i] == ranked[ranks[i]])
    && (forall i, j :: 0 <= i < j < |ranks| ==> ranks[i] < ranks[j])
  }

  lemma {:induction false} PicksFollowRank(chosen: seq<Candidate>, ranked: seq<Candidate>) returns (ranks: seq<nat>)
    ensures InRankOrder(chosen, ranked, Fill(chosen, ranked), ranks)
  {
    ranks := [];
    if ranked != [] {
      ranks := PicksFollowRank(chosen, ranked[..|ranked| - 1]);
      if Fill(chosen, ranked) != Fill(chosen, ranked[..|ranked| - 1]) {
        ranks := ranks + [|ranked| - 1];
      }
    }
  }

  /** The pinned part holds every pinned lot that is ranked, once, and nothing else. */
  lemma {:induction false} PinnedOk(pins: seq<LotRef>, ranked: seq<Candidate>)
    ensures NoDuplicates(Pinned(pins, ranked)) && |Pinned(pins, ranked)| <= |pins|
    ensures forall c :: c in Pinned(pins, ranked) ==> c in ranked && LotRef(c.provider, c.lotId) in pins
    ensures forall k, c :: 0 <= k < |pins| && c in ranked && Is(c, pins[k]) ==> HasKey(Pinned(pins, ranked), KeyOf(c))
  {
    if pins != [] {
      var init := pins[..|pins| - 1];
      PinnedOk(init, ranked);
      var before, after := Pinned(init, ranked), Pinned(pins, ranked);
      forall k, c | 0 <= k < |pins| && c in ranked && Is(c, pins[k]) ensures HasKey(after, KeyOf(c)) {
        if k < |init| {
          assert Is(c, init[k]);
        } else {
          var found := Find(ranked, pins[k]);
          assert KeyOf(found.value) == KeyOf(c);
          KeyAdded(before, found.value);
        }
        KeyStays(before, after, KeyOf(c));
      }
    }
  }

  lemma SelectionNoDuplicates(pins: seq<LotRef>, ranked: seq<Candidate>)
    ensures NoDuplicates(Fill(Pinned(pins, ranked), ranked))
  {
    PinnedOk(pins, ranked);
    FillNoDuplicates(Pinned(pins, ranked), ranked);
  }

  // ---------------------------------------------------------------------------
  // The selection
  // ---------------------------------------------------------------------------

  type Counts = map<string, nat>

  function Get(m: Counts, v: string): nat { if v in m then m[v] else 0 }

  /** The map holds the counts of one attribute. */
  ghost predicate Tracks(m: Counts, chosen: seq<Candidate>, a: Attr) { forall v :: Get(m, v) == Count(chosen, a, v) }

  lemma TracksOne(m: Counts, chosen: seq<Candidate>, a: Attr, c: Candidate)
    requires Tracks(m, chosen, a)
    ensures Tracks(m[Value(c, a) := Get(m, Value(c, a)) + 1], chosen + [c], a)
  {
    forall v ensures Count(chosen + [c], a, v) == Count(chosen, a, v) + (if Value(c, a) == v then 1 else 0) {
      CountOne(chosen, c, a, v);
    }
  }

  /** The keys in use are those of the chosen. */
  ghost predicate Used(used: set<string>, chosen: seq<Candidate>) { forall key :: key in used <==> HasKey(chosen, key) }

  lemma UsedOne(used: set<string>, chosen: seq<Candidate>, c: Candidate)
    requires Used(used, chosen)
    ensures Used(used + {KeyOf(c)}, chosen + [c])
  {
    forall key ensures HasKey(chosen + [c], key) <==> HasKey(chosen, key) || key == KeyOf(c) {
      if HasKey(chosen, key) {
        var i :| 0 <= i < |chosen| && KeyOf(chosen[i]) == key;
        assert KeyOf((chosen + [c])[i]) == key;
      }
      assert KeyOf((chosen + [c])[|chosen|]) == KeyOf(c);
    }
  }

  lemma PickTracked(makes: Counts, models: Counts, used: set<string>, chosen: seq<Candidate>, c: Candidate)
    requires Tracks(makes, chosen, Make) && Tracks(models, chosen, MakeModel) && Used(used, chosen)
    ensures Tracks(makes[Value(c, Make) := Get(makes, Value(c, Make)) + 1], chosen + [c], Make)
    ensures Tracks(models[Value(c, MakeModel) := Get(models, Value(c, MakeModel)) + 1], chosen + [c], MakeModel)
    ensures Used(used + {KeyOf(c)}, chosen + [c])
  {
    TracksOne(makes, chosen, Make, c);
    TracksOne(models, chosen, MakeModel, c);
    UsedOne(used, chosen, c);
  }

  lemma FillNothing(chosen: seq<Candidate>)
    ensures Fill(chosen, []) == chosen
  {
  }

  lemma FillStep(chosen: seq<Candidate>, ranked: seq<Candidate>, k: nat)
    requires k < |ranked|
    ensures var before, c := Fill(chosen, ranked[..k]), ranked[k];
      Fill(chosen, ranked[..k + 1]) ==
      if |before| >= MAX_ITEMS || HasKey(before, KeyOf(c)) || Blocked(before, c) then before else before + [c]
  {
    assert ranked[..k + 1][..k] == ranked[..k];
  }

  lemma MayPick(
      makes: Counts, models: Counts, providers: Counts, used: set<string>, chosen: seq<Candidate>, c: Candidate)
    requires Tracks(makes, chosen, Make) && Tracks(models, chosen, MakeModel) && Tracks(providers, chosen, Provider)
    requires Used(used, chosen)
    ensures HasKey(chosen, KeyOf(c)) <==> KeyOf(c) in used
    ensures Blocked(chosen, c) <==>
      (Get(makes, Value(c, Make)) >= MAX_SAME_MAKE || Get(models, Value(c, MakeModel)) >= MAX_SAME_MAKE_MODEL
       || Get(providers, Value(c, Provider)) >= MAX_SAME_PROVIDER)
  {
  }

  /** The automatic picks, added to the pins. */
  method AddAutomatic(
      sorted: seq<Candidate>, start: seq<Candidate>, used0: set<string>, makes0: Counts, models0: Counts)
    returns (result: seq<Candidate>)
    requires Used(used0, start) && Tracks(makes0, start, Make) && Tracks(models0, start, MakeModel)
    ensures result == Fill(start, sorted)
  {
    hide Fill, Blocked, HasKey, Tracks, Used;
    var used := used0;
    var makes: Counts := makes0;
    var models: Counts := models0;
    var providers: Counts := CountProviders(start);
    result := start;
    FillNothing(start);
    for k := 0 to |sorted|
      invariant result == Fill(start, sorted[..k]) && Used(used, result)
      invariant Tracks(makes, result, Make) && Tracks(models, result, MakeModel) && Tracks(providers, result, Provider)
    {
      FillStep(start, sorted, k);
      MayPick(makes, models, providers, used, result, sorted[k]);
      if |result| >= MAX_ITEMS {
        FillFull(start, sorted, k);
        return;
      }
      var c := sorted[k];
      var key, mk, mm, pv := KeyOf(c), Value(c, Make), Value(c, MakeModel), Value(c, Provider);
      if key in used {
        continue;
      }
      if Get(makes, mk) >= MAX_SAME_MAKE || Get(models, mm) >= MAX_SAME_MAKE_MODEL
         || Get(providers, pv) >= MAX_SAME_PROVIDER
      {
        continue;
      }
      TracksOne(providers, result, Provider, c);
      PickTracked(makes, models, used, result, c);
      result, used := result + [c], used + {key};
      makes, models := makes[mk := Get(makes, mk) + 1], models[mm := Get(models, mm) + 1];
      providers := providers[pv := Get(providers, pv) + 1];
    }
    assert sorted[..|sorted|] == sorted;
  }

  /** Pins first, then the ranked list under the caps. */
  method RankAndFilter(sorted: seq<Candidate>, pins: seq<LotRef>) returns (result: seq<Candidate>)
    ensures result == Fill(Pinned(pins, sorted), sorted)
    ensures NoDuplicates(result)
  {
    var pinned, used, makes, models := AddPins(sorted, pins);
    result := AddAutomatic(sorted, pinned, used, makes, models);
    SelectionNoDuplicates(pins, sorted);
  }

  /** A full list stays as it is. */
  lemma {:induction false} FillFull(chosen: seq<Candidate>, ranked: seq<Candidate>, n: nat)
    requires n <= |ranked| && |Fill(chosen, ranked[..n])| >= MAX_ITEMS
    ensures Fill(chosen, ranked) == Fill(chosen, ranked[..n])
    decreases |ranked|
  {
    if n < |ranked| {
      assert ranked[..|ranked| - 1][..n] == ranked[..n];
      FillFull(chosen, ranked[..|ranked| - 1], n);
    } else {
      assert ranked[..n] == ranked;
    }
  }

  method AddPins(sorted: seq<Candidate>, pins: seq<LotRef>)
    returns (result: seq<Candidate>, used: set<string>, makes: Counts, models: Counts)
    ensures result == Pinned(pins, sorted) && Used(used, result)
    ensures Tracks(makes, result, Make) && Tracks(models, result, MakeModel)
  {
    result, used, makes, models := [], {}, map[], map[];
    for k := 0 to |pins|
      invariant result == Pinned(pins[..k], sorted) && Used(used, result)
      invariant Tracks(makes, result, Make) && Tracks(models, result, MakeModel)
    {
      assert pins[..k + 1][..k] == pins[..k];
      var found := Find(sorted, pins[k]);
      if found.Some? && KeyOf(found.value) !in used {
        var c := found.value;
        var mk, mm := Value(c, Make), Value(c, MakeModel);
        PickTracked(makes, models, used, result, c);
        result, used := result + [c], used + {KeyOf(c)};
        makes, models := makes[mk := Get(makes, mk) + 1], models[mm := Get(models, mm) + 1];
      }
    }
    assert pins[..|pins|] == pins;
  }

  method CountProviders(items: seq<Candidate>) returns (counts: Counts)
    ensures Tracks(counts, items, Provider)
  {
    counts := map[];
    for k := 0 to |items|
      invariant Tracks(counts, items[..k], Provider)
    {
      var pv := Value(items[k], Provider);
      TracksOne(counts, items[..k], Provider, items[k]);
      assert items[..k + 1] == items[..k] + [items[k]];
      counts := counts[pv := Get(counts, pv) + 1];
    }
    assert items[..|items|] == items;
  }

  // ---------------------------------------------------------------------------
  // The provider cap on a finished list
  // ---------------------------------------------------------------------------

  /** At most three of each provider and six in all, first come first served. */
  function Capped(items: seq<Candidate>): seq<Candidate> {
    if items == [] then []
    else
      var before, c := Capped(items[..|items| - 1]), items[|items| - 1];
      if |before| >= MAX_ITEMS || AtCap(before, c, Provider) then before else before + [c]
  }

  function Providers(items: seq<Candidate>): set<string> { set i | 0 <= i < |items| :: Lower(items[i].provider) }

  lemma {:induction false} CappedWithinCap(items: seq<Candidate>, v: string)
    ensures Count(Capped(items), Provider, v) <= MAX_SAME_PROVIDER && |Capped(items)| <= MAX_ITEMS
  {
    if items != [] {
      var before, c := Capped(items[..|items| - 1]), items[|items| - 1];
      CappedWithinCap(items[..|items| - 1], v);
      CountOne(before, c, Provider, v);
    }
  }

  lemma FewerWithoutLast(items: seq<Candidate>, init: seq<Candidate>)
    requires items != [] && init == items[..|items| - 1]
    requires forall v :: Count(items, Provider, v) <= MAX_SAME_PROVIDER
    ensures forall v :: Count(init, Provider, v) <= MAX_SAME_PROVIDER
  {
    forall v ensures Count(init, Provider, v) <= MAX_SAME_PROVIDER {
      assert Count(items, Provider, v) <= MAX_SAME_PROVIDER;
    }
  }

  /** A list that already respects the cap is left as it is. */
  lemma {:induction false} CappedKeepsGood(items: seq<Candidate>)
    requires |items| <= MAX_ITEMS && forall v :: Count(items, Provider, v) <= MAX_SAME_PROVIDER
    ensures Capped(items) == items
  {
    if items != [] {
      var init, c := items[..|items| - 1], items[|items| - 1];
      FewerWithoutLast(items, init);
      CappedKeepsGood(init);
      assert Count(items, Provider, Value(c, Provider)) <= MAX_SAME_PROVIDER;
      assert items == init + [c];
    }
  }

  predicate Increasing(at: seq<nat>) { forall i, j :: 0 <= i < j < |at| ==> at[i] < at[j] }

  /** The item at `i` was turned away after the first `n` picks, all earlier in the list:
      they fill the list, or three of them are of its provider. */
  predicate TurnedAway(items: seq<Candidate>, at: seq<nat>, result: seq<Candidate>, i: nat, n: nat)
    requires i < |items| && n <= |at| == |result|
  {
    && (forall j :: 0 <= j < |at| ==> if j < n then at[j] < i else at[j] > i)
    && (n >= MAX_ITEMS || AtCap(result[..n], items[i], Provider))
  }

  /** The result is the items at the positions `at`, in their order, and every other item
      was turned away. */
  ghost predicate Selection(items: seq<Candidate>, at: seq<nat>, result: seq<Candidate>) {
    && |at| == |result| && Increasing(at)
    && (forall j :: 0 <= j < |at| ==> at[j] < |items| && result[j] == items[at[j]])
    && (forall i: nat {:trigger items[i]} :: i < |items| && i !in at ==>
          exists n :: 0 <= n <= |at| && TurnedAway(items, at, result, i, n))
  }

  lemma {:induction false} CappedSelects(items: seq<Candidate>) returns (at: seq<nat>)
    ensures Selection(items, at, Capped(items))
  {
    at := [];
    if items != [] {
      var init, last := items[..|items| - 1], |items| - 1;
      var before := Capped(init);
      at := CappedSelects(init);
      if Capped(items) == before {
        DropLast(items, at, before);
      } else {
        TakeLast(items, at, before);
        at := at + [last];
      }
    }
  }

  lemma DropLast(items: seq<Candidate>, at: seq<nat>, before: seq<Candidate>)
    requires items != [] && Selection(items[..|items| - 1], at, before)
    requires |before| >= MAX_ITEMS || AtCap(before, items[|items| - 1], Provider)
    ensures Selection(items, at, before)
  {
    var init := items[..|items| - 1];
    forall i: nat | i < |items| && i !in at ensures exists n :: 0 <= n <= |at| && TurnedAway(items, at, before, i, n) {
      if i < |init| {
        assert init[i] == items[i];
        var n :| 0 <= n <= |at| && TurnedAway(init, at, before, i, n);
        assert TurnedAway(items, at, before, i, n);
      } else {
        assert before[..|at|] == before;
        assert TurnedAway(items, at, before, i, |at|);
      }
    }
  }

  lemma TakeLast(items: seq<Candidate>, at: seq<nat>, before: seq<Candidate>)
    requires items != [] && Selection(items[..|items| - 1], at, before)
    ensures Selection(items, at + [|items| - 1], before + [items[|items| - 1]])
  {
    var init, at', after := items[..|items| - 1], at + [|items| - 1], before + [items[|items| - 1]];
    forall i: nat | i < |items| && i !in at'
      ensures exists n :: 0 <= n <= |at'| && TurnedAway(items, at', after, i, n)
    {
      assert at'[|at|] == |items| - 1;
      assert forall x :: x in at ==> x in at';
      assert init[i] == items[i];
      var n :| 0 <= n <= |at| && TurnedAway(init, at, before, i, n);
      assert after[..n] == before[..n];
      assert TurnedAway(items, at', after, i, n);
    }
  }

  ghost predicate WithinCap(result: seq<Candidate>) {
    |result| <= MAX_ITEMS && forall v :: Count(result, Provider, v) <= MAX_SAME_PROVIDER
  }

  lemma WithoutLastPick(
      items: seq<Candidate>, init: seq<Candidate>, at: seq<nat>, at': seq<nat>, result: seq<Candidate>,
      r: seq<Candidate>)
    requires Selection(items, at, result) && items != [] && init == items[..|items| - 1]
    requires at == at' + [|init|] && |r| == |at'| && result == r + [items[|init|]]
    ensures Selection(init, at', r)
  {
    forall j | 0 <= j < |at'| ensures at'[j] == at[j] < at[|at'|] && r[j] == result[j] {
      assert Increasing(at);
    }
    forall i: nat | i < |init| && i !in at' ensures exists n :: 0 <= n <= |at'| && TurnedAway(init, at', r, i, n) {
      assert init[i] == items[i] && i !in at;
      var n :| 0 <= n <= |at| && TurnedAway(items, at, result, i, n);
      assert at[|at'|] == |init|;
      assert r[..n] == result[..n];
      assert TurnedAway(init, at', r, i, n);
    }
  }

  lemma WithoutLastItem(items: seq<Candidate>, init: seq<Candidate>, at: seq<nat>, result: seq<Candidate>)
    requires Selection(items, at, result) && items != [] && init == items[..|items| - 1]
    requires at == [] || at[|at| - 1] < |init|
    ensures Selection(init, at, result)
  {
    forall i: nat | i < |init| && i !in at ensures exists n :: 0 <= n <= |at| && TurnedAway(init, at, result, i, n) {
      assert init[i] == items[i];
      var n :| 0 <= n <= |at| && TurnedAway(items, at, result, i, n);
      assert TurnedAway(init, at, result, i, n);
    }
  }

  lemma LastTurnedAway(items: seq<Candidate>, at: seq<nat>, result: seq<Candidate>)
    requires Selection(items, at, result) && items != [] && (at == [] || at[|at| - 1] < |items| - 1)
    ensures |result| >= MAX_ITEMS || AtCap(result, items[|items| - 1], Provider)
  {
    var i := |items| - 1;
    assert i !in at && items[i] == items[|items| - 1];
    var n :| 0 <= n <= |at| && TurnedAway(items, at, result, i, n);
    assert n == |at| && result[..n] == result;
  }

  /** The cap in figures: three of a provider and six in all; an item is turned away after
      six picks, or three of its provider. */
  lemma CapInFigures(items: seq<Candidate>, at: seq<nat>, result: seq<Candidate>, c: Candidate, i: nat, n: nat)
    requires i < |items| && n <= |at| == |result|
    ensures WithinCap(result) ==> |SameProvider(result, c)| <= 3 && |result| <= 6
    ensures TurnedAway(items, at, result, i, n) ==> n >= 6 || |SameProvider(result[..n], items[i])| >= 3
  {
    CountsAreSizes(result, c);
    CountsAreSizes(result[..n], items[i]);
  }

  /** There is only one such selection within the cap. */
  lemma {:induction false} OnlySelection(items: seq<Candidate>, at: seq<nat>, result: seq<Candidate>)
    requires Selection(items, at, result) && WithinCap(result)
    ensures result == Capped(items)
  {
    if items == [] {
      assert at == [];
    } else {
      var init, last := items[..|items| - 1], items[|items| - 1];
      if at != [] && at[|at| - 1] == |items| - 1 {
        var before := result[..|at| - 1];
        assert result == before + [last];
        WithoutLastPick(items, init, at, at[..|at| - 1], result, before);
        FewerWithoutLast(result, before);
        hide Selection;
        OnlySelection(init, at[..|at| - 1], before);
        CountOne(before, last, Provider, Value(last, Provider));
      } else {
        WithoutLastItem(items, init, at, result);
        LastTurnedAway(items, at, result);
        hide Selection;
        OnlySelection(init, at, result);
      }
    }
  }

  /** What the cap leaves of a list of several providers is a selection in the order of
      the list, and what it drops had three earlier ones of its provider, or six, in it. */
  method EnforceProviderCap(items: seq<Candidate>) returns (result: seq<Candidate>)
    ensures result == if |items| <= 3 || |Providers(items)| <= 1 then items else Capped(items)
    ensures |Providers(items)| > 1 ==> forall v :: Count(result, Provider, v) <= MAX_SAME_PROVIDER
    ensures |Providers(items)| > 1 ==> |result| <= MAX_ITEMS && exists at :: Selection(items, at, result)
  {
    if |items| <= MAX_SAME_PROVIDER {
      ShortIsWithinCap(items);
      CappedKeepsGood(items);
      var _ := CappedSelects(items);
      return items;
    }
    if |set i | 0 <= i < |items| :: Lower(items[i].provider)| <= 1 {
      return items;
    }
    result := [];
    var counts: Counts := map[];
    for k := 0 to |items|
      invariant result == Capped(items[..k]) && Tracks(counts, result, Provider)
    {
      assert items[..k + 1][..k] == items[..k];
      if |result| >= MAX_ITEMS {
        CappedFull(items, k);
        break;
      }
      var pv := Value(items[k], Provider);
      if Get(counts, pv) < MAX_SAME_PROVIDER {
        TracksOne(counts, result, Provider, items[k]);
        result := result + [items[k]];
        counts := counts[pv := Get(counts, pv) + 1];
      }
    }
    assert items[..|items|] == items;
    forall v ensures Count(result, Provider, v) <= MAX_SAME_PROVIDER && |result| <= MAX_ITEMS {
      CappedWithinCap(items, v);
    }
    CappedWithinCap(items, "");
    var _ := CappedSelects(items);
  }

  lemma ShortIsWithinCap(items: seq<Candidate>)
    requires |items| <= MAX_SAME_PROVIDER
    ensures forall v :: Count(items, Provider, v) <= MAX_SAME_PROVIDER
  {
    forall v ensures Count(items, Provider, v) <= MAX_SAME_PROVIDER {
      CountAtMostLength(items, Provider, v);
    }
  }

  lemma {:induction false} CountAtMostLength(items: seq<Candidate>, a: Attr, v: string)
    ensures Count(items, a, v) <= |items|
  {
    if items != [] {
      CountAtMostLength(items[..|items| - 1], a, v);
    }
  }

  lemma {:induction false} CappedFull(items: seq<Candidate>, n: nat)
    requires n <= |items| && |Capped(items[..n])| >= MAX_ITEMS
    ensures Capped(items) == Capped(items[..n])
    decreases |items|
  {
    if n < |items| {
      assert items[..|items| - 1][..n] == items[..n];
      CappedFull(items[..|items| - 1], n);
    } else {
      assert items[..n] == items;
    }
  }

  // ---------------------------------------------------------------------------
  // Overrides
  // ---------------------------------------------------------------------------

  datatype Tier = Urgent | ThisWeek

  datatype Kind = Pin | Exclude

  datatype Override = Override(provider: string, lotId: string, tier: Tier, action: Kind, position: Option<int>)

  datatype Refusal = NotEligible | PinLimitExceeded | InvalidPosition

  predicate SameLot(o: Override, p: Override) { o.provider == p.provider && o.lotId == p.lotId }

  predicate PinIn(o: Override, tier: Tier) { o.action.Pin? && o.tier == tier }

  /** One entry per lot; the pins of a tier have different positions, 1 or 2. */
  predicate WellFormed(os: seq<Override>) {
    && (forall i, j :: 0 <= i < j < |os| ==> !SameLot(os[i], os[j]) && !SamePlace(os[i], os[j]))
    && (forall i :: 0 <= i < |os| ==> ValidPin(os[i]))
  }

  predicate SamePlace(o: Override, p: Override) { o.action.Pin? && PinIn(p, o.tier) && o.position == p.position }

  predicate ValidPin(o: Override) { o.action.Pin? ==> o.position in {Some(1), Some(2)} }

  function Pins(os: seq<Override>, tier: Tier): nat {
    if os == [] then 0 else Pins(os[..|os| - 1], tier) + (if PinIn(os[|os| - 1], tier) then 1 else 0)
  }

  /** Hence a tier never has more than two pins. */
  lemma AtMostTwoPins(os: seq<Override>, tier: Tier)
    requires WellFormed(os)
    ensures Pins(os, tier) <= MAX_PINS
  {
    PinsBounded(os, tier);
  }

  function PinsAt(os: seq<Override>, tier: Tier, position: int): nat {
    if os == [] then 0
    else
      PinsAt(os[..|os| - 1], tier, position)
      + (if PinIn(os[|os| - 1], tier) && os[|os| - 1].position == Some(position) then 1 else 0)
  }

  lemma {:induction false} PinsBounded(os: seq<Override>, tier: Tier)
    requires WellFormed(os)
    ensures Pins(os, tier) == PinsAt(os, tier, 1) + PinsAt(os, tier, 2)
    ensures forall p :: PinsAt(os, tier, p) <= 1
    ensures forall p :: PinsAt(os, tier, p) == 1 ==>
      exists i :: 0 <= i < |os| && PinIn(os[i], tier) && os[i].position == Some(p)
  {
    if os != [] {
      var init, last := os[..|os| - 1], os[|os| - 1];
      PinsBounded(init, tier);
      assert ValidPin(last);
      assert forall i :: 0 <= i < |init| ==> !SamePlace(os[i], os[|os| - 1]);
      forall p | PinsAt(os, tier, p) == 1
        ensures exists i :: 0 <= i < |os| && PinIn(os[i], tier) && os[i].position == Some(p)
      {
        if PinsAt(init, tier, p) == 1 {
          var i :| 0 <= i < |init| && PinIn(init[i], tier) && init[i].position == Some(p);
          assert PinIn(os[i], tier) && os[i].position == Some(p);
        } else {
          assert PinIn(os[|os| - 1], tier) && os[|os| - 1].position == Some(p);
        }
      }
    }
  }

  lemma {:induction false} PinCounted(os: seq<Override>, tier: Tier, i: nat)
    requires i < |os| && PinIn(os[i], tier) && os[i].position.Some?
    ensures PinsAt(os, tier, os[i].position.value) >= 1
  {
    if i < |os| - 1 {
      PinCounted(os[..|os| - 1], tier, i);
    }
  }

  predicate PinAt(os: seq<Override>, tier: Tier, position: int) {
    exists i :: 0 <= i < |os| && PinIn(os[i], tier) && os[i].position == Some(position)
  }

  /** A tier is full exactly when both its positions are pinned. */
  lemma FullIffBothPinned(os: seq<Override>, o: Override)
    requires WellFormed(os)
    ensures TierFull(os, o) <==>
      PinAt(os, o.tier, 1) && PinAt(os, o.tier, 2) && forall p :: p in os ==> !(SameLot(o, p) && p.action.Pin?)
  {
    PinsBounded(os, o.tier);
    forall i | 0 <= i < |os| && PinIn(os[i], o.tier)
      ensures os[i].position.Some? && PinsAt(os, o.tier, os[i].position.value) >= 1
    {
      assert ValidPin(os[i]);
      PinCounted(os, o.tier, i);
    }
  }

  function Without(os: seq<Override>, i: nat): seq<Override>
    requires i < |os|
  {
    os[..i] + os[i + 1..]
  }

  function FindIndex(os: seq<Override>, wanted: Override -> bool): (r: Option<nat>)
    ensures r.Some? ==> r.value < |os| && wanted(os[r.value])
    ensures r.None? ==> forall p :: p in os ==> !wanted(p)
  {
    if os == [] then None
    else if wanted(os[0]) then Some(0)
    else match FindIndex(os[1..], wanted) case None => None case Some(i) => Some(i + 1)
  }

  lemma WithoutKeeps(os: seq<Override>, i: nat)
    requires WellFormed(os) && i < |os|
    ensures WellFormed(Without(os, i))
    ensures forall p :: p in Without(os, i) <==> p in os && !SameLot(os[i], p)
  {
    var fewer := Without(os, i);
    forall j | 0 <= j < |fewer| ensures fewer[j] == os[if j < i then j else j + 1] {
    }
    forall p ensures p in fewer <==> p in os && !SameLot(os[i], p) {
      if p in os && !SameLot(os[i], p) {
        var j :| 0 <= j < |os| && os[j] == p;
        assert fewer[if j < i then j else j - 1] == p;
      }
      if p in fewer {
        var j :| 0 <= j < |fewer| && fewer[j] == p;
        assert j < i ==> !SameLot(os[j], os[i]);
        assert j >= i ==> !SameLot(os[i], os[j + 1]);
      }
    }
  }

  /** The pin at a place is the only one there. */
  lemma PlaceCleared(os: seq<Override>, i: nat, o: Override)
    requires WellFormed(os) && i < |os| && SamePlace(o, os[i])
    ensures forall p :: p in Without(os, i) ==> !SamePlace(o, p)
  {
    var fewer := Without(os, i);
    forall p | p in fewer ensures !SamePlace(o, p) {
      var j :| 0 <= j < |fewer| && fewer[j] == p;
      var k := if j < i then j else j + 1;
      assert fewer[j] == os[k];
      assert if k < i then !SamePlace(os[k], os[i]) else !SamePlace(os[i], os[k]);
    }
  }

  lemma Appended(os: seq<Override>, o: Override)
    requires WellFormed(os) && ValidPin(o) && forall p :: p in os ==> !Displaces(o, p)
    ensures WellFormed(os + [o])
    ensures forall p :: p in os + [o] <==> p in os || p == o
  {
    forall i | 0 <= i < |os| ensures !SameLot(os[i], o) && !SamePlace(os[i], o) {
      assert os[i] in os;
    }
  }

  /** What an accepted override displaces: its lot's former entry, and for a pin the
      other lot's pin at the same place. */
  predicate Displaces(o: Override, p: Override) { SameLot(o, p) || SamePlace(o, p) }

  class HotOffersPolicy {
    var overrides: seq<Override>

    constructor ()
      ensures overrides == [] && WellFormed(overrides)
    {
      overrides := [];
    }

    /** Accepted: the new entry is last, everything it does not displace is kept. Refused:
        nothing changes. */
    method AddOverride(o: Override, eligible: bool) returns (refused: Option<Refusal>)
      requires WellFormed(overrides)
      modifies this
      ensures WellFormed(overrides)
      ensures refused.Some? ==> overrides == old(overrides)
      ensures refused.None? ==> |overrides| > 0 && overrides[|overrides| - 1] == o
      ensures refused.None? ==> forall p :: p in overrides <==> p == o || (p in old(overrides) && !Displaces(o, p))
      ensures refused.Some? <==> o.action.Pin? && (!eligible || TierFull(old(overrides), o) || !ValidPin(o))
      ensures refused == Some(NotEligible) <==> o.action.Pin? && !eligible
      ensures o.action.Pin? && eligible ==> (refused == Some(PinLimitExceeded) <==> TierFull(old(overrides), o))
    {
      var list := overrides;
      if o.action.Pin? {
        if !eligible {
          return Some(NotEligible);
        }
        var existing := FindIndex(list, p => SameLot(o, p) && p.action.Pin?);
        if existing.Some? {
          WithoutKeeps(list, existing.value);
          list := Without(list, existing.value);
        } else if Pins(list, o.tier) >= MAX_PINS {
          return Some(PinLimitExceeded);
        }
        if o.position != Some(1) && o.position != Some(2) {
          return Some(InvalidPosition);
        }
        var conflict := FindIndex(list, p => SamePlace(o, p) && !SameLot(o, p));
        if conflict.Some? {
          WithoutKeeps(list, conflict.value);
          PlaceCleared(list, conflict.value, o);
          list := Without(list, conflict.value);
        }
      }
      list := WithoutLot(list, o);
      Appended(list, o);
      overrides := list + [o];
      refused := None;
    }

    /** Removes the entry of the override's lot, if there is one. */
    static method WithoutLot(os: seq<Override>, o: Override) returns (list: seq<Override>)
      requires WellFormed(os)
      ensures WellFormed(list) && forall p :: p in list <==> p in os && !SameLot(o, p)
    {
      list := os;
      var entry := FindIndex(list, p => SameLot(o, p));
      if entry.Some? {
        WithoutKeeps(list, entry.value);
        list := Without(list, entry.value);
      }
    }

    method RemoveOverride(provider: string, lotId: string)
      requires WellFormed(overrides)
      modifies this
      ensures WellFormed(overrides)
      ensures forall p :: p in overrides <==> p in old(overrides) && !(p.provider == provider && p.lotId == lotId)
    {
      var kept: seq<Override> := [];
      for k := 0 to |overrides|
        invariant overrides == old(overrides) && WellFormed(kept)
        invariant forall i :: 0 <= i < |kept| ==> kept[i] in overrides[..k]
        invariant forall p :: p in kept <==> p in overrides[..k] && !(p.provider == provider && p.lotId == lotId)
      {
        forall i | 0 <= i < |kept| ensures !SameLot(kept[i], overrides[k]) && !SamePlace(kept[i], overrides[k]) {
          assert kept[i] in overrides[..k];
          var j :| 0 <= j < k && overrides[..k][j] == kept[i];
          assert overrides[j] == kept[i];
        }
        if !(overrides[k].provider == provider && overrides[k].lotId == lotId) {
          kept := kept + [overrides[k]];
        }
      }
      overrides := kept;
    }
  }

  /** The tier is full and the lot has no pin to give up. */
  predicate TierFull(os: seq<Override>, o: Override) {
    Pins(os, o.tier) >= MAX_PINS && forall p :: p in os ==> !(SameLot(o, p) && p.action.Pin?)
  }
}
