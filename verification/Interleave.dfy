/** The two-provider catalogue merge: never more than three cards in a row from one
    provider while the other still has any, the larger remaining pool first. */
module Interleave {
  import opened Wrappers
  import L = Leases

  type Provider = L.Provider

  const MAX_CONSECUTIVE: nat := 3

  function Other(p: Provider): Provider { if p.Copart? then L.Iaai else L.Copart }

  /** The provider of the last card and the length of the run it ends. */
  datatype Streak = Streak(last: Option<Provider>, run: nat)

  function Extend(s: Streak, p: Provider): Streak { Streak(Some(p), if s.last == Some(p) then s.run + 1 else 1) }

  function RunOf(s: Streak, p: Provider): nat { if s.last == Some(p) then s.run else 0 }

  /** The provider to draw from with `a` Copart and `b` IAAI cards left. */
  function Pick(a: nat, b: nat, s: Streak): Provider {
    if a == 0 then L.Iaai
    else if b == 0 then L.Copart
    else if RunOf(s, L.Copart) >= MAX_CONSECUTIVE then L.Iaai
    else if RunOf(s, L.Iaai) >= MAX_CONSECUTIVE then L.Copart
    else if a >= b then L.Copart else L.Iaai
  }

  function Order(a: nat, b: nat, s: Streak): (order: seq<Provider>)
    ensures |order| == a + b
    decreases a + b
  {
    if a + b == 0 then []
    else
      var p := Pick(a, b, s);
      [p] + Order(if p.Copart? then a - 1 else a, if p.Copart? then b else b - 1, Extend(s, p))
  }

  // ---------------------------------------------------------------------------
  // Merges
  // ---------------------------------------------------------------------------

  /** The cards of one provider, in the order they appear. */
  function Only<T>(r: seq<T>, order: seq<Provider>, p: Provider): seq<T>
    requires |r| == |order|
  {
    if r == [] then []
    else (if order[0] == p then [r[0]] else []) + Only(r[1..], order[1..], p)
  }

  /** `r` holds exactly the cards of both lists, each list in its own order, with
      `order` naming the list every card comes from. */
  predicate Merges<T(==)>(xs: seq<T>, ys: seq<T>, order: seq<Provider>, r: seq<T>) {
    |r| == |order| && Only(r, order, L.Copart) == xs && Only(r, order, L.Iaai) == ys
  }

  function Tally(order: seq<Provider>, p: Provider): nat {
    if order == [] then 0 else (if order[0] == p then 1 else 0) + Tally(order[1..], p)
  }

  lemma {:induction false} OnlyAppend<T>(r: seq<T>, order: seq<Provider>, x: T, q: Provider, p: Provider)
    requires |r| == |order|
    ensures Only(r + [x], order + [q], p) == Only(r, order, p) + (if q == p then [x] else [])
  {
    if r != [] {
      OnlyAppend(r[1..], order[1..], x, q, p);
      assert (r + [x])[1..] == r[1..] + [x] && (order + [q])[1..] == order[1..] + [q];
    } else {
      assert Only(r + [x], order + [q], p) == (if q == p then [x] else []) + Only([], [], p) by {
        assert (r + [x])[1..] == [] && (order + [q])[1..] == [];
      }
    }
  }

  /** The order determines the merge. */
  lemma {:induction false} MergeUnique<T>(xs: seq<T>, ys: seq<T>, order: seq<Provider>, r: seq<T>, r': seq<T>)
    requires Merges(xs, ys, order, r) && Merges(xs, ys, order, r')
    ensures r == r'
  {
    if order != [] {
      var tx, ty := if order[0].Copart? then xs[1..] else xs, if order[0].Copart? then ys else ys[1..];
      assert Only(r, order, order[0])[0] == r[0] && Only(r', order, order[0])[0] == r'[0];
      assert Merges(tx, ty, order[1..], r[1..]) && Merges(tx, ty, order[1..], r'[1..]);
      MergeUnique(tx, ty, order[1..], r[1..], r'[1..]);
      assert r == [r[0]] + r[1..] && r' == [r'[0]] + r'[1..];
    }
  }

  lemma {:induction false} OrderTally(a: nat, b: nat, s: Streak)
    ensures Tally(Order(a, b, s), L.Copart) == a && Tally(Order(a, b, s), L.Iaai) == b
    decreases a + b
  {
    if a + b > 0 {
      var p := Pick(a, b, s);
      if p.Copart? { OrderTally(a - 1, b, Extend(s, p)); } else { OrderTally(a, b - 1, Extend(s, p)); }
    }
  }

  // ---------------------------------------------------------------------------
  // Runs
  // ---------------------------------------------------------------------------

  /** Four cards of `p` in a row, from position `k`. */
  predicate FourAt(order: seq<Provider>, k: nat, p: Provider) {
    k + 3 < |order| && order[k] == p && order[k + 1] == p && order[k + 2] == p && order[k + 3] == p
  }

  ghost predicate NoFour(order: seq<Provider>) { forall k: nat, p :: !FourAt(order, k, p) }

  /** From position `k` on only `p` appears. */
  ghost predicate Tail(order: seq<Provider>, k: nat, p: Provider) { forall j :: k <= j < |order| ==> order[j] == p }

  lemma {:induction false} Exhausted(a: nat, b: nat, s: Streak, p: Provider)
    requires (if p.Copart? then b else a) == 0
    ensures Tail(Order(a, b, s), 0, p)
    decreases a + b
  {
    if a + b > 0 {
      var order := Order(a, b, s);
      if p.Copart? { Exhausted(a - 1, b, Extend(s, p), p); } else { Exhausted(a, b - 1, Extend(s, p), p); }
      forall j | 0 <= j < |order| ensures order[j] == p {
        assert j > 0 ==> order[j] == order[1..][j - 1];
      }
    }
  }

  /** A fourth card in a row is shown only when the other provider has none left. */
  lemma {:induction false} FourMeansExhausted(a: nat, b: nat, s: Streak, k: nat, p: Provider)
    requires s.last.Some? ==> 1 <= s.run
    requires var order := Order(a, b, s);
      || FourAt(order, k, p)
      || (k == 0 && RunOf(s, p) >= 3 && |order| > 0 && order[0] == p)
      || (k == 0 && RunOf(s, p) == 2 && |order| > 1 && order[0] == p && order[1] == p)
      || (k == 0 && RunOf(s, p) == 1 && |order| > 2 && order[0] == p && order[1] == p && order[2] == p)
    ensures Tail(Order(a, b, s), k, p)
    decreases a + b, k
  {
    var order := Order(a, b, s);
    var q := Pick(a, b, s);
    var a', b', s' := if q.Copart? then a - 1 else a, if q.Copart? then b else b - 1, Extend(s, q);
    assert order == [q] + Order(a', b', s');
    assert order[1..] == Order(a', b', s');
    if k > 0 {
      FourMeansExhausted(a', b', s', k - 1, p);
      forall j | k <= j < |order| ensures order[j] == p {
        assert order[j] == order[1..][j - 1];
      }
    } else if RunOf(s, p) >= 3 {
      Exhausted(a, b, s, p);
    } else {
      FourMeansExhausted(a', b', s', 0, p);
      forall j | 0 <= j < |order| ensures order[j] == p {
        assert j > 0 ==> order[j] == order[1..][j - 1];
      }
    }
  }

  const START := Streak(None, 0)

  lemma OnlyFourWhenOtherUsedUp(a: nat, b: nat, k: nat, p: Provider)
    requires FourAt(Order(a, b, START), k, p)
    ensures Tail(Order(a, b, START), k, p)
  {
    FourMeansExhausted(a, b, START, k, p);
  }

  // ---------------------------------------------------------------------------
  // Optimality
  // ---------------------------------------------------------------------------

  /** Neither pool is too large to be separated by the other. */
  predicate Balanced(a: nat, b: nat) { a <= 3 * b + 3 && b <= 3 * a + 3 }

  /** The same, with a streak already shown. */
  predicate BalancedAfter(a: nat, b: nat, s: Streak) {
    && RunOf(s, L.Copart) <= 3 && RunOf(s, L.Iaai) <= 3
    && a <= 3 * b + 3 - RunOf(s, L.Copart) && b <= 3 * a + 3 - RunOf(s, L.Iaai)
  }

  /** From a balanced position the greedy choice keeps the balance. */
  lemma PickKeepsBalance(a: nat, b: nat, s: Streak)
    requires a + b > 0 && BalancedAfter(a, b, s)
    ensures var p := Pick(a, b, s);
      BalancedAfter(if p.Copart? then a - 1 else a, if p.Copart? then b else b - 1, Extend(s, p))
  {
  }

  /** So no streak it builds, the one already shown included, ever reaches four. */
  lemma {:induction false} BalancedNoFour(a: nat, b: nat, s: Streak)
    requires BalancedAfter(a, b, s) && (s.last.Some? ==> 1 <= s.run)
    ensures NoFour(Order(a, b, s))
    ensures forall p, n: nat :: n <= a + b && Leads(Order(a, b, s), p, n) ==> n + RunOf(s, p) <= 3
    decreases a + b
  {
    forall p ensures RunOf(s, p) <= 3 {
      assert p == L.Copart || p == L.Iaai;
    }
    if a + b > 0 {
      var q := Pick(a, b, s);
      var a', b', s' := if q.Copart? then a - 1 else a, if q.Copart? then b else b - 1, Extend(s, q);
      var order, rest := Order(a, b, s), Order(a', b', s');
      assert order == [q] + rest && order[1..] == rest;
      PickKeepsBalance(a, b, s);
      BalancedNoFour(a', b', s');
      forall p, n: nat | n <= a + b && Leads(order, p, n) ensures n + RunOf(s, p) <= 3 {
        if n > 0 {
          assert order[0] == p;
          assert Leads(rest, p, n - 1);
        }
      }
      forall k: nat, p ensures !FourAt(order, k, p) {
        if FourAt(order, k, p) {
          if k > 0 {
            assert FourAt(rest, k - 1, p);
          } else {
            assert Leads(order, p, 4);
          }
        }
      }
    }
  }

  /** The first `n` cards are all from `p`. */
  predicate Leads(order: seq<Provider>, p: Provider, n: nat) {
    n <= |order| && forall j :: 0 <= j < n ==> order[j] == p
  }

  function Lead(order: seq<Provider>, p: Provider): (n: nat)
    ensures Leads(order, p, n)
  {
    if order == [] || order[0] != p then 0 else 1 + Lead(order[1..], p)
  }

  /** Any arrangement whatever without four in a row needs a separator per three cards. */
  lemma {:induction false} SeparatorsNeeded(order: seq<Provider>, p: Provider)
    requires NoFour(order)
    ensures Tally(order, p) <= 3 * Tally(order, Other(p)) + Lead(order, p) && Lead(order, p) <= 3
  {
    if order != [] {
      var rest := order[1..];
      forall k: nat, q ensures !FourAt(rest, k, q) {
        assert !FourAt(order, k + 1, q);
      }
      SeparatorsNeeded(rest, p);
      assert !FourAt(order, 0, p);
    }
  }

  /** The greedy order has no run of four exactly when the pools are balanced, and
      whenever they are not, no arrangement of the same cards avoids one either. */
  lemma GreedyAvoidsFourIffPossible(a: nat, b: nat)
    ensures NoFour(Order(a, b, START)) <==> Balanced(a, b)
    ensures (exists order :: Arranges(order, a, b) && NoFour(order)) <==> Balanced(a, b)
  {
    OrderTally(a, b, START);
    assert Arranges(Order(a, b, START), a, b);
    if Balanced(a, b) {
      BalancedNoFour(a, b, START);
    }
    forall order | Arranges(order, a, b) && NoFour(order) ensures Balanced(a, b) {
      SeparatorsNeeded(order, L.Copart);
      SeparatorsNeeded(order, L.Iaai);
    }
  }

  predicate Arranges(order: seq<Provider>, a: nat, b: nat) { Tally(order, L.Copart) == a && Tally(order, L.Iaai) == b }

  // ---------------------------------------------------------------------------
  // What the order is
  // ---------------------------------------------------------------------------

  /** The last `n` cards are all from `p`. */
  predicate LastAre(shown: seq<Provider>, p: Provider, n: nat) {
    n <= |shown| && forall j :: |shown| - n <= j < |shown| ==> shown[j] == p
  }

  /** The draw at position `k`: from the larger pool, Copart on a tie, unless one is used
      up or has had the three cards before. */
  predicate DrawnRight(order: seq<Provider>, k: nat)
    requires k < |order|
  {
    var copart, iaai := Tally(order[k..], L.Copart), Tally(order[k..], L.Iaai);
    if copart == 0 || iaai == 0 then order[k] == (if iaai == 0 then L.Copart else L.Iaai)
    else if LastAre(order[..k], L.Copart, 3) then order[k] == L.Iaai
    else if LastAre(order[..k], L.Iaai, 3) then order[k] == L.Copart
    else order[k].Copart? <==> copart >= iaai
  }

  /** From position `k` on every card is drawn so. */
  ghost predicate DrawnRightFrom(order: seq<Provider>, k: nat) {
    forall j :: k <= j < |order| ==> DrawnRight(order, j)
  }

  /** The streak is the one that these cards end with. */
  ghost predicate EndsWith(shown: seq<Provider>, s: Streak) {
    forall p, n: nat :: 1 <= n <= 3 ==> (RunOf(s, p) >= n <==> LastAre(shown, p, n))
  }

  lemma StreakExtends(shown: seq<Provider>, s: Streak, p: Provider)
    requires EndsWith(shown, s)
    ensures EndsWith(shown + [p], Extend(s, p))
  {
    var longer := shown + [p];
    forall q, n: nat | 1 <= n <= 3 ensures RunOf(Extend(s, p), q) >= n <==> LastAre(longer, q, n) {
      assert longer[|longer| - 1] == p;
      if q == p {
        assert LastAre(longer, p, n) <==> LastAre(shown, p, n - 1) by {
          if LastAre(longer, p, n) {
            forall j | |shown| - (n - 1) <= j < |shown| ensures shown[j] == p {
              assert longer[j] == p;
            }
          }
        }
      }
    }
  }

  /** The draw after `shown`, with `order` still to come, is the one picked. */
  lemma DrawIsPick(shown: seq<Provider>, order: seq<Provider>, s: Streak)
    requires EndsWith(shown, s) && order != []
    ensures var (a, b) := (Tally(order, L.Copart), Tally(order, L.Iaai));
      DrawnRight(shown + order, |shown|) <==> order[0] == Pick(a, b, s)
  {
    var all := shown + order;
    assert all[..|shown|] == shown && all[|shown|..] == order && all[|shown|] == order[0];
    assert Tally(order, order[0]) > 0;
    assert LastAre(shown, L.Copart, 3) <==> RunOf(s, L.Copart) >= 3;
    assert LastAre(shown, L.Iaai, 3) <==> RunOf(s, L.Iaai) >= 3;
  }

  lemma {:induction false} OrderDrawsRight(shown: seq<Provider>, a: nat, b: nat, s: Streak)
    requires EndsWith(shown, s)
    ensures DrawnRightFrom(shown + Order(a, b, s), |shown|)
    decreases a + b
  {
    if a + b > 0 {
      var p := Pick(a, b, s);
      var a', b' := if p.Copart? then a - 1 else a, if p.Copart? then b else b - 1;
      var order, all := Order(a, b, s), shown + Order(a, b, s);
      StreakExtends(shown, s, p);
      OrderDrawsRight(shown + [p], a', b', Extend(s, p));
      assert all == (shown + [p]) + Order(a', b', Extend(s, p));
      OrderTally(a, b, s);
      DrawIsPick(shown, order, s);
      forall j | |shown| <= j < |all| ensures DrawnRight(all, j) {
        assert j == |shown| || |shown + [p]| <= j;
      }
    }
  }

  lemma {:induction false} DrawnRightIsOrder(shown: seq<Provider>, order: seq<Provider>, s: Streak)
    requires EndsWith(shown, s) && DrawnRightFrom(shown + order, |shown|)
    ensures order == Order(Tally(order, L.Copart), Tally(order, L.Iaai), s)
    decreases |order|
  {
    hide EndsWith, DrawnRight, LastAre, Pick, Extend;
    if order != [] {
      assert DrawnRight(shown + order, |shown|);
      DrawIsPick(shown, order, s);
      StreakExtends(shown, s, order[0]);
      assert (shown + [order[0]]) + order[1..] == shown + order;
      DrawnRightIsOrder(shown + [order[0]], order[1..], Extend(s, order[0]));
      assert order == [order[0]] + order[1..];
    }
  }

  /** The order shown is the one arrangement of the cards in which every draw is right. */
  lemma OrderIsTheRightDraws(a: nat, b: nat, order: seq<Provider>)
    ensures order == Order(a, b, START) <==> Arranges(order, a, b) && DrawnRightFrom(order, 0)
  {
    assert EndsWith([], START);
    if order == Order(a, b, START) {
      OrderTally(a, b, START);
      OrderDrawsRight([], a, b, START);
      assert [] + order == order;
    }
    if Arranges(order, a, b) && DrawnRightFrom(order, 0) {
      assert [] + order == order;
      DrawnRightIsOrder([], order, START);
    }
  }

  // ---------------------------------------------------------------------------
  // The function
  // ---------------------------------------------------------------------------

  function Slice<T>(r: seq<T>, skip: nat, take: nat): seq<T> { r[Min(skip, |r|)..Min(skip + take, |r|)] }

  /** `page` is the requested window of a merge of both lists in the greedy order. */
  ghost predicate PageOfMerge<T(!new)>(xs: seq<T>, ys: seq<T>, skip: nat, take: nat, page: seq<T>) {
    exists merged :: Merges(xs, ys, Order(|xs|, |ys|, START), merged) && page == Slice(merged, skip, take)
  }

  /** Consecutive pages, requested one by one, neither skip nor repeat a card. */
  lemma PagesConcatenate<T(!new)>(xs: seq<T>, ys: seq<T>, skip: nat, take: nat, more: nat, p: seq<T>, q: seq<T>)
    requires PageOfMerge(xs, ys, skip, take, p) && PageOfMerge(xs, ys, skip + take, more, q)
    ensures PageOfMerge(xs, ys, skip, take + more, p + q)
  {
    var order := Order(|xs|, |ys|, START);
    var r :| Merges(xs, ys, order, r) && p == Slice(r, skip, take);
    var r' :| Merges(xs, ys, order, r') && q == Slice(r', skip + take, more);
    MergeUnique(xs, ys, order, r, r');
    assert p + q == Slice(r, skip, take + more);
  }

  /** A page long enough holds every card of both lists. */
  lemma WholeMerge<T(!new)>(xs: seq<T>, ys: seq<T>, take: nat, page: seq<T>)
    requires PageOfMerge(xs, ys, 0, take, page) && take >= |xs| + |ys|
    ensures Merges(xs, ys, Order(|xs|, |ys|, START), page)
  {
    var r :| Merges(xs, ys, Order(|xs|, |ys|, START), r) && page == Slice(r, 0, take);
    assert page == r;
  }

  /** How far the merge has come: the cards shown, and the order still to come. */
  ghost predicate Shown<T>(xs: seq<T>, ys: seq<T>, ci: nat, ii: nat, order: seq<Provider>, r: seq<T>, s: Streak) {
    && ci <= |xs| && ii <= |ys| && Merges(xs[..ci], ys[..ii], order, r)
    && Order(|xs|, |ys|, START) == order + Order(|xs| - ci, |ys| - ii, s)
  }

  lemma StartShown<T>(xs: seq<T>, ys: seq<T>)
    ensures Shown(xs, ys, 0, 0, [], [], START)
  {
  }

  lemma DrawMerges<T>(xs: seq<T>, ys: seq<T>, ci: nat, ii: nat, order: seq<Provider>, r: seq<T>, p: Provider)
    requires ci <= |xs| && ii <= |ys| && Merges(xs[..ci], ys[..ii], order, r)
    requires if p.Copart? then ci < |xs| else ii < |ys|
    ensures if p.Copart? then Merges(xs[..ci + 1], ys[..ii], order + [p], r + [xs[ci]])
                         else Merges(xs[..ci], ys[..ii + 1], order + [p], r + [ys[ii]])
  {
    var x := if p.Copart? then xs[ci] else ys[ii];
    OnlyAppend(r, order, x, p, L.Copart);
    OnlyAppend(r, order, x, p, L.Iaai);
    if p.Copart? {
      assert xs[..ci + 1] == xs[..ci] + [xs[ci]];
    } else {
      assert ys[..ii + 1] == ys[..ii] + [ys[ii]];
    }
  }

  lemma OrderContinues(a: nat, b: nat, s: Streak, order: seq<Provider>, all: seq<Provider>)
    requires a + b > 0 && all == order + Order(a, b, s)
    ensures var p := Pick(a, b, s);
      all == (order + [p]) + Order(if p.Copart? then a - 1 else a, if p.Copart? then b else b - 1, Extend(s, p))
  {
  }

  /** Drawing the picked card extends the merge by it. */
  lemma Draw<T>(xs: seq<T>, ys: seq<T>, ci: nat, ii: nat, order: seq<Provider>, r: seq<T>, s: Streak)
    requires Shown(xs, ys, ci, ii, order, r, s) && (ci < |xs| || ii < |ys|)
    ensures var p := Pick(|xs| - ci, |ys| - ii, s);
      if p.Copart? then ci < |xs| && Shown(xs, ys, ci + 1, ii, order + [p], r + [xs[ci]], Extend(s, p))
                   else ii < |ys| && Shown(xs, ys, ci, ii + 1, order + [p], r + [ys[ii]], Extend(s, p))
  {
    hide Merges, Order;
    DrawMerges(xs, ys, ci, ii, order, r, Pick(|xs| - ci, |ys| - ii, s));
    OrderContinues(|xs| - ci, |ys| - ii, s, order, Order(|xs|, |ys|, START));
  }

  lemma AllShown<T(!new)>(xs: seq<T>, ys: seq<T>, order: seq<Provider>, r: seq<T>, s: Streak, skip: nat, take: nat)
    requires Shown(xs, ys, |xs|, |ys|, order, r, s)
    ensures PageOfMerge(xs, ys, skip, take, Slice(r, skip, take))
  {
    assert xs[..|xs|] == xs && ys[..|ys|] == ys;
    assert order == Order(|xs|, |ys|, START);
  }

  method PickCopart(copartRemaining: nat, iaaiRemaining: nat, lastProvider: Option<Provider>, consecutive: nat)
    returns (pickCopart: bool)
    ensures pickCopart <==> Pick(copartRemaining, iaaiRemaining, Streak(lastProvider, consecutive)).Copart?
  {
    if copartRemaining == 0 {
      pickCopart := false;
    } else if iaaiRemaining == 0 {
      pickCopart := true;
    } else if lastProvider == Some(L.Copart) && consecutive >= MAX_CONSECUTIVE {
      pickCopart := false;
    } else if lastProvider == Some(L.Iaai) && consecutive >= MAX_CONSECUTIVE {
      pickCopart := true;
    } else {
      pickCopart := copartRemaining >= iaaiRemaining;
    }
  }

  method InterleaveProviders<T(!new)>(copart: seq<T>, iaai: seq<T>, skip: nat, take: nat) returns (page: seq<T>)
    ensures PageOfMerge(copart, iaai, skip, take, page)
  {
    hide Merges, Order;
    StartShown(copart, iaai);
    var result: seq<T> := [];
    var ci, ii := 0, 0;
    var lastProvider: Option<Provider> := None;
    var consecutive := 0;
    ghost var order: seq<Provider> := [];
    while ci < |copart| || ii < |iaai|
      invariant Shown(copart, iaai, ci, ii, order, result, Streak(lastProvider, consecutive))
      decreases |copart| - ci + |iaai| - ii
    {
      var pickCopart := PickCopart(|copart| - ci, |iaai| - ii, lastProvider, consecutive);
      Draw(copart, iaai, ci, ii, order, result, Streak(lastProvider, consecutive));
      var provider := if pickCopart then L.Copart else L.Iaai;
      if pickCopart {
        result, ci := result + [copart[ci]], ci + 1;
      } else {
        result, ii := result + [iaai[ii]], ii + 1;
      }
      order := order + [provider];
      consecutive := if lastProvider == Some(provider) then consecutive + 1 else 1;
      lastProvider := Some(provider);
    }
    AllShown(copart, iaai, order, result, Streak(lastProvider, consecutive), skip, take);
    page := result[Min(skip, |result|)..Min(skip + take, |result|)];
  }
}
