/** Public visibility of an auction lot: the in-memory decision, the database filter and
    Projection V2 are three forms of one rule. */
module Visibility {
  import opened Wrappers

  const HOUR_MS: int := 60 * 60 * 1000
  const LISTING_FRESH_MS: int := 48 * HOUR_MS
  const HORIZON_MS: int := 7 * 24 * HOUR_MS

  datatype ResultState = UnknownResult | Pending | Sold | Unsold | Removed

  datatype LotState = Discovered | Importing | Imported | SoldLot | RemovedLot | Unavailable

  /** Times are in milliseconds, prices in cents. */
  datatype Row = Row(
    auctionTime: Option<int>, result: ResultState, listingObservedAt: Option<int>, priceObservedAt: Option<int>,
    lastProviderUpdateAt: Option<int>, availabilityConfirmed: bool, lastSeenAt: Option<int>, state: LotState,
    misses: nat,
    currentBid: Option<int>, buyNow: Option<int>, auctionState: Option<string>)

  // ---------------------------------------------------------------------------
  // In memory
  // ---------------------------------------------------------------------------

  datatype Reason = Public | TerminalResult | ResultPending | NotAvailable | ListingStale | OutOfHorizon

  predicate Terminal(r: ResultState) { r.Sold? || r.Unsold? || r.Removed? }

  function OrElse<T>(a: Option<T>, b: Option<T>): Option<T> { if a.Some? then a else b }

  function EvaluateAuctionTruth(lot: Row, now: int): Reason {
    if Terminal(lot.result) then TerminalResult
    else if lot.result.Pending? then ResultPending
    else if !lot.availabilityConfirmed || lot.state.Unavailable? || lot.misses >= 3 then NotAvailable
    else
      var confirmedAt := if lot.availabilityConfirmed then lot.lastSeenAt else None;
      var observedAt := OrElse(lot.listingObservedAt, OrElse(lot.lastProviderUpdateAt, confirmedAt));
      if observedAt.None? || observedAt.value < now - LISTING_FRESH_MS then ListingStale
      else if lot.auctionTime.None? || lot.auctionTime.value >= now + HORIZON_MS then OutOfHorizon
      else if lot.auctionTime.value < now then ResultPending
      else Public
  }

  predicate TruthVisible(lot: Row, now: int) { EvaluateAuctionTruth(lot, now).Public? }

  datatype Freshness = Fresh | MissingOrStale

  function Positive(x: Option<int>): bool { x.Some? && x.value > 0 }

  function ResolvePriceObservedAt(
      priceObservedAt: Option<int>, lastProviderUpdateAt: Option<int>, currentBid: Option<int>,
      buyNow: Option<int>): Option<int>
  {
    if priceObservedAt.Some? then priceObservedAt
    else if Positive(currentBid) || Positive(buyNow) then lastProviderUpdateAt
    else None
  }

  function Within(age: int, limit: int): Freshness { if age <= limit then Fresh else MissingOrStale }

  function DerivePriceFreshness(priceObservedAt: Option<int>, auctionTime: Option<int>, now: int): Freshness {
    if priceObservedAt.None? then MissingOrStale
    else
      var age := now - priceObservedAt.value;
      if age < 0 then Fresh
      else if auctionTime.None? then Within(age, 24 * HOUR_MS)
      else
        var left := auctionTime.value - now;
        if left <= 24 * HOUR_MS then Within(age, 6 * HOUR_MS)
        else if left <= 3 * 24 * HOUR_MS then Within(age, 12 * HOUR_MS)
        else if left <= 7 * 24 * HOUR_MS then Within(age, 24 * HOUR_MS)
        else Within(age, 24 * HOUR_MS)
  }

  predicate HasFreshAuctionPrice(lot: Row, now: int) {
    var observedAt := ResolvePriceObservedAt(lot.priceObservedAt, lot.lastProviderUpdateAt, lot.currentBid, lot.buyNow);
    DerivePriceFreshness(observedAt, lot.auctionTime, now).Fresh?
  }

  // ---------------------------------------------------------------------------
  // In the database
  // ---------------------------------------------------------------------------

  datatype Column = AuctionTime | ListingObservedAt | PriceObservedAt | LastProviderUpdateAt | LastSeenAt
    | CurrentBid | BuyNow

  /** A filter as the database sees it. A comparison with NULL is neither true nor false. */
  datatype Where =
    | All(parts: seq<Where>)
    | Any(parts: seq<Where>)
    | Gte(column: Column, bound: int)
    | Gt(column: Column, bound: int)
    | Lte(column: Column, bound: int)
    | Lt(column: Column, bound: int)
    | IsNull(column: Column)
    | IsConfirmed
    | StateIsNot(state: LotState)
    | MissesBelow(count: nat)
    | ResultNotIn(results: set<ResultState>)

  datatype Truth = Yes | No | Unknown

  function Of(b: bool): Truth { if b then Yes else No }

  function Both(a: Truth, b: Truth): Truth { if a.No? || b.No? then No else if a.Yes? && b.Yes? then Yes else Unknown }

  function Either(a: Truth, b: Truth): Truth {
    if a.Yes? || b.Yes? then Yes else if a.No? && b.No? then No else Unknown
  }

  function Field(lot: Row, c: Column): Option<int> {
    match c
    case AuctionTime => lot.auctionTime
    case ListingObservedAt => lot.listingObservedAt
    case PriceObservedAt => lot.priceObservedAt
    case LastProviderUpdateAt => lot.lastProviderUpdateAt
    case LastSeenAt => lot.lastSeenAt
    case CurrentBid => lot.currentBid
    case BuyNow => lot.buyNow
  }

  function Eval(w: Where, lot: Row): Truth
    decreases w, 0
  {
    match w
    case All(parts) => EvalAll(parts, lot)
    case Any(parts) => EvalAny(parts, lot)
    case Gte(c, bound) => var v := Field(lot, c); if v.None? then Unknown else Of(v.value >= bound)
    case Gt(c, bound) => var v := Field(lot, c); if v.None? then Unknown else Of(v.value > bound)
    case Lte(c, bound) => var v := Field(lot, c); if v.None? then Unknown else Of(v.value <= bound)
    case Lt(c, bound) => var v := Field(lot, c); if v.None? then Unknown else Of(v.value < bound)
    case IsNull(c) => Of(Field(lot, c).None?)
    case IsConfirmed => Of(lot.availabilityConfirmed)
    case StateIsNot(s) => Of(lot.state != s)
    case MissesBelow(n) => Of(lot.misses < n)
    case ResultNotIn(rs) => Of(lot.result !in rs)
  }

  function EvalAll(parts: seq<Where>, lot: Row): Truth
    decreases parts, 1
  {
    if parts == [] then Yes else Both(Eval(parts[0], lot), EvalAll(parts[1..], lot))
  }

  function EvalAny(parts: seq<Where>, lot: Row): Truth
    decreases parts, 1
  {
    if parts == [] then No else Either(Eval(parts[0], lot), EvalAny(parts[1..], lot))
  }

  /** The rows a query returns are those for which its filter is true. */
  predicate Selects(w: Where, lot: Row) { Eval(w, lot).Yes? }

  /** The part of the catalogue filter that does not depend on the lot's quality or the request. */
  function PublicCatalogWhere(now: int): Where {
    var freshCutoff := now - LISTING_FRESH_MS;
    All([
      IsConfirmed,
      StateIsNot(Unavailable),
      MissesBelow(3),
      All([Gte(AuctionTime, now), Lt(AuctionTime, now + HORIZON_MS)]),
      ResultNotIn({Sold, Unsold, Removed}),
      ResultNotIn({Pending}),
      Any([
        Gte(ListingObservedAt, freshCutoff),
        All([IsNull(ListingObservedAt), Gte(LastProviderUpdateAt, freshCutoff)]),
        All([IsNull(ListingObservedAt), IsNull(LastProviderUpdateAt), IsConfirmed, Gte(LastSeenAt, freshCutoff)])])])
  }

  function ObservedPriceOnOrAfter(cutoff: int): Where {
    Any([
      Gte(PriceObservedAt, cutoff),
      All([IsNull(PriceObservedAt), Gte(LastProviderUpdateAt, cutoff), Any([Gt(CurrentBid, 0), Gt(BuyNow, 0)])])])
  }

  function FreshAuctionPriceWhere(now: int): Where {
    var oneDay, threeDays := now + 24 * HOUR_MS, now + 72 * HOUR_MS;
    Any([
      All([All([Gte(AuctionTime, now), Lte(AuctionTime, oneDay)]), ObservedPriceOnOrAfter(now - 6 * HOUR_MS)]),
      All([All([Gt(AuctionTime, oneDay), Lte(AuctionTime, threeDays)]), ObservedPriceOnOrAfter(now - 12 * HOUR_MS)]),
      All([Gt(AuctionTime, threeDays), ObservedPriceOnOrAfter(now - 24 * HOUR_MS)])])
  }

  lemma {:induction false} AllSelects(parts: seq<Where>, lot: Row)
    ensures Selects(All(parts), lot) <==> forall k :: 0 <= k < |parts| ==> Selects(parts[k], lot)
  {
    assert Eval(All(parts), lot) == EvalAll(parts, lot);
    if parts != [] {
      AllSelects(parts[1..], lot);
      assert Eval(All(parts), lot) == Both(Eval(parts[0], lot), Eval(All(parts[1..]), lot));
      assert Selects(All(parts[1..]), lot) <==> forall k :: 1 <= k < |parts| ==> Selects(parts[k], lot) by {
        assert forall k :: 1 <= k < |parts| ==> parts[k] == parts[1..][k - 1];
      }
    }
  }

  lemma {:induction false} AnySelects(parts: seq<Where>, lot: Row)
    ensures Selects(Any(parts), lot) <==> exists k :: 0 <= k < |parts| && Selects(parts[k], lot)
  {
    assert Eval(Any(parts), lot) == EvalAny(parts, lot);
    if parts != [] {
      AnySelects(parts[1..], lot);
      assert Eval(Any(parts), lot) == Either(Eval(parts[0], lot), Eval(Any(parts[1..]), lot));
      assert Selects(Any(parts[1..]), lot) <==> exists k :: 1 <= k < |parts| && Selects(parts[k], lot) by {
        assert forall k :: 1 <= k < |parts| ==> parts[k] == parts[1..][k - 1];
      }
    }
  }

  lemma All2(a: Where, b: Where, lot: Row)
    ensures Selects(All([a, b]), lot) <==> Selects(a, lot) && Selects(b, lot)
  {
    AllSelects([a, b], lot);
    assert [a, b][0] == a && [a, b][1] == b;
  }

  lemma Any2(a: Where, b: Where, lot: Row)
    ensures Selects(Any([a, b]), lot) <==> Selects(a, lot) || Selects(b, lot)
  {
    AnySelects([a, b], lot);
    assert [a, b][0] == a && [a, b][1] == b;
  }

  lemma Any3(a: Where, b: Where, c: Where, lot: Row)
    ensures Selects(Any([a, b, c]), lot) <==> Selects(a, lot) || Selects(b, lot) || Selects(c, lot)
  {
    AnySelects([a, b, c], lot);
    assert [a, b, c][0] == a && [a, b, c][1] == b && [a, b, c][2] == c;
  }

  lemma All3(a: Where, b: Where, c: Where, lot: Row)
    ensures Selects(All([a, b, c]), lot) <==> Selects(a, lot) && Selects(b, lot) && Selects(c, lot)
  {
    AllSelects([a, b, c], lot);
    assert [a, b, c][0] == a && [a, b, c][1] == b && [a, b, c][2] == c;
  }

  // ---------------------------------------------------------------------------
  // The filter is the decision
  // ---------------------------------------------------------------------------

  /** The latest observation the decision goes by is at or after the cutoff. */
  predicate ListedSince(lot: Row, cutoff: int) {
    var confirmedAt := if lot.availabilityConfirmed then lot.lastSeenAt else None;
    var observedAt := OrElse(lot.listingObservedAt, OrElse(lot.lastProviderUpdateAt, confirmedAt));
    observedAt.Some? && observedAt.value >= cutoff
  }

  lemma ListingFilter(lot: Row, cutoff: int)
    ensures Selects(Any([
        Gte(ListingObservedAt, cutoff),
        All([IsNull(ListingObservedAt), Gte(LastProviderUpdateAt, cutoff)]),
        All([IsNull(ListingObservedAt), IsNull(LastProviderUpdateAt), IsConfirmed, Gte(LastSeenAt, cutoff)])]), lot)
      <==> ListedSince(lot, cutoff)
  {
    var second := All([IsNull(ListingObservedAt), Gte(LastProviderUpdateAt, cutoff)]);
    var parts := [IsNull(ListingObservedAt), IsNull(LastProviderUpdateAt), IsConfirmed, Gte(LastSeenAt, cutoff)];
    Any3(Gte(ListingObservedAt, cutoff), second, All(parts), lot);
    All2(IsNull(ListingObservedAt), Gte(LastProviderUpdateAt, cutoff), lot);
    AllSelects(parts, lot);
    assert parts[0] == IsNull(ListingObservedAt) && parts[1] == IsNull(LastProviderUpdateAt)
      && parts[2] == IsConfirmed && parts[3] == Gte(LastSeenAt, cutoff);
  }

  /** On every row, NULLs included, the database filter selects exactly the lots that the
      in-memory decision calls public. */
  lemma CatalogFilterIsTruth(lot: Row, now: int)
    ensures Selects(PublicCatalogWhere(now), lot) <==> TruthVisible(lot, now)
  {
    var w := PublicCatalogWhere(now);
    AllSelects(w.parts, lot);
    All2(Gte(AuctionTime, now), Lt(AuctionTime, now + HORIZON_MS), lot);
    ListingFilter(lot, now - LISTING_FRESH_MS);
    assert w.parts[0] == IsConfirmed && w.parts[1] == StateIsNot(Unavailable) && w.parts[2] == MissesBelow(3);
    assert w.parts[3] == All([Gte(AuctionTime, now), Lt(AuctionTime, now + HORIZON_MS)]);
    assert w.parts[4] == ResultNotIn({Sold, Unsold, Removed}) && w.parts[5] == ResultNotIn({Pending});
    assert |w.parts| == 7;
    var conditions := lot.availabilityConfirmed && !lot.state.Unavailable? && lot.misses < 3
      && lot.auctionTime.Some? && now <= lot.auctionTime.value < now + HORIZON_MS
      && !Terminal(lot.result) && !lot.result.Pending? && ListedSince(lot, now - LISTING_FRESH_MS);
    assert TruthVisible(lot, now) <==> conditions;
    assert Selects(w, lot) <==>
      (Selects(w.parts[0], lot) && Selects(w.parts[1], lot) && Selects(w.parts[2], lot) && Selects(w.parts[3], lot)
      && Selects(w.parts[4], lot) && Selects(w.parts[5], lot) && Selects(w.parts[6], lot));
  }

  // ---------------------------------------------------------------------------
  // Price freshness
  // ---------------------------------------------------------------------------

  predicate PricedSince(lot: Row, cutoff: int) {
    var observedAt := ResolvePriceObservedAt(lot.priceObservedAt, lot.lastProviderUpdateAt, lot.currentBid, lot.buyNow);
    observedAt.Some? && observedAt.value >= cutoff
  }

  lemma PriceFilter(lot: Row, cutoff: int)
    ensures Selects(ObservedPriceOnOrAfter(cutoff), lot) <==> PricedSince(lot, cutoff)
  {
    var priced := Any([Gt(CurrentBid, 0), Gt(BuyNow, 0)]);
    Any2(Gte(PriceObservedAt, cutoff), All([IsNull(PriceObservedAt), Gte(LastProviderUpdateAt, cutoff), priced]), lot);
    All3(IsNull(PriceObservedAt), Gte(LastProviderUpdateAt, cutoff), priced, lot);
    Any2(Gt(CurrentBid, 0), Gt(BuyNow, 0), lot);
  }

  /** The price filter selects exactly the lots whose price is fresh in memory and whose
      auction is confirmed and has not begun. */
  lemma FreshPriceFilterExact(lot: Row, now: int)
    ensures Selects(FreshAuctionPriceWhere(now), lot)
      <==> HasFreshAuctionPrice(lot, now) && lot.auctionTime.Some? && lot.auctionTime.value >= now
  {
    var oneDay, threeDays := now + 24 * HOUR_MS, now + 72 * HOUR_MS;
    var soon := All([Gte(AuctionTime, now), Lte(AuctionTime, oneDay)]);
    var later := All([Gt(AuctionTime, oneDay), Lte(AuctionTime, threeDays)]);
    var p6, p12 := ObservedPriceOnOrAfter(now - 6 * HOUR_MS), ObservedPriceOnOrAfter(now - 12 * HOUR_MS);
    var p24 := ObservedPriceOnOrAfter(now - 24 * HOUR_MS);
    Any3(All([soon, p6]), All([later, p12]), All([Gt(AuctionTime, threeDays), p24]), lot);
    All2(soon, p6, lot);
    All2(later, p12, lot);
    All2(Gt(AuctionTime, threeDays), p24, lot);
    All2(Gte(AuctionTime, now), Lte(AuctionTime, oneDay), lot);
    All2(Gt(AuctionTime, oneDay), Lte(AuctionTime, threeDays), lot);
    PriceFilter(lot, now - 6 * HOUR_MS);
    PriceFilter(lot, now - 12 * HOUR_MS);
    PriceFilter(lot, now - 24 * HOUR_MS);
  }

  /** So on the lots of the catalogue the two forms agree. */
  lemma FreshPriceAgreesOnCatalogue(lot: Row, now: int)
    requires Selects(PublicCatalogWhere(now), lot)
    ensures Selects(FreshAuctionPriceWhere(now), lot) <==> HasFreshAuctionPrice(lot, now)
  {
    CatalogFilterIsTruth(lot, now);
    FreshPriceFilterExact(lot, now);
  }

  // ---------------------------------------------------------------------------
  // Projection V2
  // ---------------------------------------------------------------------------

  datatype Schedule = ScheduledActive | ScheduledOutOfHorizon | Unscheduled

  datatype ScheduleState = ScheduleState(schedule: Schedule, isResultPending: bool, isTerminal: bool)

  function DeriveCatalogScheduleState(auctionAt: Option<int>, result: ResultState, now: int): ScheduleState {
    if Terminal(result) then ScheduleState(Unscheduled, false, true)
    else if auctionAt.Some? && auctionAt.value < now then ScheduleState(Unscheduled, true, false)
    else if auctionAt.None? then ScheduleState(Unscheduled, false, false)
    else if now <= auctionAt.value < now + HORIZON_MS then ScheduleState(ScheduledActive, false, false)
    else if auctionAt.value >= now + HORIZON_MS then ScheduleState(ScheduledOutOfHorizon, false, false)
    else ScheduleState(Unscheduled, false, false)
  }

  function DeriveListingFreshness(observedAt: Option<int>, now: int): Freshness {
    if observedAt.None? then MissingOrStale else Within(now - observedAt.value, LISTING_FRESH_MS)
  }

  function ResolveListingObservedAt(
      listingObservedAt: Option<int>, lastProviderUpdateAt: Option<int>,
      availabilityConfirmedAt: Option<int>): Option<int>
  {
    if listingObservedAt.Some? then listingObservedAt
    else if lastProviderUpdateAt.Some? then lastProviderUpdateAt
    else availabilityConfirmedAt
  }

  datatype Code = CodeTerminal | CodeResultPending | CodeUnscheduled | CodeOutOfHorizon | CodeStaleListing
    | CodeStalePrice | CodeOk | CodeUnknown

  datatype Projection = Projection(
    schedule: Schedule, isResultPending: bool, isTerminal: bool, listing: Freshness, price: Freshness,
    code: Code, publicVisible: bool, showPriceAndCta: bool)

  /** Callers pass the last sighting as `availabilityConfirmedAt` of a confirmed lot. */
  function ComputeProjectionV2(lot: Row, now: int): Projection {
    var availabilityConfirmedAt := if lot.availabilityConfirmed then lot.lastSeenAt else None;
    var st := DeriveCatalogScheduleState(lot.auctionTime, lot.result, now);
    var observedAt :=
      ResolveListingObservedAt(lot.listingObservedAt, lot.lastProviderUpdateAt, availabilityConfirmedAt);
    var listing := DeriveListingFreshness(observedAt, now);
    var price := DerivePriceFreshness(
      ResolvePriceObservedAt(lot.priceObservedAt, lot.lastProviderUpdateAt, lot.currentBid, lot.buyNow),
      lot.auctionTime, now);
    var (code, visible, cta) :=
      if st.isTerminal then (CodeTerminal, false, false)
      else if st.isResultPending then (CodeResultPending, false, false)
      else
        match st.schedule
        case Unscheduled => (CodeUnscheduled, false, false)
        case ScheduledOutOfHorizon => (CodeOutOfHorizon, false, false)
        case ScheduledActive =>
          if !listing.Fresh? then (CodeStaleListing, false, false)
          else if !price.Fresh? then (CodeStalePrice, true, false)
          else (CodeOk, true, true);
    Projection(st.schedule, st.isResultPending, st.isTerminal, listing, price, code, visible, cta)
  }

  /** The availability conditions the projection leaves to its callers. */
  predicate AvailabilityGates(lot: Row) { lot.availabilityConfirmed && !lot.state.Unavailable? && lot.misses < 3 }

  /** The decision is the projection plus the availability gates, less the lots whose
      provider reports a pending result: those the projection still shows while their
      schedule lies ahead. */
  lemma TruthIsProjectionPlusGates(lot: Row, now: int)
    ensures TruthVisible(lot, now) <==>
      ComputeProjectionV2(lot, now).publicVisible && AvailabilityGates(lot) && !lot.result.Pending?
  {
    assert ListedSince(lot, now - LISTING_FRESH_MS) <==>
      DeriveListingFreshness(ResolveListingObservedAt(lot.listingObservedAt, lot.lastProviderUpdateAt,
        if lot.availabilityConfirmed then lot.lastSeenAt else None), now).Fresh?;
  }

  /** Where the two differ, for a lot the projection shows and whose availability holds. */
  lemma ProjectionShowsPendingResults(lot: Row, now: int)
    requires ComputeProjectionV2(lot, now).publicVisible && AvailabilityGates(lot)
    ensures !TruthVisible(lot, now) <==> lot.result.Pending?
    ensures !TruthVisible(lot, now) ==> EvaluateAuctionTruth(lot, now).ResultPending?
  {
    TruthIsProjectionPlusGates(lot, now);
  }

  /** All three forms at once: for a lot of the catalogue, the projection shows a price
      exactly if the database's price filter would select it. */
  lemma ShownPriceIsFilteredPrice(lot: Row, now: int)
    requires Selects(PublicCatalogWhere(now), lot)
    ensures ComputeProjectionV2(lot, now).showPriceAndCta <==> Selects(FreshAuctionPriceWhere(now), lot)
  {
    CatalogFilterIsTruth(lot, now);
    TruthIsProjectionPlusGates(lot, now);
    FreshPriceAgreesOnCatalogue(lot, now);
  }

  // ---------------------------------------------------------------------------
  // The rules in figures
  // ---------------------------------------------------------------------------

  /** The listing was last observed at or after the moment: by its own time, else by the
      provider's update, else by the sighting of a confirmed lot. */
  predicate SeenSince(lot: Row, moment: int) {
    match lot.listingObservedAt
    case Some(t) => t >= moment
    case None =>
      match lot.lastProviderUpdateAt
      case Some(t) => t >= moment
      case None => lot.availabilityConfirmed && lot.lastSeenAt.Some? && lot.lastSeenAt.value >= moment
  }

  /** The auction begins within seven days from now. */
  predicate InWindow(lot: Row, now: int) {
    lot.auctionTime.Some? && now <= lot.auctionTime.value < now + 604_800_000
  }

  /** The price was observed at or after the moment; the provider's update stands in for
      the time of a positive price without one. */
  predicate PriceSeenSince(lot: Row, moment: int) {
    match lot.priceObservedAt
    case Some(t) => t >= moment
    case None =>
      && lot.lastProviderUpdateAt.Some? && lot.lastProviderUpdateAt.value >= moment
      && ((lot.currentBid.Some? && lot.currentBid.value >= 1) || (lot.buyNow.Some? && lot.buyNow.value >= 1))
  }

  /** What each decision means: seven days ahead, 48 hours of listing age, three misses. */
  lemma DecisionInFigures(lot: Row, now: int)
    ensures var reason := EvaluateAuctionTruth(lot, now);
      var available := lot.availabilityConfirmed && !lot.state.Unavailable? && lot.misses <= 2;
      var seen := SeenSince(lot, now - 172_800_000);
      && (reason.TerminalResult? <==> lot.result.Sold? || lot.result.Unsold? || lot.result.Removed?)
      && (reason.ResultPending? <==>
            || lot.result.Pending?
            || (lot.result.UnknownResult? && available && seen && lot.auctionTime.Some? && lot.auctionTime.value < now))
      && (reason.NotAvailable? <==> lot.result.UnknownResult? && !available)
      && (reason.ListingStale? <==> lot.result.UnknownResult? && available && !seen)
      && (reason.Public? <==> lot.result.UnknownResult? && available && seen && InWindow(lot, now))
      && (Selects(PublicCatalogWhere(now), lot) <==> reason.Public?)
  {
    CatalogFilterIsTruth(lot, now);
    hide PublicCatalogWhere, Eval;
  }

  /** A price may be 6 hours old on the last day before the auction, 12 on the two days
      before it, and 24 otherwise; the filter demands the same of an auction ahead. */
  lemma PriceAgeInFigures(lot: Row, now: int)
    ensures HasFreshAuctionPrice(lot, now) <==>
      match lot.auctionTime
      case None => PriceSeenSince(lot, now - 86_400_000)
      case Some(t) =>
        if t <= now + 86_400_000 then PriceSeenSince(lot, now - 21_600_000)
        else if t <= now + 259_200_000 then PriceSeenSince(lot, now - 43_200_000)
        else PriceSeenSince(lot, now - 86_400_000)
    ensures Selects(FreshAuctionPriceWhere(now), lot) <==>
      && lot.auctionTime.Some? && lot.auctionTime.value >= now
      && PriceSeenSince(lot, now -
           if lot.auctionTime.value <= now + 86_400_000 then 21_600_000
           else if lot.auctionTime.value <= now + 259_200_000 then 43_200_000 else 86_400_000)
  {
    FreshPriceFilterExact(lot, now);
    hide FreshAuctionPriceWhere, Eval;
  }

  /** What each code of the projection means. */
  lemma ProjectionInFigures(lot: Row, now: int)
    ensures var v2 := ComputeProjectionV2(lot, now);
      var terminal := lot.result.Sold? || lot.result.Unsold? || lot.result.Removed?;
      var shown := !terminal && InWindow(lot, now) && SeenSince(lot, now - 172_800_000);
      && v2.publicVisible == shown && v2.showPriceAndCta == (shown && HasFreshAuctionPrice(lot, now))
      && (v2.code.CodeTerminal? <==> terminal)
      && (v2.code.CodeResultPending? <==> !terminal && lot.auctionTime.Some? && lot.auctionTime.value < now)
      && (v2.code.CodeUnscheduled? <==> !terminal && lot.auctionTime.None?)
      && (v2.code.CodeOutOfHorizon? <==>
            !terminal && lot.auctionTime.Some? && lot.auctionTime.value >= now + 604_800_000)
      && (v2.code.CodeStaleListing? <==> !terminal && InWindow(lot, now) && !shown)
      && (v2.code.CodeStalePrice? <==> shown && !HasFreshAuctionPrice(lot, now))
      && (v2.code.CodeOk? <==> shown && HasFreshAuctionPrice(lot, now))
  {
  }

  // ---------------------------------------------------------------------------
  // As the clock runs over an unchanged row
  // ---------------------------------------------------------------------------

  /** How far along the schedule is; a lot without a time, or with an explicit result, is off it. */
  datatype Stage = TooEarly | Ahead | Over | OffSchedule

  function StageOf(st: ScheduleState): Stage {
    if st.isResultPending then Over
    else match st.schedule
      case ScheduledOutOfHorizon => TooEarly
      case ScheduledActive => Ahead
      case Unscheduled => OffSchedule
  }

  predicate NotBefore(a: Stage, b: Stage) {
    match a
    case TooEarly => !b.OffSchedule?
    case Ahead => b.Ahead? || b.Over?
    case _ => a == b
  }

  /** The schedule only moves on, each lot with a time passes through being active and is
      so for less than the horizon, and only an explicit result makes it terminal. */
  lemma ScheduleNeverGoesBack(auctionAt: Option<int>, result: ResultState, now: int, later: int)
    requires now <= later
    ensures var st, st' :=
        DeriveCatalogScheduleState(auctionAt, result, now), DeriveCatalogScheduleState(auctionAt, result, later);
      && NotBefore(StageOf(st), StageOf(st')) && st.isTerminal == st'.isTerminal == Terminal(result)
      && (StageOf(st).Ahead? && StageOf(st').Ahead? ==> later - now < HORIZON_MS)
      && (StageOf(st).OffSchedule? <==> auctionAt.None? || Terminal(result))
    ensures auctionAt.Some? && !Terminal(result) ==>
      && StageOf(DeriveCatalogScheduleState(auctionAt, result, auctionAt.value)).Ahead?
      && StageOf(DeriveCatalogScheduleState(auctionAt, result, auctionAt.value + 1)).Over?
  {
  }

  /** A price never becomes fresh by itself: it ages, and the age allowed shrinks as the
      auction draws near. */
  lemma PriceOnlyGoesStale(lot: Row, now: int, later: int)
    requires now <= later && HasFreshAuctionPrice(lot, later)
    ensures HasFreshAuctionPrice(lot, now)
  {
  }

  /** So the moments at which the catalogue selects a row form one interval, shorter than
      the horizon, and those at which its price is shown form one interval within: a lot
      that has dropped out stays out until something new is observed. */
  lemma CatalogueStayIsOneInterval(lot: Row, s: int, t: int, u: int)
    requires s <= t <= u
    requires Selects(PublicCatalogWhere(s), lot) && Selects(PublicCatalogWhere(u), lot)
    ensures Selects(PublicCatalogWhere(t), lot) && u - s < HORIZON_MS
    ensures Selects(FreshAuctionPriceWhere(u), lot) ==> Selects(FreshAuctionPriceWhere(t), lot)
    ensures ComputeProjectionV2(lot, u).showPriceAndCta ==> ComputeProjectionV2(lot, t).showPriceAndCta
  {
    CatalogFilterIsTruth(lot, s);
    CatalogFilterIsTruth(lot, t);
    CatalogFilterIsTruth(lot, u);
    FreshPriceAgreesOnCatalogue(lot, t);
    FreshPriceAgreesOnCatalogue(lot, u);
    ShownPriceIsFilteredPrice(lot, t);
    ShownPriceIsFilteredPrice(lot, u);
    if HasFreshAuctionPrice(lot, u) {
      PriceOnlyGoesStale(lot, t, u);
    }
  }

  // ---------------------------------------------------------------------------
  // Display lifecycle
  // ---------------------------------------------------------------------------

  datatype Lifecycle = NotReady | Upcoming | Live | Ended | ShownSold | ShownRemoved

  predicate Contains(s: string, token: string) { token <= s || (s != "" && Contains(s[1..], token)) }

  /** The token stands somewhere in the text. */
  ghost predicate StandsIn(s: string, token: string) { exists i :: 0 <= i <= |s| && token <= s[i..] }

  lemma {:induction false} ContainsExactly(s: string, token: string)
    ensures Contains(s, token) <==> StandsIn(s, token)
  {
    if s != "" {
      ContainsExactly(s[1..], token);
      if StandsIn(s[1..], token) {
        var i :| 0 <= i <= |s[1..]| && token <= s[1..][i..];
        assert s[1..][i..] == s[i + 1..];
      }
      if StandsIn(s, token) && !(token <= s) {
        var i :| 0 <= i <= |s| && token <= s[i..];
        assert s[0..] == s;
        assert s[i..] == s[1..][i - 1..];
      }
    }
    assert token <= s ==> token <= s[0..] by {
      assert s[0..] == s;
    }
  }

  predicate SaysLive(lot: Row) {
    var s := Lower(if lot.auctionState.Some? then lot.auctionState.value else "");
    Contains(s, "live") || Contains(s, "bidding")
  }

  /** The provider's own state names a live auction, case aside. */
  lemma LiveExactly(lot: Row)
    ensures SaysLive(lot) <==>
      && lot.auctionState.Some?
      && (StandsIn(Lower(lot.auctionState.value), "live") || StandsIn(Lower(lot.auctionState.value), "bidding"))
  {
    var s := Lower(if lot.auctionState.Some? then lot.auctionState.value else "");
    ContainsExactly(s, "live");
    ContainsExactly(s, "bidding");
  }

  function DeriveAuctionLifecycle(lot: Row, now: int): Lifecycle {
    var reason := EvaluateAuctionTruth(lot, now);
    if reason.TerminalResult? then
      (if lot.result.Sold? then ShownSold else if lot.result.Removed? then ShownRemoved else Ended)
    else if reason.ResultPending? then Ended
    else if !reason.Public? then
      (if lot.auctionTime.None? then NotReady
       else if lot.auctionTime.value >= now then (if SaysLive(lot) then Live else Upcoming)
       else NotReady)
    else if SaysLive(lot) then Live else Upcoming
  }

  /** Only the provider's explicit result shows a lot as sold or removed; it shows as
      ended only on an explicit result or when its time has passed on a lot that is
      otherwise available and fresh. A public lot is upcoming or live, never ended. */
  lemma LifecycleNeverFalselyTerminal(lot: Row, now: int)
    ensures var shown := DeriveAuctionLifecycle(lot, now);
      && (shown.ShownSold? <==> lot.result.Sold?)
      && (shown.ShownRemoved? <==> lot.result.Removed?)
      && (shown.Ended? <==>
          lot.result.Unsold? || lot.result.Pending?
            || (lot.result.UnknownResult? && lot.auctionTime.Some? && lot.auctionTime.value < now
                && AvailabilityGates(lot) && SeenSince(lot, now - 172_800_000)))
      && (shown.NotReady? <==>
          lot.result.UnknownResult?
            && (lot.auctionTime.None?
                || (lot.auctionTime.value < now
                    && !(AvailabilityGates(lot) && SeenSince(lot, now - 172_800_000)))))
      && (shown.Live? ==> SaysLive(lot)) && (shown.Upcoming? ==> !SaysLive(lot))
      && (lot.auctionTime.Some? && lot.auctionTime.value >= now && lot.result.UnknownResult? ==>
          shown.Upcoming? || shown.Live?)
      && (TruthVisible(lot, now) ==> shown == if SaysLive(lot) then Live else Upcoming)
  {
  }

  /** A lot that was missed three times or is unconfirmed is hidden, but stays upcoming on
      its own page while its auction lies ahead. */
  lemma HiddenIsNotTerminal(lot: Row, now: int)
    requires !AvailabilityGates(lot) && lot.result.UnknownResult?
    ensures !TruthVisible(lot, now) && !Selects(PublicCatalogWhere(now), lot)
    ensures var shown := DeriveAuctionLifecycle(lot, now); shown.NotReady? || shown.Upcoming? || shown.Live?
  {
    CatalogFilterIsTruth(lot, now);
  }
}
