/**
 * The itinerary filter chain and the builder that assembles it from the
 * filter-chain parameters. The individual filters are kept as tags: what
 * each one does to a list of itineraries lies outside this model.
 */
module FilterChain {
  import opened Wrappers
  import opened FilterChainParameters

  /** An absolute point in time, only carried through to the filter that uses it. */
  type Instant = int

  /** The identity of a callback told about the first itinerary the max-limit filter drops. */
  datatype Subscriber = Subscriber(id: nat)

  /** The itinerary filters the builder can place in a chain. */
  datatype Filter =
    | GroupBy(groupByP: real, approximateMinLimit: int)
    | Sort(arriveBy: bool)
    | MaxLimit(name: string, maxLimit: int, subscriber: Option<Subscriber>)
    | RemoveTransit
    | LatestDeparture(limit: Instant)
    | Debug(inner: Filter)

  /** The filter chain returned by the builder: its filters run in sequence order. */
  datatype ItineraryFilterChain = ItineraryFilterChain(filters: seq<Filter>)

  const MAX_LIMIT_NAME: string := "number-of-itineraries-filter"

  /** The group-by filter configured by one group-by-similarity setting. */
  function GroupByFilter(g: GroupBySimilarity): Filter {
    GroupBy(g.groupByP, g.approximateMinLimit)
  }

  /** One group-by filter per setting, in the settings' order. */
  function GroupByFilters(gs: seq<GroupBySimilarity>): (r: seq<Filter>)
    ensures |r| == |gs|
    ensures forall i :: 0 <= i < |gs| ==> r[i] == GroupByFilter(gs[i])
  {
    if gs == [] then [] else [GroupByFilter(gs[0])] + GroupByFilters(gs[1..])
  }

  /** Wraps every filter for debugging, keeping their number and order. */
  function AddDebugWrappers(filters: seq<Filter>): (r: seq<Filter>)
    ensures |r| == |filters|
    ensures forall i :: 0 <= i < |filters| ==> r[i] == Debug(filters[i])
  {
    if filters == [] then [] else [Debug(filters[0])] + AddDebugWrappers(filters[1..])
  }

  /** Takes one debug wrapper off a filter, if it has one. */
  function Unwrap(f: Filter): Filter {
    if f.Debug? then f.inner else f
  }

  /** The filters of a chain with their debug wrappers taken off. */
  function UnwrapAll(filters: seq<Filter>): seq<Filter> {
    if filters == [] then [] else [Unwrap(filters[0])] + UnwrapAll(filters[1..])
  }

  /** The group-by filters of the chain, in ascending `groupByP` order. */
  function GroupByPart(p: Parameters): seq<Filter> {
    GroupByFilters(SortByGroupByP(p.groupBySimilarity))
  }

  /** The sort and max-limit pair, present when a maximum number of itineraries is set. */
  function MaxLimitPart(p: Parameters, subscriber: Option<Subscriber>): seq<Filter> {
    if p.maxNumberOfItineraries > 0
    then [Sort(p.arriveBy), MaxLimit(MAX_LIMIT_NAME, p.maxNumberOfItineraries, subscriber)]
    else []
  }

  /** The absolute filters: remove-transit and latest-departure, each when configured. */
  function AbsolutePart(p: Parameters, limit: Option<Instant>): seq<Filter> {
    (if p.removeTransitWithHigherCostThanBestOnStreetOnly then [RemoveTransit] else [])
    + (if limit.Some? then [LatestDeparture(limit.value)] else [])
  }

  /** The chain's filters before any debug wrapping. */
  function PlainFilters(p: Parameters, limit: Option<Instant>, subscriber: Option<Subscriber>): seq<Filter> {
    GroupByPart(p) + MaxLimitPart(p, subscriber) + AbsolutePart(p, limit) + [Sort(p.arriveBy)]
  }

  /** The filters of the chain built from the parameters and the builder's two optional settings. */
  function ChainFilters(p: Parameters, limit: Option<Instant>, subscriber: Option<Subscriber>): seq<Filter> {
    if p.debug then AddDebugWrappers(PlainFilters(p, limit, subscriber))
    else PlainFilters(p, limit, subscriber)
  }

  /** Number of filters in the chain. */
  function ChainLength(p: Parameters, limit: Option<Instant>): nat {
    |p.groupBySimilarity|
    + (if p.maxNumberOfItineraries > 0 then 2 else 0)
    + (if p.removeTransitWithHigherCostThanBestOnStreetOnly then 1 else 0)
    + (if limit.Some? then 1 else 0)
    + 1
  }

  // ---------------------------------------------------------------------------
  // Properties of the chain
  //
  // The layout lemmas below speak of `PlainFilters`, the chain before debug
  // wrapping; `DebugWrapsEveryFilterInPlace` carries them over to the built
  // chain, where with debugging on each filter sits inside a `Debug` wrapper.

  /** Taking the debug wrappers off again gives back the unwrapped filters. */
  lemma {:induction false} UnwrapUndoesDebugWrappers(filters: seq<Filter>)
    ensures UnwrapAll(AddDebugWrappers(filters)) == filters
  {
    if filters != [] {
      UnwrapUndoesDebugWrappers(filters[1..]);
      assert AddDebugWrappers(filters)[1..] == AddDebugWrappers(filters[1..]);
    }
  }

  /** No filter of the plain chain is a debug wrapper. */
  lemma {:induction false} PlainFiltersUnwrapped(p: Parameters, limit: Option<Instant>, subscriber: Option<Subscriber>)
    ensures var plain := PlainFilters(p, limit, subscriber);
      forall i :: 0 <= i < |plain| ==> !plain[i].Debug?
  {
    var g := SortByGroupByP(p.groupBySimilarity);
    var head := GroupByPart(p);
    var tail := TailPart(p, limit, subscriber);
    var plain := PlainFilters(p, limit, subscriber);
    assert plain == head + tail;
    forall i | 0 <= i < |plain| ensures !plain[i].Debug? {
      if i < |head| {
        assert plain[i] == GroupByFilter(g[i]);
      } else {
        assert plain[i] == tail[i - |head|];
      }
    }
  }

  /** Wrapping, or not, a sequence of unwrapped filters: each keeps its place, and unwrapping undoes it. */
  lemma {:induction false} WrapsInPlace(plain: seq<Filter>, debug: bool)
    requires forall i :: 0 <= i < |plain| ==> !plain[i].Debug?
    ensures var chain := if debug then AddDebugWrappers(plain) else plain;
      && |chain| == |plain|
      && (forall i :: 0 <= i < |plain| ==> chain[i] == (if debug then Debug(plain[i]) else plain[i]))
      && UnwrapAll(chain) == plain
  {
    if debug {
      UnwrapUndoesDebugWrappers(plain);
    } else {
      UnwrapIdentityWithoutDebug(plain);
    }
  }

  /** With debugging on every filter of the plain chain is wrapped, in place; otherwise the chain is the plain one. */
  lemma {:induction false} DebugWrapsEveryFilterInPlace(p: Parameters, limit: Option<Instant>, subscriber: Option<Subscriber>)
    ensures var chain := ChainFilters(p, limit, subscriber);
      var plain := PlainFilters(p, limit, subscriber);
      && |chain| == |plain|
      && (forall i :: 0 <= i < |plain| ==> chain[i] == (if p.debug then Debug(plain[i]) else plain[i]))
      && UnwrapAll(chain) == plain
  {
    var plain := PlainFilters(p, limit, subscriber);
    PlainFiltersUnwrapped(p, limit, subscriber);
    WrapsInPlace(plain, p.debug);
  }

  lemma {:induction false} UnwrapIdentityWithoutDebug(filters: seq<Filter>)
    requires forall i :: 0 <= i < |filters| ==> !filters[i].Debug?
    ensures UnwrapAll(filters) == filters
  {
    if filters != [] {
      UnwrapIdentityWithoutDebug(filters[1..]);
    }
  }

  /** The chain has one filter per group-by setting, two for a max limit, one per absolute filter and the final sort. */
  lemma {:induction false} ChainLengthFormula(p: Parameters, limit: Option<Instant>, subscriber: Option<Subscriber>)
    ensures |ChainFilters(p, limit, subscriber)| == ChainLength(p, limit)
  {
    assert |SortByGroupByP(p.groupBySimilarity)| == |p.groupBySimilarity| by {
      assert |multiset(SortByGroupByP(p.groupBySimilarity))| == |multiset(p.groupBySimilarity)|;
    }
  }

  lemma {:induction false} GroupByPartLength(p: Parameters)
    ensures |GroupByPart(p)| == |p.groupBySimilarity|
  {
    var g := SortByGroupByP(p.groupBySimilarity);
    assert |multiset(g)| == |multiset(p.groupBySimilarity)|;
  }

  /** The filters that follow the group-by filters. */
  function TailPart(p: Parameters, limit: Option<Instant>, subscriber: Option<Subscriber>): seq<Filter> {
    MaxLimitPart(p, subscriber) + AbsolutePart(p, limit) + [Sort(p.arriveBy)]
  }

  /**
   * The chain before debug wrapping opens with one group-by filter per setting, carrying its
   * `groupByP` and `approximateMinLimit`, taken from the settings stably sorted
   * on ascending `groupByP`.
   */
  lemma {:induction false} GroupByFiltersLeadTheChain(p: Parameters, limit: Option<Instant>, subscriber: Option<Subscriber>)
    ensures var plain := PlainFilters(p, limit, subscriber);
      var n := |p.groupBySimilarity|;
      && n <= |plain|
      && (exists g :: IsStableSortOf(g, p.groupBySimilarity) && plain[..n] == GroupByFilters(g))
  {
    var g := SortByGroupByP(p.groupBySimilarity);
    SortIsTheStableSort(p.groupBySimilarity, g);
    GroupByPartLength(p);
    var head := GroupByPart(p);
    var plain := PlainFilters(p, limit, subscriber);
    assert plain == head + TailPart(p, limit, subscriber);
    assert plain[..|head|] == head;
  }

  /** The leading group-by filters are in ascending `groupByP` order, and no group-by filter follows them. */
  lemma {:induction false} GroupByFiltersAscendingAndOnlyLeading(p: Parameters, limit: Option<Instant>, subscriber: Option<Subscriber>)
    ensures var plain := PlainFilters(p, limit, subscriber);
      var n := |p.groupBySimilarity|;
      && n <= |plain|
      && (forall i :: 0 <= i < n ==> plain[i].GroupBy?)
      && (forall i, j :: 0 <= i < j < n ==> plain[i].groupByP <= plain[j].groupByP)
      && (forall i :: n <= i < |plain| ==> !plain[i].GroupBy?)
  {
    var g := SortByGroupByP(p.groupBySimilarity);
    GroupByPartLength(p);
    var head := GroupByPart(p);
    var tail := TailPart(p, limit, subscriber);
    var plain := PlainFilters(p, limit, subscriber);
    assert plain == head + tail;
    forall i | 0 <= i < |head| ensures plain[i] == GroupByFilter(g[i]) {
      assert plain[i] == head[i];
    }
    forall i | |head| <= i < |plain| ensures !plain[i].GroupBy? {
      assert plain[i] == tail[i - |head|];
    }
  }

  /**
   * When the maximum number of itineraries is positive, a sort and then the
   * max-limit filter, named "number-of-itineraries-filter" and carrying that
   * maximum and the registered subscriber, directly follow the group-by filters.
   */
  lemma {:induction false} MaxLimitPairFollowsGroupBy(p: Parameters, limit: Option<Instant>, subscriber: Option<Subscriber>)
    requires p.maxNumberOfItineraries > 0
    ensures var plain := PlainFilters(p, limit, subscriber);
      var n := |p.groupBySimilarity|;
      && n + 1 < |plain|
      && plain[n] == Sort(p.arriveBy)
      && plain[n + 1] == MaxLimit("number-of-itineraries-filter", p.maxNumberOfItineraries, subscriber)
  {
    GroupByPartLength(p);
    var head := GroupByPart(p);
    var tail := TailPart(p, limit, subscriber);
    var plain := PlainFilters(p, limit, subscriber);
    assert plain == head + tail;
    assert plain[|head|] == tail[0];
    assert plain[|head| + 1] == tail[1];
  }

  /** The chain before debug wrapping holds a max-limit filter exactly when the maximum number of itineraries is positive. */
  lemma {:induction false} MaxLimitIffPositiveMaximum(p: Parameters, limit: Option<Instant>, subscriber: Option<Subscriber>)
    ensures var plain := PlainFilters(p, limit, subscriber);
      (exists i :: 0 <= i < |plain| && plain[i].MaxLimit?) <==> p.maxNumberOfItineraries > 0
  {
    GroupByPartLength(p);
    var head := GroupByPart(p);
    var tail := TailPart(p, limit, subscriber);
    var plain := PlainFilters(p, limit, subscriber);
    assert plain == head + tail;
    if p.maxNumberOfItineraries > 0 {
      assert plain[|head| + 1] == tail[1];
    } else {
      forall i | 0 <= i < |plain| ensures !plain[i].MaxLimit? {
        if i >= |head| {
          assert plain[i] == tail[i - |head|];
        }
      }
    }
  }

  /** The filters after the group-by and max-limit filters: the absolute filters, then the final sort. */
  lemma {:induction false} AbsolutePartPosition(p: Parameters, limit: Option<Instant>, subscriber: Option<Subscriber>)
    ensures var plain := PlainFilters(p, limit, subscriber);
      var k := |p.groupBySimilarity| + (if p.maxNumberOfItineraries > 0 then 2 else 0);
      && k <= |plain|
      && plain == plain[..k] + (AbsolutePart(p, limit) + [Sort(p.arriveBy)])
      && (forall i :: 0 <= i < k ==> plain[i].GroupBy? || plain[i].Sort? || plain[i].MaxLimit?)
  {
    GroupByPartLength(p);
    var head := GroupByPart(p) + MaxLimitPart(p, subscriber);
    var tail := AbsolutePart(p, limit) + [Sort(p.arriveBy)];
    var plain := PlainFilters(p, limit, subscriber);
    assert plain == head + tail;
    assert plain[..|head|] == head;
    forall i | 0 <= i < |head| ensures plain[i].GroupBy? || plain[i].Sort? || plain[i].MaxLimit? {
      assert plain[i] == head[i];
      if i >= |GroupByPart(p)| {
        assert head[i] == MaxLimitPart(p, subscriber)[i - |GroupByPart(p)|];
      }
    }
  }

  /** A filter absent from the prefix is in the whole sequence exactly when it is in the rest. */
  lemma MembershipAfterPrefix(prefix: seq<Filter>, rest: seq<Filter>, f: Filter)
    requires forall i :: 0 <= i < |prefix| ==> prefix[i] != f
    ensures f in prefix + rest <==> f in rest
  {
    assert f !in prefix;
  }

  /**
   * The remove-transit filter is in the chain before debug wrapping exactly when its flag is set, and
   * then follows the group-by and max-limit filters directly.
   */
  lemma {:induction false} RemoveTransitIffConfigured(p: Parameters, limit: Option<Instant>, subscriber: Option<Subscriber>)
    ensures var plain := PlainFilters(p, limit, subscriber);
      var k := |p.groupBySimilarity| + (if p.maxNumberOfItineraries > 0 then 2 else 0);
      && (RemoveTransit in plain <==> p.removeTransitWithHigherCostThanBestOnStreetOnly)
      && (p.removeTransitWithHigherCostThanBestOnStreetOnly ==> k < |plain| && plain[k] == RemoveTransit)
  {
    AbsolutePartPosition(p, limit, subscriber);
    var plain := PlainFilters(p, limit, subscriber);
    var k := |p.groupBySimilarity| + (if p.maxNumberOfItineraries > 0 then 2 else 0);
    var prefix := plain[..k];
    var tail := AbsolutePart(p, limit) + [Sort(p.arriveBy)];
    assert plain == prefix + tail;
    MembershipAfterPrefix(prefix, tail, RemoveTransit);
    if p.removeTransitWithHigherCostThanBestOnStreetOnly {
      assert plain[k] == tail[0];
    }
  }

  /**
   * The latest-departure filter is in the chain before debug wrapping exactly when a limit was given,
   * carrying that limit; it follows the group-by, max-limit and remove-transit filters.
   */
  lemma {:induction false} LatestDepartureIffConfigured(p: Parameters, limit: Option<Instant>, subscriber: Option<Subscriber>)
    ensures var plain := PlainFilters(p, limit, subscriber);
      var k := |p.groupBySimilarity| + (if p.maxNumberOfItineraries > 0 then 2 else 0)
        + (if p.removeTransitWithHigherCostThanBestOnStreetOnly then 1 else 0);
      && (forall t :: LatestDeparture(t) in plain <==> limit == Some(t))
      && (limit.Some? ==> k < |plain| && plain[k] == LatestDeparture(limit.value))
  {
    AbsolutePartPosition(p, limit, subscriber);
    var plain := PlainFilters(p, limit, subscriber);
    var k := |p.groupBySimilarity| + (if p.maxNumberOfItineraries > 0 then 2 else 0);
    var prefix := plain[..k];
    var tail := AbsolutePart(p, limit) + [Sort(p.arriveBy)];
    assert plain == prefix + tail;
    forall t ensures LatestDeparture(t) in plain <==> limit == Some(t) {
      MembershipAfterPrefix(prefix, tail, LatestDeparture(t));
    }
    if limit.Some? {
      assert plain[|prefix| + |tail| - 2] == tail[|tail| - 2];
    }
  }

  /** The last filter is always the default sort, wrapped when debugging is on. */
  lemma {:induction false} FinalSortIsLast(p: Parameters, limit: Option<Instant>, subscriber: Option<Subscriber>)
    ensures var chain := ChainFilters(p, limit, subscriber);
      && |chain| > 0
      && chain[|chain| - 1] == (if p.debug then Debug(Sort(p.arriveBy)) else Sort(p.arriveBy))
  {
  }

  // ---------------------------------------------------------------------------
  // The builder

  /** Creates the filter chain from the parameters and two optional settings. */
  class ItineraryFilterChainBuilder {
    const parameters: Parameters
    var latestDepartureTimeLimit: Option<Instant>
    var maxLimitReachedSubscriber: Option<Subscriber>

    constructor (parameters: Parameters)
      ensures this.parameters == parameters
      ensures latestDepartureTimeLimit == None
      ensures maxLimitReachedSubscriber == None
    {
      this.parameters := parameters;
      latestDepartureTimeLimit := None;
      maxLimitReachedSubscriber := None;
    }

    /** Sets the latest departure time (absent clears it); the builder itself is returned. */
    method WithLatestDepartureTimeLimit(latestDepartureTimeLimit: Option<Instant>) returns (builder: ItineraryFilterChainBuilder)
      modifies this
      ensures builder == this
      ensures this.latestDepartureTimeLimit == latestDepartureTimeLimit
      ensures maxLimitReachedSubscriber == old(maxLimitReachedSubscriber)
    {
      this.latestDepartureTimeLimit := latestDepartureTimeLimit;
      builder := this;
    }

    /** Registers the subscriber handed to the max-limit filter; the builder itself is returned. */
    method WithMaxLimitReachedSubscriber(maxLimitReachedSubscriber: Option<Subscriber>) returns (builder: ItineraryFilterChainBuilder)
      modifies this
      ensures builder == this
      ensures this.maxLimitReachedSubscriber == maxLimitReachedSubscriber
      ensures latestDepartureTimeLimit == old(latestDepartureTimeLimit)
    {
      this.maxLimitReachedSubscriber := maxLimitReachedSubscriber;
      builder := this;
    }

    /**
     * Appends the filters one by one: the sorted group-by filters, the sort and
     * max-limit pair, the absolute filters and the final sort, then wraps them
     * all when debugging is on.
     */
    method Build() returns (chain: ItineraryFilterChain)
      ensures chain.filters == ChainFilters(parameters, latestDepartureTimeLimit, maxLimitReachedSubscriber)
    {
      var p := parameters;
      var filters: seq<Filter> := [];

      var groupBy := SortByGroupByP(p.groupBySimilarity);
      for i := 0 to |groupBy|
        invariant |filters| == i
        invariant forall j :: 0 <= j < i ==> filters[j] == GroupByFilter(groupBy[j])
      {
        filters := filters + [GroupBy(groupBy[i].groupByP, groupBy[i].approximateMinLimit)];
      }
      assert filters == GroupByPart(p);

      ghost var done := filters;
      if p.maxNumberOfItineraries > 0 {
        filters := filters + [Sort(p.arriveBy)];
        filters := filters + [MaxLimit(MAX_LIMIT_NAME, p.maxNumberOfItineraries, maxLimitReachedSubscriber)];
      }
      assert filters == done + MaxLimitPart(p, maxLimitReachedSubscriber);

      done := filters;
      if p.removeTransitWithHigherCostThanBestOnStreetOnly {
        filters := filters + [RemoveTransit];
      }
      if latestDepartureTimeLimit.Some? {
        filters := filters + [LatestDeparture(latestDepartureTimeLimit.value)];
      }
      assert filters == done + AbsolutePart(p, latestDepartureTimeLimit);

      filters := filters + [Sort(p.arriveBy)];
      assert filters == PlainFilters(p, latestDepartureTimeLimit, maxLimitReachedSubscriber);

      if p.debug {
        filters := AddDebugWrappers(filters);
      }

      chain := ItineraryFilterChain(filters);
    }
  }
}
