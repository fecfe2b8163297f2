# OpenTripPlanner: itinerary filter chain and TileJSON response, in Dafny

This project models two small, deterministic parts of OpenTripPlanner and proves
what they produce.

1. **The itinerary filter-chain builder.** It turns the filter-chain parameters
   into the ordered list of filters that post-process routing results. The
   filters come in this order:
   - one group-by-similarity filter per configured setting, stably sorted on
     ascending `groupByP`;
   - a sort followed by a max-limit filter, when a maximum number of itineraries
     is set;
   - the remove-transit-if-street-only-is-better filter and the
     latest-departure-time filter, when configured;
   - the final default sort;
   - with debugging on, every filter wrapped in a debug wrapper.

   The builder is a class (`FilterChain.ItineraryFilterChainBuilder`). Its two
   `with…` methods update its optional fields. `Build` appends filters one by
   one, as the Java code does, and is proved equal to the specification function
   `ChainFilters`. Lemmas about `PlainFilters` (the chain before debug wrapping)
   state the layout of the chain; `DebugWrapsEveryFilterInPlace` carries them to
   `ChainFilters`.
   The filters are tags (`GroupBy`, `Sort`, `MaxLimit`, `RemoveTransit`,
   `LatestDeparture`, `Debug`). What each filter does to itineraries is not modelled.

2. **The TileJSON 2.2.0 response for the vector-tile layers, and the two tile-URL
   templates.** The attribution is the publishers' HTML links joined by `", "`.
   `tiles` holds the one tile URL. `bounds` is `[west, south, east, north]` from
   the envelope corners. `center` is the envelope centre plus zoom 9. The URL
   functions fill `%s` templates. One of them first removes the leading `/`
   characters from the override path.

The Java library calls these rely on are modelled in `Strings`:
`Collectors.joining` is `Join`, `String.formatted` with string arguments is
`Format`, and `StringUtils.stripStart` is `StripStart`. Each has its own lemmas.

Files: `Wrappers.dfy` (Option), `FilterChainParameters.dfy` (parameters and the
stable sort), `FilterChain.dfy` (filters, the chain specification, the builder),
`Strings.dfy`, `TileJson.dfy`.

Where the code and its own documentation disagree, the model follows the code.
The Javadoc of `withMaxLimitReachedSubscriber`
(src/main/java/org/opentripplanner/routing/algorithm/filterchain/ItineraryFilterChainBuilder.java:43-52)
calls the max-limit check the last step of the chain, after the final sort. The
code puts the max-limit filter directly after the group-by filters, ahead of the
absolute filters and the final sort. `MaxLimitPairFollowsGroupBy`,
`RemoveTransitIffConfigured` and `LatestDepartureIffConfigured` state the
placement the code has.

## Model

| member | source | states |
|---|---|---|
| FilterChainParameters.InsertKeepsAscending | src/main/java/org/opentripplanner/routing/algorithm/filterchain/ItineraryFilterChainBuilder.java:64-68 | inserting a setting into an ascending sequence keeps it ascending |
| FilterChainParameters.SortByGroupByP | src/main/java/org/opentripplanner/routing/algorithm/filterchain/ItineraryFilterChainBuilder.java:64-68 | the sorted group-by settings are a permutation of the configured ones, in ascending `groupByP` order |
| FilterChainParameters.SortKeepsOrderOfEqualKeys | src/main/java/org/opentripplanner/routing/algorithm/filterchain/ItineraryFilterChainBuilder.java:64-68 | the sort is stable: for every key, the settings with that key keep their input order |
| FilterChainParameters.SortIsTheStableSort | src/main/java/org/opentripplanner/routing/algorithm/filterchain/ItineraryFilterChainBuilder.java:61-68 | a sequence is the sort's result if and only if it is ascending and keeps, key by key, the input's settings in input order |
| FilterChainParameters.AscendingDeterminedByKeys | src/main/java/org/opentripplanner/routing/algorithm/filterchain/ItineraryFilterChainBuilder.java:64-68 | two ascending sequences with the same settings per key, in the same order, are equal, so the stable sort has exactly one result |
| FilterChain.GroupByFilters | src/main/java/org/opentripplanner/routing/algorithm/filterchain/ItineraryFilterChainBuilder.java:70-72 | one group-by filter per setting, in order, each carrying that setting's `groupByP` and `approximateMinLimit` |
| FilterChain.AddDebugWrappers | src/main/java/org/opentripplanner/routing/algorithm/filterchain/ItineraryFilterChainBuilder.java:120-123 | wrapping keeps the number of filters, and element i of the result wraps element i of the input |
| FilterChain.UnwrapUndoesDebugWrappers | src/main/java/org/opentripplanner/routing/algorithm/filterchain/ItineraryFilterChainBuilder.java:120-123 | taking the debug wrappers off again gives back exactly the unwrapped filters |
| FilterChain.DebugWrapsEveryFilterInPlace | src/main/java/org/opentripplanner/routing/algorithm/filterchain/ItineraryFilterChainBuilder.java:110-112 | with debugging on, each filter of the chain is the debug wrapper of the plain filter at the same position; otherwise the chain is the plain one |
| FilterChain.PlainFiltersUnwrapped | src/main/java/org/opentripplanner/routing/algorithm/filterchain/ItineraryFilterChainBuilder.java:59-108 | before the debug step no filter of the chain is a debug wrapper |
| FilterChain.WrapsInPlace | src/main/java/org/opentripplanner/routing/algorithm/filterchain/ItineraryFilterChainBuilder.java:110-112 | for filters that are not wrapped, debug wrapping keeps each in place and unwrapping undoes it; without debugging they are left as they are |
| FilterChain.ChainLengthFormula | src/main/java/org/opentripplanner/routing/algorithm/filterchain/ItineraryFilterChainBuilder.java:59-108 | chain length = number of group-by settings + 2 if the maximum is positive + 1 if remove-transit is on + 1 if a latest departure is set + 1 |
| FilterChain.GroupByFiltersLeadTheChain | src/main/java/org/opentripplanner/routing/algorithm/filterchain/ItineraryFilterChainBuilder.java:63-73 | the chain opens with the group-by filters of a stable ascending sort of the settings, one per setting (in the chain before debug wrapping; DebugWrapsEveryFilterInPlace carries this to the built chain) |
| FilterChain.GroupByFiltersAscendingAndOnlyLeading | src/main/java/org/opentripplanner/routing/algorithm/filterchain/ItineraryFilterChainBuilder.java:63-73 | the first n filters are group-by filters with ascending `groupByP`, and no later filter is a group-by filter (in the chain before debug wrapping; DebugWrapsEveryFilterInPlace carries this to the built chain) |
| FilterChain.MaxLimitPairFollowsGroupBy | src/main/java/org/opentripplanner/routing/algorithm/filterchain/ItineraryFilterChainBuilder.java:76-86 | for a positive maximum, the sort and then the max-limit filter named "number-of-itineraries-filter", with that maximum and the registered subscriber, directly follow the group-by filters (in the chain before debug wrapping; DebugWrapsEveryFilterInPlace carries this to the built chain) |
| FilterChain.MaxLimitIffPositiveMaximum | src/main/java/org/opentripplanner/routing/algorithm/filterchain/ItineraryFilterChainBuilder.java:76 | the chain has a max-limit filter if and only if the maximum number of itineraries is positive (in the chain before debug wrapping; DebugWrapsEveryFilterInPlace carries this to the built chain) |
| FilterChain.AbsolutePartPosition | src/main/java/org/opentripplanner/routing/algorithm/filterchain/ItineraryFilterChainBuilder.java:59-108 | the first filters are only group-by, sort and max-limit filters (the group-by settings plus 2 when the maximum is positive); after them come exactly the configured absolute filters and the final sort (in the chain before debug wrapping; DebugWrapsEveryFilterInPlace carries this to the built chain) |
| FilterChain.RemoveTransitIffConfigured | src/main/java/org/opentripplanner/routing/algorithm/filterchain/ItineraryFilterChainBuilder.java:98-100 | the remove-transit filter is in the chain if and only if its flag is set, and then stands directly after the group-by and max-limit filters (in the chain before debug wrapping; DebugWrapsEveryFilterInPlace carries this to the built chain) |
| FilterChain.LatestDepartureIffConfigured | src/main/java/org/opentripplanner/routing/algorithm/filterchain/ItineraryFilterChainBuilder.java:102-104 | latest-departure(t) is in the chain if and only if the limit is t, and it stands directly after the group-by, max-limit and remove-transit filters (in the chain before debug wrapping; DebugWrapsEveryFilterInPlace carries this to the built chain) |
| FilterChain.FinalSortIsLast | src/main/java/org/opentripplanner/routing/algorithm/filterchain/ItineraryFilterChainBuilder.java:107-112 | the last filter is the default sort for the parameters' `arriveBy`, wrapped when debugging is on |
| FilterChain.ItineraryFilterChainBuilder.constructor | src/main/java/org/opentripplanner/routing/algorithm/filterchain/ItineraryFilterChainBuilder.java:25-32 | a new builder holds the parameters, with no latest-departure limit and no subscriber |
| FilterChain.ItineraryFilterChainBuilder.WithLatestDepartureTimeLimit | src/main/java/org/opentripplanner/routing/algorithm/filterchain/ItineraryFilterChainBuilder.java:38-41 | sets only the latest-departure limit, leaves the subscriber unchanged, and returns the same builder |
| FilterChain.ItineraryFilterChainBuilder.WithMaxLimitReachedSubscriber | src/main/java/org/opentripplanner/routing/algorithm/filterchain/ItineraryFilterChainBuilder.java:53-56 | sets only the subscriber, leaves the latest-departure limit unchanged, and returns the same builder |
| FilterChain.ItineraryFilterChainBuilder.Build | src/main/java/org/opentripplanner/routing/algorithm/filterchain/ItineraryFilterChainBuilder.java:58-115 | building step by step yields exactly the chain specified by the parameters and the builder's current limit and subscriber, which the lemmas above describe |
| TileJsonSupport.NewTileJson | src/main/java/org/opentripplanner/apis/support/TileJson.java:38-66 | `tiles` is exactly the given URL; `bounds` is [lower-left lon, lower-left lat, upper-right lon, upper-right lat]; `center` is [the centre's lon, the centre's lat, zoom 9], and that zoom equals minzoom |
| TileJsonSupport.FixedFields | src/main/java/org/opentripplanner/apis/support/TileJson.java:20-32 | every response has tilejson "2.2.0", scheme "xyz", name "OpenTripPlanner", minzoom 9 and maxzoom 20, so minzoom ≤ maxzoom |
| TileJsonSupport.Anchor | src/main/java/org/opentripplanner/apis/support/TileJson.java:46-47 | the link is 15 characters longer than the publisher's URL and name together |
| TileJsonSupport.AnchorParts | src/main/java/org/opentripplanner/apis/support/TileJson.java:47 | the link is "<a href='", the publisher's URL, "'>", the publisher's name and "</a>", in this order |
| TileJsonSupport.Anchors | src/main/java/org/opentripplanner/apis/support/TileJson.java:44-48 | one `<a href='url'>name</a>` link per feed, in feed order |
| TileJsonSupport.Attribution | src/main/java/org/opentripplanner/apis/support/TileJson.java:43-49 | one feed gives exactly its link; its length and layout for any number of feeds are given by AttributionLength, LinkInAttribution and SeparatorAfterLink |
| TileJsonSupport.AttributionOfNoFeeds | src/main/java/org/opentripplanner/apis/support/TileJson.java:43-49 | no feeds give an empty attribution |
| TileJsonSupport.AttributionLength | src/main/java/org/opentripplanner/apis/support/TileJson.java:43-49 | n feeds give their links' total length plus n − 1 two-character separators |
| TileJsonSupport.LinkInAttribution | src/main/java/org/opentripplanner/apis/support/TileJson.java:43-49 | feed i's link appears unchanged right after the links of feeds 0..i−1 and their separators |
| TileJsonSupport.SeparatorAfterLink | src/main/java/org/opentripplanner/apis/support/TileJson.java:43-49 | every link except the last is followed by exactly ", " |
| TileJsonSupport.RouterTemplateFilled | src/main/java/org/opentripplanner/apis/support/TileJson.java:75-80 | filling "%s/otp/routers/%s/%s/%s/{z}/{x}/{y}.pbf" with base, router id, path and layers succeeds and places each in its slot |
| TileJsonSupport.OverrideTemplateFilled | src/main/java/org/opentripplanner/apis/support/TileJson.java:89-93 | filling "%s/%s/%s/{z}/{x}/{y}.pbf" with base, stripped path and layers succeeds and places each in its slot |
| TileJsonSupport.TileUrl | src/main/java/org/opentripplanner/apis/support/TileJson.java:68-81 | the URL is base + "/otp/routers/" + router id + "/" + path + "/" + layers + "/{z}/{x}/{y}.pbf" |
| TileJsonSupport.TileUrlWithOverridePath | src/main/java/org/opentripplanner/apis/support/TileJson.java:82-94 | the URL is base + "/" + the override path with its leading slashes stripped + "/" + layers + "/{z}/{x}/{y}.pbf"; equivalently, the override path is some run of '/' followed by that stripped part s, and s does not start with '/' |
| TileJsonSupport.LeadingSlashesSplit | src/main/java/org/opentripplanner/apis/support/TileJson.java:88 | the override path is the slashes StripStart removed followed by its result, which does not start with '/' |
| TileJsonSupport.OverridePathLeadingSlashesIgnored | src/main/java/org/opentripplanner/apis/support/TileJson.java:88-93 | prefixing the override path with '/' does not change the URL |
| Strings.Join | src/main/java/org/opentripplanner/apis/support/TileJson.java:49 | no parts give the empty string, and the result is at least as long as the first part; JoinLength, JoinPartAt and JoinSeparatorAt specify it completely |
| Strings.JoinLength | src/main/java/org/opentripplanner/apis/support/TileJson.java:49 | a joined string ends right after the last part, with no separator at either end |
| Strings.JoinPartAt | src/main/java/org/opentripplanner/apis/support/TileJson.java:49 | each part appears unchanged at its offset (the parts before it, each followed by one separator) |
| Strings.JoinSeparatorAt | src/main/java/org/opentripplanner/apis/support/TileJson.java:49 | between each two neighbouring parts stands exactly one separator |
| Strings.Format | src/main/java/org/opentripplanner/apis/support/TileJson.java:75-93 | a template without '%' formats to itself; FormatLiteral, FormatPlaceholder, FormatMissingArgument and FormatFillsTemplate specify the `%s` cases |
| Strings.FormatLiteral | src/main/java/org/opentripplanner/apis/support/TileJson.java:75 | template text without '%' is copied to the output unchanged |
| Strings.FormatPlaceholder | src/main/java/org/opentripplanner/apis/support/TileJson.java:75 | a leading `%s` is replaced by the first argument, and the rest of the template uses the remaining ones |
| Strings.FormatFillsTemplate | src/main/java/org/opentripplanner/apis/support/TileJson.java:75-80 | a template with one `%s` per argument and no other '%' is filled by interleaving its text with the arguments, in order |
| Strings.StripStart | src/main/java/org/opentripplanner/apis/support/TileJson.java:88 | the result is a suffix of the input that does not start with a strip character, and everything removed before it is strip characters |
| Strings.StripStartUnique | src/main/java/org/opentripplanner/apis/support/TileJson.java:88 | any split of the input into strip characters followed by a part not starting with one gives exactly StripStart's result |
| Strings.StripStartIdempotent | src/main/java/org/opentripplanner/apis/support/TileJson.java:88 | stripping twice gives the same as stripping once |

## Left out

- The Range-RAPTOR search. src/main/java/org/opentripplanner/routing/algorithm/raptor/router/RaptorRouter.java only hands requests to an external routing service. That service, the street access search, wall-clock timing and logging are not part of this model. The opening-hours behaviour exercised by src/test/java/org/opentripplanner/raptor/moduletests/G01_AccessWithOpeningHoursTest.java is implemented in that service, so it is not modelled either.
- Vector-tile configuration parsing (src/main/java/org/opentripplanner/standalone/config/routerconfig/VectorTileConfig.java). It goes through a configuration reader that is not part of this model.
- What each filter does to a list of itineraries (`GroupBySimilarLegsFilter`, `MaxLimitFilter`, `OtpDefaultSortOrder`, `RemoveTransitIfStreetOnlyIsBetterFilter`, `LatestDepartureTimeFilter`, `DebugFilterWrapper`, `FilterChain`). Their code is not part of this model, so the filters are tags carrying their constructor arguments.
- `groupByP` is a Java `double` compared with `Double.compare`. The model uses `real`, so the ordering of NaN and of −0.0 against 0.0 is not modelled.
- A latest-departure `Instant` is an integer, and a max-limit subscriber (`Consumer<Itinerary>`) is an identity number. Both are only carried through to the filters.
- `HttpUtils.getBaseAddress`, `UriInfo` and `HttpHeaders`: the base address is an input string.
- JSON serialisation of the TileJSON response, and how its numbers are printed.
- The envelope's centre is computed by `WorldEnvelope`, which is not part of this model; it is an input. Coordinates are `real` values that are only copied.
- Null references. `StringUtils.stripStart(null, …)`, null feed fields (Java string concatenation prints them as "null") and a null tile URL are not modelled; all strings are present.
- Format: only the `%s` and `%%` conversions of `String.formatted` are modelled, with string arguments. Any other conversion, and any flag, width or argument index, makes `Format` return `None`. Java formats some of these (`%n`, `%S`, `%10s`, `%1$s`) and throws an exception for the rest (a missing argument, an unknown conversion). Neither template uses them: both contain only `%s`.
- StripStart: Apache Commons removes leading whitespace when the strip set is null. That case is not modelled, because the source always passes "/".
