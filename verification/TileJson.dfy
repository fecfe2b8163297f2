/**
 * The TileJSON 2.2.0 document served for OpenTripPlanner's vector-tile layers,
 * and the two URL templates clients fetch the tiles from.
 */
module TileJsonSupport {
  import opened Wrappers
  import opened Strings

  /** The publisher of one transit feed, as shown in the map's attribution. */
  datatype FeedInfo = FeedInfo(publisherUrl: string, publisherName: string)

  /** A geographic position; its numbers are only copied, never computed with. */
  datatype Coordinate = Coordinate(latitude: real, longitude: real)

  /** The area the loaded data covers: two corners and a centre, computed elsewhere. */
  datatype WorldEnvelope = WorldEnvelope(lowerLeft: Coordinate, upperRight: Coordinate, center: Coordinate)

  /** The TileJSON response; the members without parameters are the format's fixed fields. */
  datatype TileJson = TileJson(attribution: string, tiles: seq<string>, bounds: seq<real>, center: seq<real>) {
    const tilejson: string := "2.2.0"
    const scheme: string := "xyz"
    const minzoom: int := 9
    const maxzoom: int := 20
    const name: string := "OpenTripPlanner"
  }

  /** The zoom level the map opens at. */
  const CENTER_ZOOM: real := 9.0

  const ROUTER_TILE_URL_TEMPLATE: string := "%s/otp/routers/%s/%s/%s/{z}/{x}/{y}.pbf"
  const OVERRIDE_TILE_URL_TEMPLATE: string := "%s/%s/%s/{z}/{x}/{y}.pbf"

  /** An HTML link to the feed's publisher. */
  function Anchor(feed: FeedInfo): (r: string)
    ensures |r| == |feed.publisherUrl| + |feed.publisherName| + 15
  {
    "<a href='" + feed.publisherUrl + "'>" + feed.publisherName + "</a>"
  }

  /** The link opens with the anchor tag around the publisher's URL and closes with the publisher's name and "</a>". */
  lemma AnchorParts(feed: FeedInfo)
    ensures var r := Anchor(feed);
      var u := |feed.publisherUrl|;
      && r[..9] == "<a href='" && r[9..9 + u] == feed.publisherUrl && r[9 + u..11 + u] == "'>"
      && r[11 + u..|r| - 4] == feed.publisherName && r[|r| - 4..] == "</a>"
  {
  }

  /** One publisher link per feed, in feed order. */
  function Anchors(feeds: seq<FeedInfo>): (r: seq<string>)
    ensures |r| == |feeds|
    ensures forall i :: 0 <= i < |feeds| ==> r[i] == Anchor(feeds[i])
  {
    if feeds == [] then [] else [Anchor(feeds[0])] + Anchors(feeds[1..])
  }

  /** The attribution text: the publisher links joined by ", ". */
  function Attribution(feeds: seq<FeedInfo>): (r: string)
    ensures |feeds| == 1 ==> r == Anchor(feeds[0])
  {
    Join(Anchors(feeds), ", ")
  }

  /** The response for one tile URL, the data's envelope and its feeds. */
  function NewTileJson(tileUrl: string, envelope: WorldEnvelope, feedInfos: seq<FeedInfo>): (t: TileJson)
    ensures t.attribution == Attribution(feedInfos)
    ensures t.tiles == [tileUrl]
    ensures t.bounds == [envelope.lowerLeft.longitude, envelope.lowerLeft.latitude,
                         envelope.upperRight.longitude, envelope.upperRight.latitude]
    ensures |t.center| == 3
    ensures t.center[0] == envelope.center.longitude && t.center[1] == envelope.center.latitude
    ensures t.center[2] == 9.0 && t.center[2] == t.minzoom as real
  {
    TileJson(
      Attribution(feedInfos),
      [tileUrl],
      [envelope.lowerLeft.longitude, envelope.lowerLeft.latitude,
       envelope.upperRight.longitude, envelope.upperRight.latitude],
      [envelope.center.longitude, envelope.center.latitude, CENTER_ZOOM])
  }

  // ---------------------------------------------------------------------------
  // Fixed fields and attribution

  /** Every response names format version 2.2.0, the xyz scheme, OpenTripPlanner and zoom levels 9 to 20. */
  lemma FixedFields(t: TileJson)
    ensures t.tilejson == "2.2.0" && t.scheme == "xyz" && t.name == "OpenTripPlanner"
    ensures t.minzoom == 9 && t.maxzoom == 20 && t.minzoom <= t.maxzoom
  {
  }

  /** Without feeds the attribution is empty. */
  lemma AttributionOfNoFeeds()
    ensures Attribution([]) == ""
  {
  }

  /** The total length of the feeds' links. */
  function AnchorsLength(feeds: seq<FeedInfo>): nat {
    if feeds == [] then 0 else |Anchor(feeds[0])| + AnchorsLength(feeds[1..])
  }

  lemma {:induction false} OffsetOfAllLinks(feeds: seq<FeedInfo>, i: nat)
    requires i <= |feeds|
    ensures Offset(Anchors(feeds), ", ", i) == AnchorsLength(feeds[..i]) + 2 * i
  {
    if i > 0 {
      OffsetOfAllLinks(feeds[1..], i - 1);
      assert Anchors(feeds)[1..] == Anchors(feeds[1..]);
      assert feeds[..i][1..] == feeds[1..][..i - 1];
    }
  }

  lemma {:induction false} AnchorsLengthSnoc(feeds: seq<FeedInfo>, f: FeedInfo)
    ensures AnchorsLength(feeds + [f]) == AnchorsLength(feeds) + |Anchor(f)|
  {
    if feeds != [] {
      assert (feeds + [f])[1..] == feeds[1..] + [f];
      AnchorsLengthSnoc(feeds[1..], f);
    } else {
      assert [] + [f] == [f];
    }
  }

  /** The attribution of n feeds is their links plus n - 1 separators ", ", and nothing else. */
  lemma AttributionLength(feeds: seq<FeedInfo>)
    requires |feeds| > 0
    ensures |Attribution(feeds)| == AnchorsLength(feeds) + 2 * (|feeds| - 1)
  {
    var n := |feeds|;
    JoinLength(Anchors(feeds), ", ");
    OffsetOfAllLinks(feeds, n - 1);
    AnchorsLengthSnoc(feeds[..n - 1], feeds[n - 1]);
    assert feeds[..n - 1] + [feeds[n - 1]] == feeds;
  }

  /** Feed i's link stands in the attribution after the links of the feeds before it and their separators. */
  lemma LinkInAttribution(feeds: seq<FeedInfo>, i: nat)
    requires i < |feeds|
    ensures var start := AnchorsLength(feeds[..i]) + 2 * i;
      && start + |Anchor(feeds[i])| <= |Attribution(feeds)|
      && Attribution(feeds)[start .. start + |Anchor(feeds[i])|] == Anchor(feeds[i])
  {
    var links := Anchors(feeds);
    assert Attribution(feeds) == Join(links, ", ");
    assert links[i] == Anchor(feeds[i]);
    JoinPartAt(links, ", ", i);
    OffsetOfAllLinks(feeds, i);
  }

  /** Right after each link but the last comes the separator ", ". */
  lemma SeparatorAfterLink(feeds: seq<FeedInfo>, i: nat)
    requires i + 1 < |feeds|
    ensures var end := AnchorsLength(feeds[..i]) + 2 * i + |Anchor(feeds[i])|;
      && end + 2 <= |Attribution(feeds)|
      && Attribution(feeds)[end .. end + 2] == ", "
  {
    var links := Anchors(feeds);
    assert Attribution(feeds) == Join(links, ", ");
    assert links[i] == Anchor(feeds[i]);
    JoinSeparatorAt(links, ", ", i);
    OffsetOfAllLinks(feeds, i);
  }

  // ---------------------------------------------------------------------------
  // Tile URLs

  const TILE_PATTERN: string := "/{z}/{x}/{y}.pbf"

  const ROUTER_TEMPLATE_PIECES: seq<string> := ["", "/otp/routers/", "/", "/", TILE_PATTERN]
  const OVERRIDE_TEMPLATE_PIECES: seq<string> := ["", "/", "/", TILE_PATTERN]

  lemma RouterTemplatePieces()
    ensures ROUTER_TILE_URL_TEMPLATE == Template(ROUTER_TEMPLATE_PIECES)
  {
    var pieces := ROUTER_TEMPLATE_PIECES;
    assert pieces[1..][1..][1..][1..] == [TILE_PATTERN];
    assert Template(pieces[1..][1..][1..]) == "/" + ("%s" + TILE_PATTERN);
    assert Template(pieces[1..][1..]) == "/" + ("%s" + ("/" + ("%s" + TILE_PATTERN)));
    assert Template(pieces[1..]) == "/otp/routers/" + ("%s" + ("/" + ("%s" + ("/" + ("%s" + TILE_PATTERN)))));
  }

  lemma OverrideTemplatePieces()
    ensures OVERRIDE_TILE_URL_TEMPLATE == Template(OVERRIDE_TEMPLATE_PIECES)
  {
    var pieces := OVERRIDE_TEMPLATE_PIECES;
    assert pieces[1..][1..][1..] == [TILE_PATTERN];
    assert Template(pieces[1..][1..]) == "/" + ("%s" + TILE_PATTERN);
    assert Template(pieces[1..]) == "/" + ("%s" + ("/" + ("%s" + TILE_PATTERN)));
  }

  lemma RouterPiecesInterleaved(base: string, routerId: string, path: string, layers: string)
    ensures Interleave(ROUTER_TEMPLATE_PIECES, [base, routerId, path, layers])
      == base + "/otp/routers/" + routerId + "/" + path + "/" + layers + TILE_PATTERN
  {
    var pieces := ROUTER_TEMPLATE_PIECES;
    var args := [base, routerId, path, layers];
    assert pieces[1..][1..][1..][1..] == [TILE_PATTERN];
    assert args[1..][1..][1..] == [layers];
    var i4 := Interleave(pieces[1..][1..][1..][1..], args[1..][1..][1..][1..]);
    assert i4 == TILE_PATTERN;
    var i3 := Interleave(pieces[1..][1..][1..], args[1..][1..][1..]);
    assert i3 == "/" + layers + i4;
    var i2 := Interleave(pieces[1..][1..], args[1..][1..]);
    assert i2 == "/" + path + i3;
    var i1 := Interleave(pieces[1..], args[1..]);
    assert i1 == "/otp/routers/" + routerId + i2;
    assert Interleave(pieces, args) == "" + base + i1;
  }

  lemma OverridePiecesInterleaved(base: string, strippedPath: string, layers: string)
    ensures Interleave(OVERRIDE_TEMPLATE_PIECES, [base, strippedPath, layers])
      == base + "/" + strippedPath + "/" + layers + TILE_PATTERN
  {
    var pieces := OVERRIDE_TEMPLATE_PIECES;
    var args := [base, strippedPath, layers];
    assert pieces[1..][1..][1..] == [TILE_PATTERN];
    assert args[1..][1..] == [layers];
    var i3 := Interleave(pieces[1..][1..][1..], args[1..][1..][1..]);
    assert i3 == TILE_PATTERN;
    var i2 := Interleave(pieces[1..][1..], args[1..][1..]);
    assert i2 == "/" + layers + i3;
    var i1 := Interleave(pieces[1..], args[1..]);
    assert i1 == "/" + strippedPath + i2;
    assert Interleave(pieces, args) == "" + base + i1;
  }

  /** Filling the router template puts each argument in its slot and keeps the text around them. */
  lemma RouterTemplateFilled(base: string, routerId: string, path: string, layers: string)
    ensures Format(ROUTER_TILE_URL_TEMPLATE, [base, routerId, path, layers])
      == Some(base + "/otp/routers/" + routerId + "/" + path + "/" + layers + TILE_PATTERN)
  {
    RouterTemplatePieces();
    FormatFillsTemplate(ROUTER_TEMPLATE_PIECES, [base, routerId, path, layers]);
    RouterPiecesInterleaved(base, routerId, path, layers);
  }

  /** Filling the override template puts each argument in its slot and keeps the text around them. */
  lemma OverrideTemplateFilled(base: string, strippedPath: string, layers: string)
    ensures Format(OVERRIDE_TILE_URL_TEMPLATE, [base, strippedPath, layers])
      == Some(base + "/" + strippedPath + "/" + layers + TILE_PATTERN)
  {
    OverrideTemplatePieces();
    FormatFillsTemplate(OVERRIDE_TEMPLATE_PIECES, [base, strippedPath, layers]);
    OverridePiecesInterleaved(base, strippedPath, layers);
  }

  /**
   * The tile URL under a router: the base address, "/otp/routers/", the router
   * id, the layer path and the layer names, then the z/x/y tile pattern.
   */
  function TileUrl(baseAddress: string, layers: string, ignoreRouterId: string, path: string): (url: string)
    ensures url == baseAddress + "/otp/routers/" + ignoreRouterId + "/" + path + "/" + layers + TILE_PATTERN
  {
    RouterTemplateFilled(baseAddress, ignoreRouterId, path, layers);
    Format(ROUTER_TILE_URL_TEMPLATE, [baseAddress, ignoreRouterId, path, layers]).value
  }

  /** Nothing but '/' characters. */
  predicate AllSlashes(s: string) {
    forall i :: 0 <= i < |s| ==> s[i] == '/'
  }

  /**
   * The tile URL under an override path: the base address, the override path
   * without its leading slashes, the layer names, then the z/x/y tile pattern.
   */
  function TileUrlWithOverridePath(baseAddress: string, overridePath: string, layers: string): (url: string)
    ensures url == baseAddress + "/" + StripStart(overridePath, "/") + "/" + layers + TILE_PATTERN
    ensures exists slashes, stripped ::
      && overridePath == slashes + stripped
      && AllSlashes(slashes)
      && (stripped == [] || stripped[0] != '/')
      && url == baseAddress + "/" + stripped + "/" + layers + TILE_PATTERN
  {
    var strippedPath := StripStart(overridePath, "/");
    OverrideTemplateFilled(baseAddress, strippedPath, layers);
    LeadingSlashesSplit(overridePath);
    Format(OVERRIDE_TILE_URL_TEMPLATE, [baseAddress, strippedPath, layers]).value
  }

  lemma LeadingSlashesSplit(overridePath: string)
    ensures var stripped := StripStart(overridePath, "/");
      && overridePath == overridePath[..|overridePath| - |stripped|] + stripped
      && AllSlashes(overridePath[..|overridePath| - |stripped|])
      && (stripped == [] || stripped[0] != '/')
  {
    var stripped := StripStart(overridePath, "/");
    var k := |overridePath| - |stripped|;
    var slashes := overridePath[..k];
    assert stripped == overridePath[k..];
    assert overridePath == slashes + overridePath[k..];
    forall i | 0 <= i < |slashes| ensures slashes[i] == '/' {
      assert slashes[i] == overridePath[i];
      assert overridePath[i] in "/";
    }
    assert AllSlashes(slashes);
  }

  /** Leading slashes on the override path make no difference to the URL. */
  lemma {:induction false} OverridePathLeadingSlashesIgnored(baseAddress: string, overridePath: string, layers: string)
    ensures TileUrlWithOverridePath(baseAddress, "/" + overridePath, layers)
      == TileUrlWithOverridePath(baseAddress, overridePath, layers)
  {
    var url := TileUrlWithOverridePath(baseAddress, overridePath, layers);
    var slashedUrl := TileUrlWithOverridePath(baseAddress, "/" + overridePath, layers);
    assert ("/" + overridePath)[1..] == overridePath;
    assert StripStart("/" + overridePath, "/") == StripStart(overridePath, "/");
    assert url == baseAddress + "/" + StripStart(overridePath, "/") + "/" + layers + TILE_PATTERN;
    assert slashedUrl == baseAddress + "/" + StripStart("/" + overridePath, "/") + "/" + layers + TILE_PATTERN;
  }
}
