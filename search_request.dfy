/**
 * `SearchRequest.Builder`: the base builder pointed at the search endpoint,
 * with everything else inherited, `setSize` included. The members below
 * replay the request-building scenarios of the search tests: a method runs
 * the test's chain of setters and ends in the settings it leaves behind, and
 * a lemma gives the exact URL the test expects for those settings, written
 * piece by piece.
 */
module SearchRequest {
  import opened Wrappers
  import opened Strings
  import opened FormEncoding
  import opened Query
  import opened PeliasRequest

  /** The API key every test passes. */
  const DummyApiKey: string := "dummyApiKey"
  const SimpleSearchEndpoint: string :=
    "https://raw.githubusercontent.com/CUTR-at-USF/pelias-client-library/master/src/test/resources/simple-search.json"
  const SearchWithFocusEndpoint: string :=
    "https://raw.githubusercontent.com/CUTR-at-USF/pelias-client-library/master/src/test/resources/search-with-focus.json"

  /**
   * A search builder accepts a size: `setSize` returns the builder, and the
   * URL built next carries the size, once, as its decimal rendering.
   */
  method SizeAccepted(apiKey: Option<string>, text: string, n: int32) returns (r: Result<Builder, Error>, url: string)
    ensures r.Success?
    ensures url == Url(Initial(SearchEndpoint, apiKey, text).(size := Some(n)))
    ensures Values(Pairs(Initial(SearchEndpoint, apiKey, text).(size := Some(n)), FormEncode(text)), Size)
      == [IntToString(n as int)]
  {
    var b := new Builder.Search(apiKey, text);
    r := b.SetSize(Some(n));
    url := b.Build();
    PairsValuesAt(b.Settings(), FormEncode(text), Size);
  }

  /** The text of most search tests has nothing to encode. */
  lemma SubwayKept()
    ensures FormEncode("subway") == "subway"
  {
    FormEncodePlain("subway");
  }

  /** What the focus test leaves in the builder: key, text, endpoint and focus point. */
  function FocusSettings(): (p: Params)
  {
    Initial(SearchWithFocusEndpoint, Some(DummyApiKey), "subway").(
      focusPointLat := Some("28.061062"), focusPointLon := Some("-82.4132"))
  }

  /** What the parameters test leaves in the builder: every search parameter set. */
  function AllSettings(text: string): (p: Params)
  {
    Initial(SearchWithFocusEndpoint, Some(DummyApiKey), text).(
      sources := Some("osm"), size := Some(35),
      focusPointLat := Some("28.061062"), focusPointLon := Some("-82.4132"),
      boundaryMinLat := Some("27.959868"), boundaryMinLon := Some("-82.515286"),
      boundaryMaxLat := Some("28.131471"), boundaryMaxLon := Some("-82.367646"))
  }

  method SimpleSearch() returns (url: string)
    ensures url == Url(Initial(SimpleSearchEndpoint, Some(DummyApiKey), "subway"))
  {
    var b := new Builder.Search(Some(DummyApiKey), "subway");
    b := b.SetApiEndpoint(SimpleSearchEndpoint);
    url := b.Build();
  }

  /** Only key and text set: the URL is the endpoint, the text and the key. */
  lemma SimpleSearchUrl()
    ensures Url(Initial(SimpleSearchEndpoint, Some(DummyApiKey), "subway")) ==
      SimpleSearchEndpoint + "?text=" + "subway" + "&api_key=" + "dummyApiKey"
  {
    var p := Initial(SimpleSearchEndpoint, Some(DummyApiKey), "subway");
    SubwayKept();
    RenderPairs(p, "subway");
    assert Url(p) == Render(p, "subway");
  }

  method SearchWithFocus() returns (url: string)
    ensures url == Url(FocusSettings())
  {
    var b := new Builder.Search(Some(DummyApiKey), "subway");
    b := b.SetApiEndpoint(SearchWithFocusEndpoint);
    b := b.SetFocusPoint(Some("28.061062"), Some("-82.4132"));
    url := b.Build();
  }

  /** Only a focus point set: the two focus keys follow the key, and nothing else. */
  lemma SearchWithFocusUrl()
    ensures Url(FocusSettings()) == SearchWithFocusEndpoint + "?text=" + "subway" + "&api_key=" + "dummyApiKey"
      + "&focus.point.lat=" + "28.061062" + "&focus.point.lon=" + "-82.4132"
  {
    var p := FocusSettings();
    SubwayKept();
    RenderPairs(p, "subway");
    assert Url(p) == Render(p, "subway");
  }

  method RequestParameters() returns (url: string)
    ensures url == Url(AllSettings("subway"))
  {
    var b := new Builder.Search(Some(DummyApiKey), "subway");
    b := b.SetApiEndpoint(SearchWithFocusEndpoint);
    b := b.SetFocusPoint(Some("28.061062"), Some("-82.4132"));
    b := b.SetSources(Some("osm"));
    var r := b.SetSize(Some(35));
    b := b.SetBoundaryRect(Some("27.959868"), Some("-82.515286"), Some("28.131471"), Some("-82.367646"));
    url := b.Build();
  }

  /** Every search parameter set: the full order, with the size after the sources. */
  lemma RequestParametersUrl()
    ensures Url(AllSettings("subway")) == SearchWithFocusEndpoint + "?text=" + "subway" + "&api_key=" + "dummyApiKey"
      + "&sources=" + "osm" + "&size=" + "35"
      + "&focus.point.lat=" + "28.061062" + "&focus.point.lon=" + "-82.4132"
      + "&boundary.rect.min_lat=" + "27.959868" + "&boundary.rect.min_lon=" + "-82.515286"
      + "&boundary.rect.max_lat=" + "28.131471" + "&boundary.rect.max_lon=" + "-82.367646"
  {
    var p := AllSettings("subway");
    SubwayKept();
    IntToStringExample();
    RenderPairs(p, "subway");
    assert Url(p) == Render(p, "subway");
  }

  method SpaceInText() returns (url: string)
    ensures url == Url(AllSettings("burger" + " " + "king"))
  {
    var b := new Builder.Search(Some(DummyApiKey), "burger" + " " + "king");
    b := b.SetApiEndpoint(SearchWithFocusEndpoint);
    b := b.SetFocusPoint(Some("28.061062"), Some("-82.4132"));
    b := b.SetSources(Some("osm"));
    var r := b.SetSize(Some(35));
    b := b.SetBoundaryRect(Some("27.959868"), Some("-82.515286"), Some("28.131471"), Some("-82.367646"));
    url := b.Build();
  }

  /** The same request for "burger king": the space in the text goes out as `+`. */
  lemma SpaceInTextUrl()
    ensures Url(AllSettings("burger" + " " + "king")) ==
      SearchWithFocusEndpoint + "?text=" + ("burger" + "+" + "king") + "&api_key=" + "dummyApiKey"
      + "&sources=" + "osm" + "&size=" + "35"
      + "&focus.point.lat=" + "28.061062" + "&focus.point.lon=" + "-82.4132"
      + "&boundary.rect.min_lat=" + "27.959868" + "&boundary.rect.min_lon=" + "-82.515286"
      + "&boundary.rect.max_lat=" + "28.131471" + "&boundary.rect.max_lon=" + "-82.367646"
  {
    var p := AllSettings("burger" + " " + "king");
    FormEncodeTwoWords("burger", "king");
    IntToStringExample();
    RenderPairs(p, "burger" + "+" + "king");
    assert Url(p) == Render(p, "burger" + "+" + "king");
  }
}
