/**
 * `AutocompleteRequest.Builder`: the base builder pointed at the
 * autocomplete endpoint, whose `setSize` always throws. The members below
 * state that such a builder never puts a size into its URL, and replay the
 * request-building scenarios of the autocomplete tests: a method runs the
 * test's chain of setters and ends in the settings it leaves behind, and a
 * lemma gives the exact URL the test expects for those settings.
 */
module AutocompleteRequest {
  import opened Wrappers
  import opened Strings
  import opened FormEncoding
  import opened Query
  import opened PeliasRequest
  import SearchRequest

  const AutocompleteWithFocusEndpoint: string :=
    "https://raw.githubusercontent.com/CUTR-at-USF/pelias-client-library/master/src/test/resources/autocomplete-with-focus.json"

  /**
   * With no size set, which `Builder.Valid` guarantees for an autocomplete
   * builder, no parameter of the URL is named `size`.
   */
  lemma NoSizeParameter(p: Params)
    requires p.size.None?
    requires '?' !in p.endpoint && Separable(p)
    ensures forall q :: q in ParseUrl(Url(p)).query ==> q.name != "size"
  {
    var t := FormEncode(p.text);
    var ps := Pairs(p, t);
    UrlParameters(p);
    PairsValuesAt(p, t, Size);
    forall q | q in Named(ps) ensures q.name != "size" {
      var i :| 0 <= i < |ps| && Named(ps)[i] == q;
      if q.name == "size" {
        NameInjective(ps[i].key, Size);
        InValues(ps, ps[i]);
        assert false;
      }
    }
  }

  /**
   * What `build()` gives on an autocomplete builder: its parameter list never
   * holds a size, and, read back, its URL has no parameter named `size`
   * whenever the endpoint holds no `?` and no value appended as it is holds
   * an `&`.
   */
  method BuildWithoutSize(b: Builder) returns (url: string)
    requires b.Valid() && b.kind == AutocompleteBuilder
    ensures url == Url(b.Settings())
    ensures Values(Pairs(b.Settings(), FormEncode(b.text)), Size) == []
    ensures '?' !in b.endpoint && Separable(b.Settings()) ==>
      forall q :: q in ParseUrl(url).query ==> q.name != "size"
  {
    url := b.Build();
    PairsValuesAt(b.Settings(), FormEncode(b.text), Size);
    if '?' !in b.endpoint && Separable(b.Settings()) {
      NoSizeParameter(b.Settings());
    }
  }

  /** A rejected size leaves the builder as it was: the URL is the one built without it. */
  method SizeRejected(n: Option<int32>) returns (r: Result<Builder, Error>, url: string)
    ensures r == Failure(UnsupportedOperation(SizeUnsupported))
    ensures url == Url(Initial(AutocompleteEndpoint, Some(SearchRequest.DummyApiKey), "union" + " " + "square"))
  {
    var b := new Builder.Autocomplete(Some(SearchRequest.DummyApiKey), "union" + " " + "square");
    r := b.SetSize(n);
    url := b.Build();
  }

  /** What the focus test leaves in the builder: a search builder pointed at an autocomplete endpoint, with a focus point. */
  function FocusSettings(): (p: Params)
  {
    Initial(AutocompleteWithFocusEndpoint, Some(SearchRequest.DummyApiKey), "union" + " " + "square").(
      focusPointLat := Some("37.7"), focusPointLon := Some("-122.4"))
  }

  /** What the parameters test leaves in the builder: everything but the size, categories as given. */
  function AllSettings(text: string, categories: Option<string>): (p: Params)
  {
    Initial(AutocompleteWithFocusEndpoint, Some(SearchRequest.DummyApiKey), text).(
      sources := Some("osm"),
      focusPointLat := Some("28.061062"), focusPointLon := Some("-82.4132"),
      boundaryMinLat := Some("27.959868"), boundaryMinLon := Some("-82.515286"),
      boundaryMaxLat := Some("28.131471"), boundaryMaxLon := Some("-82.367646"),
      categories := categories)
  }

  method AutocompleteWithFocus() returns (url: string)
    ensures url == Url(FocusSettings())
  {
    var b := new Builder.Search(Some(SearchRequest.DummyApiKey), "union" + " " + "square");
    b := b.SetApiEndpoint(AutocompleteWithFocusEndpoint);
    b := b.SetFocusPoint(Some("37.7"), Some("-122.4"));
    url := b.Build();
  }

  /** Another endpoint changes only the base: the query is the one the search endpoint gets. */
  lemma AutocompleteWithFocusUrl()
    ensures Url(FocusSettings()) == AutocompleteWithFocusEndpoint + "?text=" + ("union" + "+" + "square")
      + "&api_key=" + "dummyApiKey" + "&focus.point.lat=" + "37.7" + "&focus.point.lon=" + "-122.4"
  {
    var p := FocusSettings();
    FormEncodeTwoWords("union", "square");
    RenderPairs(p, "union" + "+" + "square");
    assert Url(p) == Render(p, "union" + "+" + "square");
  }

  method RequestParameters() returns (url: string)
    ensures url == Url(AllSettings("union" + " " + "square", Some("")))
  {
    var b := new Builder.Autocomplete(Some(SearchRequest.DummyApiKey), "union" + " " + "square");
    b := b.SetApiEndpoint(AutocompleteWithFocusEndpoint);
    b := b.SetFocusPoint(Some("28.061062"), Some("-82.4132"));
    b := b.SetSources(Some("osm"));
    b := b.SetBoundaryRect(Some("27.959868"), Some("-82.515286"), Some("28.131471"), Some("-82.367646"));
    b := b.SetCategories(Some(""));
    url := b.Build();
  }

  /** Categories set to the empty string still end the URL with `&categories=`. */
  lemma RequestParametersUrl()
    ensures Url(AllSettings("union" + " " + "square", Some(""))) ==
      AutocompleteWithFocusEndpoint + "?text=" + ("union" + "+" + "square") + "&api_key=" + "dummyApiKey"
      + "&sources=" + "osm"
      + "&focus.point.lat=" + "28.061062" + "&focus.point.lon=" + "-82.4132"
      + "&boundary.rect.min_lat=" + "27.959868" + "&boundary.rect.min_lon=" + "-82.515286"
      + "&boundary.rect.max_lat=" + "28.131471" + "&boundary.rect.max_lon=" + "-82.367646"
      + "&categories=" + ""
  {
    var p := AllSettings("union" + " " + "square", Some(""));
    FormEncodeTwoWords("union", "square");
    RenderPairs(p, "union" + "+" + "square");
    assert Url(p) == Render(p, "union" + "+" + "square");
  }

  method SpaceInText() returns (url: string)
    ensures url == Url(AllSettings("burger" + " " + "king", None))
  {
    var b := new Builder.Autocomplete(Some(SearchRequest.DummyApiKey), "burger" + " " + "king");
    b := b.SetApiEndpoint(AutocompleteWithFocusEndpoint);
    b := b.SetFocusPoint(Some("28.061062"), Some("-82.4132"));
    b := b.SetSources(Some("osm"));
    b := b.SetBoundaryRect(Some("27.959868"), Some("-82.515286"), Some("28.131471"), Some("-82.367646"));
    url := b.Build();
  }

  /** No categories set: no categories key, and the space in the text goes out as `+`. */
  lemma SpaceInTextUrl()
    ensures Url(AllSettings("burger" + " " + "king", None)) ==
      AutocompleteWithFocusEndpoint + "?text=" + ("burger" + "+" + "king") + "&api_key=" + "dummyApiKey"
      + "&sources=" + "osm"
      + "&focus.point.lat=" + "28.061062" + "&focus.point.lon=" + "-82.4132"
      + "&boundary.rect.min_lat=" + "27.959868" + "&boundary.rect.min_lon=" + "-82.515286"
      + "&boundary.rect.max_lat=" + "28.131471" + "&boundary.rect.max_lon=" + "-82.367646"
  {
    var p := AllSettings("burger" + " " + "king", None);
    FormEncodeTwoWords("burger", "king");
    RenderPairs(p, "burger" + "+" + "king");
    assert Url(p) == Render(p, "burger" + "+" + "king");
  }
}
