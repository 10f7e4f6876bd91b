/**
 * The older request builder of the `edu.cutr.pelias` package. It has no
 * endpoint field and no categories: every URL goes to the fixed search
 * endpoint, and the key and the query text are appended as they are,
 * without encoding, a null one as `null`.
 */
module CutrRequest {
  import opened Wrappers
  import opened Strings
  import opened FormEncoding
  import opened Query
  import PeliasRequest

  /** The URL `build()` produces for settings `p`: the text goes in as it is, unencoded. */
  function Url(p: Params): (url: string)
  {
    Compose(p, p.text)
  }

  /** The URL starts with the fixed search endpoint, `?text=`, the raw text, `&api_key=` and the key. */
  lemma UrlPrefix(p: Params)
    requires p.endpoint == PeliasRequest.SearchEndpoint
    ensures PeliasRequest.SearchEndpoint + "?text=" + p.text + "&api_key=" + Show(p.apiKey) <= Url(p)
  {
    ComposePrefix(p, p.text);
  }

  /**
   * For the same settings, this builder and the `edu.usf.cutr.pelias` one
   * give the same URL exactly when every character of the text is one the
   * form encoding keeps: a space, a `&` or a non-ASCII letter is written
   * differently by the two.
   */
  lemma AgreesWithUsfBuilder(p: Params)
    requires p.endpoint == PeliasRequest.SearchEndpoint && p.categories.None?
    ensures Url(p) == PeliasRequest.Url(p) <==> Plain(p.text)
  {
    FormEncodeIdentity(p.text);
    ComposeText(p, p.text, FormEncode(p.text));
  }

  /** A space in the text reaches the URL as it is. */
  lemma SpaceKept(p: Params)
    requires ' ' in p.text
    ensures ' ' in Url(p)
  {
    var head := p.endpoint + "?text=";
    ComposePrefix(p, p.text);
    PrefixShorten(head + p.text, "&api_key=", Show(p.apiKey), Url(p));
    var i :| 0 <= i < |p.text| && p.text[i] == ' ';
    assert (head + p.text)[|head| + i] == ' ';
    assert Url(p)[|head| + i] == ' ';
  }

  class Builder {
    var apiKey: Option<string>
    var text: Option<string>
    var sources: Option<string>
    var focusPointLat: Option<string>
    var focusPointLon: Option<string>
    var boundaryMinLat: Option<string>
    var boundaryMinLon: Option<string>
    var boundaryMaxLat: Option<string>
    var boundaryMaxLon: Option<string>
    var size: Option<int32>

    /**
     * The settings `build()` reads: the endpoint is fixed, there are no
     * categories, and the text is the one appended, `null` for a null text.
     */
    function Settings(): (p: Params)
      reads this
    {
      Params(PeliasRequest.SearchEndpoint, apiKey, Show(text), sources, size, focusPointLat, focusPointLon,
             boundaryMinLat, boundaryMinLon, boundaryMaxLat, boundaryMaxLon, None)
    }

    /** `new PeliasRequest.Builder(apiKey, text)`: key and text, nothing else set. */
    constructor (apiKey: Option<string>, text: Option<string>)
      ensures this.text == text
      ensures Settings() == Initial(PeliasRequest.SearchEndpoint, apiKey, Show(text))
    {
      this.apiKey, this.text := apiKey, text;
      sources, focusPointLat, focusPointLon := None, None, None;
      boundaryMinLat, boundaryMinLon, boundaryMaxLat, boundaryMaxLon := None, None, None, None;
      size := None;
    }

    method SetSources(sources: Option<string>) returns (b: Builder)
      modifies this
      ensures b == this && text == old(text)
      ensures Settings() == old(Settings()).(sources := sources)
    {
      this.sources := sources;
      b := this;
    }

    /** Writes both coordinates, a null one included. */
    method SetFocusPoint(lat: Option<string>, lon: Option<string>) returns (b: Builder)
      modifies this
      ensures b == this && text == old(text)
      ensures Settings() == old(Settings()).(focusPointLat := lat, focusPointLon := lon)
    {
      focusPointLat := lat;
      focusPointLon := lon;
      b := this;
    }

    /** Writes all four corners, null ones included. */
    method SetBoundaryRect(minLat: Option<string>, minLon: Option<string>, maxLat: Option<string>, maxLon: Option<string>)
      returns (b: Builder)
      modifies this
      ensures b == this && text == old(text)
      ensures Settings() == old(Settings()).(boundaryMinLat := minLat, boundaryMinLon := minLon,
                                         boundaryMaxLat := maxLat, boundaryMaxLon := maxLon)
    {
      boundaryMinLat := minLat;
      boundaryMinLon := minLon;
      boundaryMaxLat := maxLat;
      boundaryMaxLon := maxLon;
      b := this;
    }

    method SetSize(size: Option<int32>) returns (b: Builder)
      modifies this
      ensures b == this && text == old(text)
      ensures Settings() == old(Settings()).(size := size)
    {
      this.size := size;
      b := this;
    }

    /**
     * Appends the fixed endpoint with `?text=`, the text and the key, then
     * each optional group whose guard holds, in the fixed order. Changes
     * nothing, so building twice gives the same URL.
     */
    method Build() returns (url: string)
      ensures url == Url(Settings())
    {
      var sb := PeliasRequest.SearchEndpoint + "?text=";
      sb := sb + Show(text);
      sb := sb + "&api_key=";
      sb := sb + Show(apiKey);

      if sources.Some? {
        sb := sb + "&sources=";
        sb := sb + sources.value;
      }

      if size.Some? {
        sb := sb + "&size=";
        sb := sb + IntToString(size.value as int);
      }

      if focusPointLat.Some? && focusPointLon.Some? {
        sb := sb + "&focus.point.lat=";
        sb := sb + focusPointLat.value;
        sb := sb + "&focus.point.lon=";
        sb := sb + focusPointLon.value;
      }

      if boundaryMinLat.Some? {
        sb := sb + "&boundary.rect.min_lat=";
        sb := sb + boundaryMinLat.value;
        sb := sb + "&boundary.rect.min_lon=";
        sb := sb + Show(boundaryMinLon);
        sb := sb + "&boundary.rect.max_lat=";
        sb := sb + Show(boundaryMaxLat);
        sb := sb + "&boundary.rect.max_lon=";
        sb := sb + Show(boundaryMaxLon);
      }
      url := sb;
      RenderPairs(Settings(), Show(text));
    }
  }
}
