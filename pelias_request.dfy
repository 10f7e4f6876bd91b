/**
 * The request builder of the `edu.usf.cutr.pelias` package: a mutable
 * `Builder` that collects the optional parameters of a Pelias geocoding
 * request and turns them into one URL. Java's three builder classes (the
 * base `PeliasRequest.Builder` and its `SearchRequest` and
 * `AutocompleteRequest` subclasses) are one class here, told apart by `kind`.
 */
module PeliasRequest {
  import opened Wrappers
  import opened Strings
  import opened FormEncoding
  import opened Query

  const SearchEndpoint: string := "https://search.mapzen.com/v1/search"
  const AutocompleteEndpoint: string := "https://search.mapzen.com/v1/autocomplete"

  /** Which Java class the builder is an instance of. */
  datatype Kind = PeliasBuilder | SearchBuilder | AutocompleteBuilder

  /** The exceptions the builder throws. */
  datatype Error = UnsupportedOperation(message: string)

  const SizeUnsupported: string := "'size' parameter is not supported for /autocomplete requests"

  /** The URL `build()` produces for settings `p`: the query text is form-encoded. */
  function Url(p: Params): (url: string)
  {
    Compose(p, FormEncode(p.text))
  }

  /**
   * No value the builder appends as it is holds the `&` that separates
   * parameters. The text needs no such condition: its encoding escapes `&`.
   */
  predicate Separable(p: Params)
  {
    && '&' !in Show(p.apiKey)
    && (p.sources.Some? ==> '&' !in p.sources.value)
    && (p.focusPointLat.Some? ==> '&' !in p.focusPointLat.value)
    && (p.focusPointLon.Some? ==> '&' !in p.focusPointLon.value)
    && (p.boundaryMinLat.Some? ==> '&' !in p.boundaryMinLat.value)
    && (p.boundaryMinLon.Some? ==> '&' !in p.boundaryMinLon.value)
    && (p.boundaryMaxLat.Some? ==> '&' !in p.boundaryMaxLat.value)
    && (p.boundaryMaxLon.Some? ==> '&' !in p.boundaryMaxLon.value)
    && (p.categories.Some? ==> '&' !in p.categories.value)
  }

  /** The URL always starts with the endpoint, `?text=`, the encoded text, `&api_key=` and the key. */
  lemma UrlPrefix(p: Params)
    ensures p.endpoint + "?text=" + FormEncode(p.text) + "&api_key=" + Show(p.apiKey) <= Url(p)
  {
    ComposePrefix(p, FormEncode(p.text));
  }

  /** Under `Separable`, no value emitted for any parameter holds an `&`. */
  lemma EmittedSeparable(p: Params, k: Key, v: string)
    requires Separable(p)
    requires v in Emitted(p, FormEncode(p.text), k)
    ensures '&' !in v
  {
    match k
    case Size => IntToStringRoundTrip(p.size.value as int);
    case _ =>
  }

  /**
   * Read back, the URL is the endpoint followed by exactly the parameters
   * the settings call for (see `Query.PairsValues` and
   * `Query.PairsCanonical`), under their query-string names and in order.
   */
  lemma UrlParameters(p: Params)
    requires '?' !in p.endpoint
    requires Separable(p)
    ensures ParseUrl(Url(p)) == ParsedUrl(p.endpoint, Named(Pairs(p, FormEncode(p.text))))
  {
    var t := FormEncode(p.text);
    forall x | x in Pairs(p, t) ensures '&' !in x.value {
      InValues(Pairs(p, t), x);
      PairsValuesAt(p, t, x.key);
      EmittedSeparable(p, x.key, x.value);
    }
    ParseCompose(p, t);
  }

  /** Pointing the builder at another endpoint changes the URL only before the `?`. */
  lemma EndpointOnlyChangesBase(p: Params, endpoint: string)
    ensures p.endpoint <= Url(p)
    ensures Url(p.(endpoint := endpoint)) == endpoint + Url(p)[|p.endpoint|..]
  {
    var ps := Pairs(p, FormEncode(p.text));
    assert Pairs(p.(endpoint := endpoint), FormEncode(p.text)) == ps;
    EmitBase(p.endpoint, ps);
    EmitBase(endpoint, ps);
    assert Url(p)[|p.endpoint|..] == Emit([], ps);
  }

  class Builder {
    const kind: Kind
    var endpoint: string
    var apiKey: Option<string>
    var text: string
    var sources: Option<string>
    var focusPointLat: Option<string>
    var focusPointLon: Option<string>
    var boundaryMinLat: Option<string>
    var boundaryMinLon: Option<string>
    var boundaryMaxLat: Option<string>
    var boundaryMaxLon: Option<string>
    var size: Option<int32>
    var categories: Option<string>

    /** The settings `build()` reads. */
    function Settings(): (p: Params)
      reads this
    {
      Params(endpoint, apiKey, text, sources, size, focusPointLat, focusPointLon,
             boundaryMinLat, boundaryMinLon, boundaryMaxLat, boundaryMaxLon, categories)
    }

    /** An autocomplete builder never holds a size: its `setSize` always throws. */
    predicate Valid()
      reads this
    {
      kind == AutocompleteBuilder ==> size.None?
    }

    /** `new PeliasRequest.Builder(apiKey, text)`: the search endpoint, key and text, nothing else set. */
    constructor (apiKey: Option<string>, text: string)
      ensures kind == PeliasBuilder && Valid()
      ensures Settings() == Initial(SearchEndpoint, apiKey, text)
    {
      kind := PeliasBuilder;
      endpoint := SearchEndpoint;
      this.apiKey, this.text := apiKey, text;
      sources, focusPointLat, focusPointLon := None, None, None;
      boundaryMinLat, boundaryMinLon, boundaryMaxLat, boundaryMaxLon := None, None, None, None;
      size, categories := None, None;
    }

    /** `new SearchRequest.Builder(apiKey, text)`: the base builder with the search endpoint. */
    constructor Search(apiKey: Option<string>, text: string)
      ensures kind == SearchBuilder && Valid()
      ensures Settings() == Initial(SearchEndpoint, apiKey, text)
    {
      kind := SearchBuilder;
      endpoint := SearchEndpoint;
      this.apiKey, this.text := apiKey, text;
      sources, focusPointLat, focusPointLon := None, None, None;
      boundaryMinLat, boundaryMinLon, boundaryMaxLat, boundaryMaxLon := None, None, None, None;
      size, categories := None, None;
    }

    /** `new AutocompleteRequest.Builder(apiKey, text)`: the base builder with the autocomplete endpoint. */
    constructor Autocomplete(apiKey: Option<string>, text: string)
      ensures kind == AutocompleteBuilder && Valid()
      ensures Settings() == Initial(AutocompleteEndpoint, apiKey, text)
    {
      kind := AutocompleteBuilder;
      endpoint := AutocompleteEndpoint;
      this.apiKey, this.text := apiKey, text;
      sources, focusPointLat, focusPointLon := None, None, None;
      boundaryMinLat, boundaryMinLon, boundaryMaxLat, boundaryMaxLon := None, None, None, None;
      size, categories := None, None;
    }

    method SetApiEndpoint(endpoint: string) returns (b: Builder)
      requires Valid()
      modifies this
      ensures b == this && Valid()
      ensures Settings() == old(Settings()).(endpoint := endpoint)
    {
      this.endpoint := endpoint;
      b := this;
    }

    method SetSources(sources: Option<string>) returns (b: Builder)
      requires Valid()
      modifies this
      ensures b == this && Valid()
      ensures Settings() == old(Settings()).(sources := sources)
    {
      this.sources := sources;
      b := this;
    }

    /** Writes both coordinates, a null one included. */
    method SetFocusPoint(lat: Option<string>, lon: Option<string>) returns (b: Builder)
      requires Valid()
      modifies this
      ensures b == this && Valid()
      ensures Settings() == old(Settings()).(focusPointLat := lat, focusPointLon := lon)
    {
      focusPointLat := lat;
      focusPointLon := lon;
      b := this;
    }

    /** Writes all four corners, null ones included. */
    method SetBoundaryRect(minLat: Option<string>, minLon: Option<string>, maxLat: Option<string>, maxLon: Option<string>)
      returns (b: Builder)
      requires Valid()
      modifies this
      ensures b == this && Valid()
      ensures Settings() == old(Settings()).(boundaryMinLat := minLat, boundaryMinLon := minLon,
                                         boundaryMaxLat := maxLat, boundaryMaxLon := maxLon)
    {
      boundaryMinLat := minLat;
      boundaryMinLon := minLon;
      boundaryMaxLat := maxLat;
      boundaryMaxLon := maxLon;
      b := this;
    }

    /**
     * Sets the number of results. An autocomplete builder throws
     * `UnsupportedOperationException` for every argument, null included,
     * before it assigns anything.
     */
    method SetSize(size: Option<int32>) returns (r: Result<Builder, Error>)
      requires Valid()
      modifies this
      ensures Valid()
      ensures kind == AutocompleteBuilder ==>
        r == Failure(UnsupportedOperation(SizeUnsupported)) && Settings() == old(Settings())
      ensures kind != AutocompleteBuilder ==>
        r == Success(this) && Settings() == old(Settings()).(size := size)
    {
      if kind == AutocompleteBuilder {
        return Failure(UnsupportedOperation(SizeUnsupported));
      }
      this.size := size;
      r := Success(this);
    }

    method SetCategories(categories: Option<string>) returns (b: Builder)
      requires Valid()
      modifies this
      ensures b == this && Valid()
      ensures Settings() == old(Settings()).(categories := categories)
    {
      this.categories := categories;
      b := this;
    }

    /**
     * Appends the endpoint, the text and the key, then each optional group
     * whose guard holds, in the fixed order. Reads the builder and changes
     * nothing, so building twice gives the same URL.
     */
    method Build() returns (url: string)
      ensures url == Url(Settings())
    {
      var sb := endpoint;
      sb := sb + "?text=";
      sb := sb + FormEncode(text);
      sb := sb + "&api_key=";
      sb := sb + Show(apiKey);

      if sources.Some? {
        sb := sb + "&sources=";
        sb := sb + sources.value;
      }

      if size.Some? {
        sb := sb + "&size=";
        sb := sb + IntToString(size.value as int);
      }

      if focusPointLat.Some? && focusPointLon.Some? {
        sb := sb + "&focus.point.lat=";
        sb := sb + focusPointLat.value;
        sb := sb + "&focus.point.lon=";
        sb := sb + focusPointLon.value;
      }

      if boundaryMinLat.Some? {
        sb := sb + "&boundary.rect.min_lat=";
        sb := sb + boundaryMinLat.value;
        sb := sb + "&boundary.rect.min_lon=";
        sb := sb + Show(boundaryMinLon);
        sb := sb + "&boundary.rect.max_lat=";
        sb := sb + Show(boundaryMaxLat);
        sb := sb + "&boundary.rect.max_lon=";
        sb := sb + Show(boundaryMaxLon);
      }

      if categories.Some? {
        sb := sb + "&categories=";
        sb := sb + categories.value;
      }
      url := sb;
      RenderPairs(Settings(), FormEncode(text));
    }
  }
}
