/**
 * The query string a request builder produces: the builder's settings, the
 * list of parameters those settings put in the URL, the text of that list,
 * and the reading of a URL back into its base and its parameters.
 */
module Query {
  import opened Wrappers
  import opened Strings

  /** The parameters a request can carry, in the order the builder appends them. */
  datatype Key =
    | Text | ApiKey | Sources | Size
    | FocusPointLat | FocusPointLon
    | BoundaryMinLat | BoundaryMinLon | BoundaryMaxLat | BoundaryMaxLon
    | Categories

  /** The name each parameter has in the query string. */
  function Name(k: Key): (n: string)
  {
    match k
    case Text => "text"
    case ApiKey => "api_key"
    case Sources => "sources"
    case Size => "size"
    case FocusPointLat => "focus.point.lat"
    case FocusPointLon => "focus.point.lon"
    case BoundaryMinLat => "boundary.rect.min_lat"
    case BoundaryMinLon => "boundary.rect.min_lon"
    case BoundaryMaxLat => "boundary.rect.max_lat"
    case BoundaryMaxLon => "boundary.rect.max_lon"
    case Categories => "categories"
  }

  /** Position of a parameter in the fixed order of the query string. */
  function Rank(k: Key): (r: nat)
  {
    match k
    case Text => 0
    case ApiKey => 1
    case Sources => 2
    case Size => 3
    case FocusPointLat => 4
    case FocusPointLon => 5
    case BoundaryMinLat => 6
    case BoundaryMinLon => 7
    case BoundaryMaxLat => 8
    case BoundaryMaxLon => 9
    case Categories => 10
  }

  /**
   * What a builder holds when `build()` runs. `None` stands for a field that
   * is still `null`; coordinates are the strings Java renders them as.
   */
  datatype Params = Params(
    endpoint: string,
    apiKey: Option<string>,
    text: string,
    sources: Option<string>,
    size: Option<int32>,
    focusPointLat: Option<string>,
    focusPointLon: Option<string>,
    boundaryMinLat: Option<string>,
    boundaryMinLon: Option<string>,
    boundaryMaxLat: Option<string>,
    boundaryMaxLon: Option<string>,
    categories: Option<string>)

  /** The settings of a freshly constructed builder: only key and text are set. */
  function Initial(endpoint: string, apiKey: Option<string>, text: string): (p: Params)
  {
    Params(endpoint, apiKey, text, None, None, None, None, None, None, None, None, None)
  }

  datatype Param = Param(key: Key, value: string)

  /** Every parameter comes strictly after the ones before it in the fixed order, so none repeats. */
  predicate Canonical(ps: seq<Param>)
  {
    forall i, j :: 0 <= i < j < |ps| ==> Rank(ps[i].key) < Rank(ps[j].key)
  }

  /** The values given to parameter `k`, in the order they occur. */
  function Values(ps: seq<Param>, k: Key): (vs: seq<string>)
  {
    if ps == [] then [] else (if ps[0].key == k then [ps[0].value] else []) + Values(ps[1..], k)
  }

  function SourcesGroup(p: Params): (g: seq<Param>)
  {
    if p.sources.Some? then [Param(Sources, p.sources.value)] else []
  }

  function SizeGroup(p: Params): (g: seq<Param>)
  {
    if p.size.Some? then [Param(Size, IntToString(p.size.value as int))] else []
  }

  function FocusGroup(p: Params): (g: seq<Param>)
  {
    if p.focusPointLat.Some? && p.focusPointLon.Some? then
      [Param(FocusPointLat, p.focusPointLat.value), Param(FocusPointLon, p.focusPointLon.value)]
    else []
  }

  function BoundaryGroup(p: Params): (g: seq<Param>)
  {
    if p.boundaryMinLat.Some? then
      [Param(BoundaryMinLat, p.boundaryMinLat.value), Param(BoundaryMinLon, Show(p.boundaryMinLon)),
       Param(BoundaryMaxLat, Show(p.boundaryMaxLat)), Param(BoundaryMaxLon, Show(p.boundaryMaxLon))]
    else []
  }

  function CategoriesGroup(p: Params): (g: seq<Param>)
  {
    if p.categories.Some? then [Param(Categories, p.categories.value)] else []
  }

  /**
   * The parameters a builder with settings `p` puts into its URL, `text`
   * being the query text as rendered: text and key always, then each
   * optional group in turn.
   */
  function Pairs(p: Params, text: string): (ps: seq<Param>)
    ensures |ps| >= 2 && ps[0] == Param(Text, text) && ps[1] == Param(ApiKey, Show(p.apiKey))
  {
    [Param(Text, text), Param(ApiKey, Show(p.apiKey))]
      + SourcesGroup(p) + SizeGroup(p) + FocusGroup(p) + BoundaryGroup(p) + CategoriesGroup(p)
  }

  // ---------------------------------------------------------------------------
  // Rendering: the URL is assembled left to right, as a StringBuilder does
  // ---------------------------------------------------------------------------

  /** What the builder appends before a parameter's value: `?` or `&`, the name, `=`. */
  function Lead(k: Key): (l: string)
  {
    match k
    case Text => "?text="
    case ApiKey => "&api_key="
    case Sources => "&sources="
    case Size => "&size="
    case FocusPointLat => "&focus.point.lat="
    case FocusPointLon => "&focus.point.lon="
    case BoundaryMinLat => "&boundary.rect.min_lat="
    case BoundaryMinLon => "&boundary.rect.min_lon="
    case BoundaryMaxLat => "&boundary.rect.max_lat="
    case BoundaryMaxLon => "&boundary.rect.max_lon="
    case Categories => "&categories="
  }

  /** `base` followed by the lead and the value of each parameter in turn. */
  function Emit(base: string, ps: seq<Param>): (r: string)
    decreases |ps|
  {
    if ps == [] then base
    else Emit(base, ps[..|ps| - 1]) + Lead(ps[|ps| - 1].key) + ps[|ps| - 1].value
  }

  /** The URL for settings `p` with the query text rendered as `text`. */
  function Compose(p: Params, text: string): (url: string)
  {
    Emit(p.endpoint, Pairs(p, text))
  }

  /** The mandatory part: endpoint, `?text=` and the text, `&api_key=` and the key. */
  function Base(p: Params, text: string): (r: string)
  {
    p.endpoint + "?text=" + text + "&api_key=" + Show(p.apiKey)
  }

  function WithSources(s: string, p: Params): (r: string)
  {
    if p.sources.Some? then s + "&sources=" + p.sources.value else s
  }

  function WithSize(s: string, p: Params): (r: string)
  {
    if p.size.Some? then s + "&size=" + IntToString(p.size.value as int) else s
  }

  function WithFocus(s: string, p: Params): (r: string)
  {
    if p.focusPointLat.Some? && p.focusPointLon.Some? then
      s + "&focus.point.lat=" + p.focusPointLat.value + "&focus.point.lon=" + p.focusPointLon.value
    else s
  }

  function WithBoundary(s: string, p: Params): (r: string)
  {
    if p.boundaryMinLat.Some? then
      s + "&boundary.rect.min_lat=" + p.boundaryMinLat.value + "&boundary.rect.min_lon=" + Show(p.boundaryMinLon)
        + "&boundary.rect.max_lat=" + Show(p.boundaryMaxLat) + "&boundary.rect.max_lon=" + Show(p.boundaryMaxLon)
    else s
  }

  function WithCategories(s: string, p: Params): (r: string)
  {
    if p.categories.Some? then s + "&categories=" + p.categories.value else s
  }

  /** The URL as the builder appends it, group after group. */
  function Render(p: Params, text: string): (url: string)
  {
    WithCategories(WithBoundary(WithFocus(WithSize(WithSources(Base(p, text), p), p), p), p), p)
  }

  // ---------------------------------------------------------------------------
  // The query string as a list of name=value fields joined by '&'
  // ---------------------------------------------------------------------------

  function Field(x: Param): (f: string)
  {
    Name(x.key) + "=" + x.value
  }

  function Fields(ps: seq<Param>): (fs: seq<string>)
    ensures |fs| == |ps|
    ensures forall i :: 0 <= i < |ps| ==> fs[i] == Field(ps[i])
  {
    if ps == [] then [] else [Field(ps[0])] + Fields(ps[1..])
  }

  function Join(parts: seq<string>, sep: char): (r: string)
  {
    if |parts| == 0 then ""
    else if |parts| == 1 then parts[0]
    else parts[0] + [sep] + Join(parts[1..], sep)
  }

  function QueryString(ps: seq<Param>): (q: string)
  {
    Join(Fields(ps), '&')
  }

  // ---------------------------------------------------------------------------
  // Reading a URL back
  // ---------------------------------------------------------------------------

  /** Position of the first `c` in `s`, or `|s|` when there is none. */
  function IndexOf(s: string, c: char): (i: nat)
    ensures i <= |s|
    ensures i < |s| ==> s[i] == c
    ensures c !in s[..i]
  {
    if s == [] then 0
    else if s[0] == c then 0
    else 1 + IndexOf(s[1..], c)
  }

  function Split(s: string, sep: char): (parts: seq<string>)
    ensures |parts| > 0
    decreases |s|
  {
    var i := IndexOf(s, sep);
    if i == |s| then [s] else [s[..i]] + Split(s[i + 1..], sep)
  }

  /** A parameter as a server reads it: the name before the first `=`, the value after it. */
  datatype Pair = Pair(name: string, value: string)

  function ParsePair(field: string): (r: Pair)
  {
    var i := IndexOf(field, '=');
    if i == |field| then Pair(field, "") else Pair(field[..i], field[i + 1..])
  }

  function ParsePairs(fields: seq<string>): (r: seq<Pair>)
    ensures |r| == |fields|
  {
    if fields == [] then [] else [ParsePair(fields[0])] + ParsePairs(fields[1..])
  }

  datatype ParsedUrl = ParsedUrl(base: string, query: seq<Pair>)

  /** The base before the first `?`, and the `&`-separated parameters after it. */
  function ParseUrl(url: string): (r: ParsedUrl)
  {
    var i := IndexOf(url, '?');
    if i == |url| then ParsedUrl(url, []) else ParsedUrl(url[..i], ParsePairs(Split(url[i + 1..], '&')))
  }

  /** The parameters under their query-string names. */
  function Named(ps: seq<Param>): (r: seq<Pair>)
    ensures |r| == |ps|
    ensures forall i :: 0 <= i < |ps| ==> r[i] == Pair(Name(ps[i].key), ps[i].value)
  {
    if ps == [] then [] else [Pair(Name(ps[0].key), ps[0].value)] + Named(ps[1..])
  }

  // ---------------------------------------------------------------------------
  // Lemmas
  // ---------------------------------------------------------------------------

  lemma ShortNamesClean()
    ensures '&' !in Name(Text) && '=' !in Name(Text)
    ensures '&' !in Name(ApiKey) && '=' !in Name(ApiKey)
    ensures '&' !in Name(Sources) && '=' !in Name(Sources)
    ensures '&' !in Name(Size) && '=' !in Name(Size)
    ensures '&' !in Name(Categories) && '=' !in Name(Categories)
  {
  }

  lemma FocusNamesClean()
    ensures '&' !in Name(FocusPointLat) && '=' !in Name(FocusPointLat)
    ensures '&' !in Name(FocusPointLon) && '=' !in Name(FocusPointLon)
  {
  }

  lemma MinCornerNamesClean()
    ensures '&' !in Name(BoundaryMinLat) && '=' !in Name(BoundaryMinLat)
    ensures '&' !in Name(BoundaryMinLon) && '=' !in Name(BoundaryMinLon)
  {
  }

  lemma MaxCornerNamesClean()
    ensures '&' !in Name(BoundaryMaxLat) && '=' !in Name(BoundaryMaxLat)
    ensures '&' !in Name(BoundaryMaxLon) && '=' !in Name(BoundaryMaxLon)
  {
  }

  /** No parameter name holds a separator of the query string. */
  lemma NameClean(k: Key)
    ensures '&' !in Name(k) && '=' !in Name(k)
  {
    match k
    case FocusPointLat | FocusPointLon => FocusNamesClean();
    case BoundaryMinLat | BoundaryMinLon => MinCornerNamesClean();
    case BoundaryMaxLat | BoundaryMaxLon => MaxCornerNamesClean();
    case _ => ShortNamesClean();
  }

  lemma RequiredLeads()
    ensures Lead(Text) == "?" + Name(Text) + "="
    ensures Lead(ApiKey) == "&" + Name(ApiKey) + "="
  {
  }

  lemma SingleLeads()
    ensures Lead(Sources) == "&" + Name(Sources) + "="
    ensures Lead(Size) == "&" + Name(Size) + "="
    ensures Lead(Categories) == "&" + Name(Categories) + "="
  {
  }

  lemma FocusLeads()
    ensures Lead(FocusPointLat) == "&" + Name(FocusPointLat) + "="
    ensures Lead(FocusPointLon) == "&" + Name(FocusPointLon) + "="
  {
  }

  lemma MinCornerLeads()
    ensures Lead(BoundaryMinLat) == "&" + Name(BoundaryMinLat) + "="
    ensures Lead(BoundaryMinLon) == "&" + Name(BoundaryMinLon) + "="
  {
  }

  lemma MaxCornerLeads()
    ensures Lead(BoundaryMaxLat) == "&" + Name(BoundaryMaxLat) + "="
    ensures Lead(BoundaryMaxLon) == "&" + Name(BoundaryMaxLon) + "="
  {
  }

  /** The lead of the first parameter opens the query with `?`; every other lead separates with `&`. */
  lemma LeadName(k: Key)
    ensures Lead(k) == (if k == Text then "?" else "&") + Name(k) + "="
  {
    match k
    case Text => RequiredLeads();
    case ApiKey => RequiredLeads();
    case Sources => SingleLeads();
    case Size => SingleLeads();
    case FocusPointLat => FocusLeads();
    case FocusPointLon => FocusLeads();
    case BoundaryMinLat => MinCornerLeads();
    case BoundaryMinLon => MinCornerLeads();
    case BoundaryMaxLat => MaxCornerLeads();
    case BoundaryMaxLon => MaxCornerLeads();
    case Categories => SingleLeads();
  }

  /** No two parameters share a name. */
  lemma NameInjective(a: Key, b: Key)
    ensures Name(a) == Name(b) ==> a == b
  {
    match a
    case Text =>
    case ApiKey =>
    case Sources =>
    case Size =>
    case FocusPointLat =>
    case FocusPointLon =>
    case BoundaryMinLat =>
    case BoundaryMinLon =>
    case BoundaryMaxLat =>
    case BoundaryMaxLon =>
    case Categories =>
  }

  lemma IndexOfAt(a: string, c: char, b: string)
    requires c !in a
    ensures IndexOf(a + [c] + b, c) == |a|
  {
    if a != [] {
      assert (a + [c] + b)[1..] == a[1..] + [c] + b;
      IndexOfAt(a[1..], c, b);
    }
  }

  lemma IndexOfAbsent(s: string, c: char)
    requires c !in s
    ensures IndexOf(s, c) == |s|
  {
  }

  /** Splitting at a separator that no part contains gives the parts back. */
  lemma {:induction false} SplitJoin(parts: seq<string>, sep: char)
    requires |parts| > 0
    requires forall i :: 0 <= i < |parts| ==> sep !in parts[i]
    ensures Split(Join(parts, sep), sep) == parts
    decreases |parts|
  {
    if |parts| == 1 {
      IndexOfAbsent(parts[0], sep);
    } else {
      var rest := Join(parts[1..], sep);
      var s := parts[0] + [sep] + rest;
      calc {
        Split(Join(parts, sep), sep);
        Split(s, sep);
        { IndexOfAt(parts[0], sep, rest);
          assert s[..|parts[0]|] == parts[0];
          assert s[|parts[0]| + 1..] == rest; }
        [parts[0]] + Split(rest, sep);
        { SplitJoin(parts[1..], sep); }
        [parts[0]] + parts[1..];
        parts;
      }
    }
  }

  lemma {:induction false} JoinSnoc(parts: seq<string>, x: string, sep: char)
    requires |parts| > 0
    ensures Join(parts + [x], sep) == Join(parts, sep) + [sep] + x
    decreases |parts|
  {
    if |parts| > 1 {
      assert (parts + [x])[1..] == parts[1..] + [x];
      JoinSnoc(parts[1..], x, sep);
    }
  }

  lemma ParseField(x: Param)
    ensures ParsePair(Field(x)) == Pair(Name(x.key), x.value)
  {
    NameClean(x.key);
    IndexOfAt(Name(x.key), '=', x.value);
    var f := Name(x.key) + "=" + x.value;
    assert f == Name(x.key) + ['='] + x.value;
    assert f[..|Name(x.key)|] == Name(x.key);
    assert f[|Name(x.key)| + 1..] == x.value;
  }

  lemma {:induction false} ParseFields(ps: seq<Param>)
    ensures ParsePairs(Fields(ps)) == Named(ps)
    decreases |ps|
  {
    if ps != [] {
      ParseField(ps[0]);
      assert Fields(ps)[1..] == Fields(ps[1..]);
      ParseFields(ps[1..]);
    }
  }

  /** A non-empty parameter list whose values hold no `&` reads back from its query string unchanged. */
  lemma ParseQueryString(ps: seq<Param>)
    requires |ps| > 0
    requires forall x :: x in ps ==> '&' !in x.value
    ensures ParsePairs(Split(QueryString(ps), '&')) == Named(ps)
  {
    var fs := Fields(ps);
    forall i | 0 <= i < |fs| ensures '&' !in fs[i] {
      NameClean(ps[i].key);
      assert ps[i] in ps;
      assert fs[i] == Name(ps[i].key) + "=" + ps[i].value;
    }
    SplitJoin(fs, '&');
    ParseFields(ps);
  }

  lemma Regroup<T>(a: seq<T>, b: seq<T>, c: seq<T>, d: seq<T>)
    ensures a + b + c + d == a + (b + c + d)
  {
  }

  lemma SplitLast<T>(a: seq<T>, b: seq<T>)
    requires |b| > 0
    ensures a + b == (a + b[..|b| - 1]) + [b[|b| - 1]]
  {
  }

  lemma PrefixExtend<T>(a: seq<T>, b: seq<T>, c: seq<T>)
    requires a <= b
    ensures a <= b + c
  {
  }

  lemma PrefixShorten<T>(a: seq<T>, b: seq<T>, c: seq<T>, u: seq<T>)
    requires a + b + c <= u
    ensures a <= u
  {
    assert a + b + c == a + (b + c);
  }

  /** Appending one parameter appends its lead and its value. */
  lemma EmitSnoc(base: string, ps: seq<Param>, x: Param)
    ensures Emit(base, ps + [x]) == Emit(base, ps) + Lead(x.key) + x.value
  {
    assert (ps + [x])[..|ps|] == ps;
  }

  lemma EmitText(base: string, x: Param)
    requires x.key == Text
    ensures Emit(base, [x]) == base + "?" + QueryString([x])
  {
    EmitSnoc(base, [], x);
    assert [] + [x] == [x];
    assert Fields([x]) == [Field(x)];
    RequiredLeads();
  }

  /** The base is a plain prefix: what follows it does not depend on it. */
  lemma {:induction false} EmitBase(base: string, ps: seq<Param>)
    ensures Emit(base, ps) == base + Emit([], ps)
    decreases |ps|
  {
    if ps == [] {
      assert base + [] == base;
    } else {
      var init, x := ps[..|ps| - 1], ps[|ps| - 1];
      EmitBase(base, init);
      Regroup(base, Emit([], init), Lead(x.key), x.value);
    }
  }

  lemma BaseStep(p: Params, text: string)
    ensures Base(p, text) == Emit(p.endpoint, [Param(Text, text), Param(ApiKey, Show(p.apiKey))])
  {
    var t, k := Param(Text, text), Param(ApiKey, Show(p.apiKey));
    EmitSnoc(p.endpoint, [], t);
    assert [] + [t] == [t];
    EmitSnoc(p.endpoint, [t], k);
    assert [t] + [k] == [t, k];
  }

  lemma SourcesStep(base: string, ps: seq<Param>, p: Params)
    ensures WithSources(Emit(base, ps), p) == Emit(base, ps + SourcesGroup(p))
  {
    if p.sources.Some? {
      EmitSnoc(base, ps, Param(Sources, p.sources.value));
    } else {
      assert ps + SourcesGroup(p) == ps;
    }
  }

  lemma SizeStep(base: string, ps: seq<Param>, p: Params)
    ensures WithSize(Emit(base, ps), p) == Emit(base, ps + SizeGroup(p))
  {
    if p.size.Some? {
      EmitSnoc(base, ps, Param(Size, IntToString(p.size.value as int)));
    } else {
      assert ps + SizeGroup(p) == ps;
    }
  }

  lemma FocusStep(base: string, ps: seq<Param>, p: Params)
    ensures WithFocus(Emit(base, ps), p) == Emit(base, ps + FocusGroup(p))
  {
    if p.focusPointLat.Some? && p.focusPointLon.Some? {
      var x, y := Param(FocusPointLat, p.focusPointLat.value), Param(FocusPointLon, p.focusPointLon.value);
      EmitSnoc(base, ps, x);
      EmitSnoc(base, ps + [x], y);
      assert ps + [x] + [y] == ps + FocusGroup(p);
    } else {
      assert ps + FocusGroup(p) == ps;
    }
  }

  lemma BoundaryStep(base: string, ps: seq<Param>, p: Params)
    ensures WithBoundary(Emit(base, ps), p) == Emit(base, ps + BoundaryGroup(p))
  {
    if p.boundaryMinLat.Some? {
      var w, x := Param(BoundaryMinLat, p.boundaryMinLat.value), Param(BoundaryMinLon, Show(p.boundaryMinLon));
      var y, z := Param(BoundaryMaxLat, Show(p.boundaryMaxLat)), Param(BoundaryMaxLon, Show(p.boundaryMaxLon));
      EmitSnoc(base, ps, w);
      EmitSnoc(base, ps + [w], x);
      EmitSnoc(base, ps + [w] + [x], y);
      EmitSnoc(base, ps + [w] + [x] + [y], z);
      assert ps + [w] + [x] + [y] + [z] == ps + BoundaryGroup(p);
    } else {
      assert ps + BoundaryGroup(p) == ps;
    }
  }

  lemma CategoriesStep(base: string, ps: seq<Param>, p: Params)
    ensures WithCategories(Emit(base, ps), p) == Emit(base, ps + CategoriesGroup(p))
  {
    if p.categories.Some? {
      EmitSnoc(base, ps, Param(Categories, p.categories.value));
    } else {
      assert ps + CategoriesGroup(p) == ps;
    }
  }

  /** Appending group after group, as the builder does, emits exactly the parameter list `Pairs`. */
  lemma RenderPairs(p: Params, text: string)
    ensures Render(p, text) == Compose(p, text)
  {
    var e := p.endpoint;
    var req := [Param(Text, text), Param(ApiKey, Show(p.apiKey))];
    var a := req + SourcesGroup(p);
    var b := a + SizeGroup(p);
    var c := b + FocusGroup(p);
    var d := c + BoundaryGroup(p);
    BaseStep(p, text);
    SourcesStep(e, req, p);
    SizeStep(e, a, p);
    FocusStep(e, b, p);
    BoundaryStep(e, c, p);
    CategoriesStep(e, d, p);
    assert Pairs(p, text) == d + CategoriesGroup(p);
  }

  /**
   * A list that starts with the text and holds it nowhere else is emitted as
   * the base, `?` and its query string.
   */
  lemma {:induction false} EmitQuery(base: string, ps: seq<Param>)
    requires |ps| > 0 && ps[0].key == Text
    requires forall i :: 1 <= i < |ps| ==> ps[i].key != Text
    ensures Emit(base, ps) == base + "?" + QueryString(ps)
    decreases |ps|
  {
    if |ps| == 1 {
      EmitText(base, ps[0]);
    } else {
      var init, x := ps[..|ps| - 1], ps[|ps| - 1];
      var lead := "&" + Name(x.key) + "=";
      calc {
        Emit(base, ps);
        { assert ps == init + [x]; EmitSnoc(base, init, x); }
        Emit(base, init) + Lead(x.key) + x.value;
        { EmitQuery(base, init); LeadName(x.key); }
        base + "?" + QueryString(init) + lead + x.value;
        { Regroup(base + "?", QueryString(init), lead, x.value); }
        base + "?" + (QueryString(init) + lead + x.value);
        { assert ps == init + [x]; QueryStringSnoc(init, x); }
        base + "?" + QueryString(ps);
      }
    }
  }

  /**
   * A URL built from settings `p` reads back as the endpoint and exactly the
   * parameters of `Pairs`, in their order, provided the endpoint holds no `?`
   * and no emitted value holds an `&`.
   */
  lemma ParseCompose(p: Params, text: string)
    requires '?' !in p.endpoint
    requires forall x :: x in Pairs(p, text) ==> '&' !in x.value
    ensures ParseUrl(Compose(p, text)) == ParsedUrl(p.endpoint, Named(Pairs(p, text)))
  {
    var ps := Pairs(p, text);
    assert forall i :: 1 <= i < |ps| ==> ps[i].key != Text by {
      PairsCanonical(p, text);
      assert forall i :: 1 <= i < |ps| ==> Rank(ps[0].key) < Rank(ps[i].key);
    }
    EmitQuery(p.endpoint, ps);
    ParseUrlAt(p.endpoint, QueryString(ps));
    ParseQueryString(ps);
  }

  /** A URL splits at the first `?`, which follows a base that holds none. */
  lemma ParseUrlAt(base: string, q: string)
    requires '?' !in base
    ensures ParseUrl(base + "?" + q) == ParsedUrl(base, ParsePairs(Split(q, '&')))
  {
    var url := base + "?" + q;
    IndexOfAt(base, '?', q);
    assert url == base + ['?'] + q;
    assert url[..|base|] == base;
    assert url[|base| + 1..] == q;
  }

  lemma {:induction false} ValuesConcat(a: seq<Param>, b: seq<Param>, k: Key)
    ensures Values(a + b, k) == Values(a, k) + Values(b, k)
    decreases |a|
  {
    if a == [] {
      assert a + b == b;
    } else {
      var head := if a[0].key == k then [a[0].value] else [];
      assert (a + b)[0] == a[0];
      assert (a + b)[1..] == a[1..] + b;
      ValuesConcat(a[1..], b, k);
      calc {
        Values(a + b, k);
        head + Values(a[1..] + b, k);
        head + (Values(a[1..], k) + Values(b, k));
        (head + Values(a[1..], k)) + Values(b, k);
        Values(a, k) + Values(b, k);
      }
    }
  }

  lemma ValuesOne(x: Param, k: Key)
    ensures Values([x], k) == if x.key == k then [x.value] else []
  {
    assert [x][1..] == [];
  }

  lemma ValuesTwo(x: Param, y: Param, k: Key)
    ensures Values([x, y], k) == Values([x], k) + Values([y], k)
  {
    assert [x, y] == [x] + [y];
    ValuesConcat([x], [y], k);
  }

  lemma RequiredValues(p: Params, text: string, k: Key)
    ensures Values([Param(Text, text), Param(ApiKey, Show(p.apiKey))], k) ==
      if k == Text || k == ApiKey then Emitted(p, text, k) else []
  {
    ValuesTwo(Param(Text, text), Param(ApiKey, Show(p.apiKey)), k);
    ValuesOne(Param(Text, text), k);
    ValuesOne(Param(ApiKey, Show(p.apiKey)), k);
  }

  lemma SingleGroupValues(p: Params, text: string, k: Key)
    ensures Values(SourcesGroup(p), k) == if k == Sources then Emitted(p, text, k) else []
    ensures Values(SizeGroup(p), k) == if k == Size then Emitted(p, text, k) else []
    ensures Values(CategoriesGroup(p), k) == if k == Categories then Emitted(p, text, k) else []
  {
    if p.sources.Some? { ValuesOne(Param(Sources, p.sources.value), k); }
    if p.size.Some? { ValuesOne(Param(Size, IntToString(p.size.value as int)), k); }
    if p.categories.Some? { ValuesOne(Param(Categories, p.categories.value), k); }
  }

  lemma FocusValues(p: Params, text: string, k: Key)
    ensures Values(FocusGroup(p), k) ==
      if k == FocusPointLat || k == FocusPointLon then Emitted(p, text, k) else []
  {
    if p.focusPointLat.Some? && p.focusPointLon.Some? {
      var x, y := Param(FocusPointLat, p.focusPointLat.value), Param(FocusPointLon, p.focusPointLon.value);
      ValuesTwo(x, y, k);
      ValuesOne(x, k);
      ValuesOne(y, k);
    }
  }

  lemma BoundaryValues(p: Params, text: string, k: Key)
    ensures Values(BoundaryGroup(p), k) ==
      if k == BoundaryMinLat || k == BoundaryMinLon || k == BoundaryMaxLat || k == BoundaryMaxLon
      then Emitted(p, text, k) else []
  {
    if p.boundaryMinLat.Some? {
      var w, x := Param(BoundaryMinLat, p.boundaryMinLat.value), Param(BoundaryMinLon, Show(p.boundaryMinLon));
      var y, z := Param(BoundaryMaxLat, Show(p.boundaryMaxLat)), Param(BoundaryMaxLon, Show(p.boundaryMaxLon));
      assert BoundaryGroup(p) == [w, x] + [y, z];
      ValuesConcat([w, x], [y, z], k);
      ValuesTwo(w, x, k);
      ValuesTwo(y, z, k);
      ValuesOne(w, k);
      ValuesOne(x, k);
      ValuesOne(y, k);
      ValuesOne(z, k);
    }
  }

  /**
   * Each parameter of the URL occurs exactly when its guard holds, at most
   * once, and with the value the builder holds: sources and size when set,
   * the focus point only when both coordinates are set, all four corners of
   * the boundary rectangle exactly when its minimum latitude is set (an unset
   * corner then shows `null`), and categories when set, even to "".
   */
  lemma PairsValues(p: Params, text: string)
    ensures Values(Pairs(p, text), Text) == [text]
    ensures Values(Pairs(p, text), ApiKey) == [Show(p.apiKey)]
    ensures Values(Pairs(p, text), Sources) == if p.sources.Some? then [p.sources.value] else []
    ensures Values(Pairs(p, text), Size) == if p.size.Some? then [IntToString(p.size.value as int)] else []
    ensures Values(Pairs(p, text), FocusPointLat) ==
      if p.focusPointLat.Some? && p.focusPointLon.Some? then [p.focusPointLat.value] else []
    ensures Values(Pairs(p, text), FocusPointLon) ==
      if p.focusPointLat.Some? && p.focusPointLon.Some? then [p.focusPointLon.value] else []
    ensures Values(Pairs(p, text), BoundaryMinLat) == if p.boundaryMinLat.Some? then [p.boundaryMinLat.value] else []
    ensures Values(Pairs(p, text), BoundaryMinLon) == if p.boundaryMinLat.Some? then [Show(p.boundaryMinLon)] else []
    ensures Values(Pairs(p, text), BoundaryMaxLat) == if p.boundaryMinLat.Some? then [Show(p.boundaryMaxLat)] else []
    ensures Values(Pairs(p, text), BoundaryMaxLon) == if p.boundaryMinLat.Some? then [Show(p.boundaryMaxLon)] else []
    ensures Values(Pairs(p, text), Categories) == if p.categories.Some? then [p.categories.value] else []
  {
    PairsValuesAt(p, text, Text);
    PairsValuesAt(p, text, ApiKey);
    PairsValuesAt(p, text, Sources);
    PairsValuesAt(p, text, Size);
    PairsValuesAt(p, text, FocusPointLat);
    PairsValuesAt(p, text, FocusPointLon);
    PairsValuesAt(p, text, BoundaryMinLat);
    PairsValuesAt(p, text, BoundaryMinLon);
    PairsValuesAt(p, text, BoundaryMaxLat);
    PairsValuesAt(p, text, BoundaryMaxLon);
    PairsValuesAt(p, text, Categories);
  }

  /** The values each parameter takes in the URL, key by key. */
  function Emitted(p: Params, text: string, k: Key): (vs: seq<string>)
  {
    match k
    case Text => [text]
    case ApiKey => [Show(p.apiKey)]
    case Sources => if p.sources.Some? then [p.sources.value] else []
    case Size => if p.size.Some? then [IntToString(p.size.value as int)] else []
    case FocusPointLat => if p.focusPointLat.Some? && p.focusPointLon.Some? then [p.focusPointLat.value] else []
    case FocusPointLon => if p.focusPointLat.Some? && p.focusPointLon.Some? then [p.focusPointLon.value] else []
    case BoundaryMinLat => if p.boundaryMinLat.Some? then [p.boundaryMinLat.value] else []
    case BoundaryMinLon => if p.boundaryMinLat.Some? then [Show(p.boundaryMinLon)] else []
    case BoundaryMaxLat => if p.boundaryMinLat.Some? then [Show(p.boundaryMaxLat)] else []
    case BoundaryMaxLon => if p.boundaryMinLat.Some? then [Show(p.boundaryMaxLon)] else []
    case Categories => if p.categories.Some? then [p.categories.value] else []
  }

  /** The values of a parameter in the whole list, group by group. */
  lemma PairsValuesSum(p: Params, text: string, k: Key)
    ensures Values(Pairs(p, text), k) ==
      Values([Param(Text, text), Param(ApiKey, Show(p.apiKey))], k) + Values(SourcesGroup(p), k)
      + Values(SizeGroup(p), k) + Values(FocusGroup(p), k) + Values(BoundaryGroup(p), k)
      + Values(CategoriesGroup(p), k)
  {
    var req := [Param(Text, text), Param(ApiKey, Show(p.apiKey))];
    var a := req + SourcesGroup(p);
    var b := a + SizeGroup(p);
    var c := b + FocusGroup(p);
    var d := c + BoundaryGroup(p);
    assert Pairs(p, text) == d + CategoriesGroup(p);
    ValuesConcat(d, CategoriesGroup(p), k);
    ValuesConcat(c, BoundaryGroup(p), k);
    ValuesConcat(b, FocusGroup(p), k);
    ValuesConcat(a, SizeGroup(p), k);
    ValuesConcat(req, SourcesGroup(p), k);
  }

  lemma RequiredKeyValues(p: Params, text: string, k: Key)
    requires k == Text || k == ApiKey
    ensures Values(Pairs(p, text), k) == Emitted(p, text, k)
  {
    PairsValuesSum(p, text, k);
    RequiredValues(p, text, k);
    SingleGroupValues(p, text, k);
    FocusValues(p, text, k);
    BoundaryValues(p, text, k);
  }

  lemma SingleKeyValues(p: Params, text: string, k: Key)
    requires k == Sources || k == Size || k == Categories
    ensures Values(Pairs(p, text), k) == Emitted(p, text, k)
  {
    PairsValuesSum(p, text, k);
    RequiredValues(p, text, k);
    SingleGroupValues(p, text, k);
    FocusValues(p, text, k);
    BoundaryValues(p, text, k);
  }

  lemma FocusKeyValues(p: Params, text: string, k: Key)
    requires k == FocusPointLat || k == FocusPointLon
    ensures Values(Pairs(p, text), k) == Emitted(p, text, k)
  {
    PairsValuesSum(p, text, k);
    RequiredValues(p, text, k);
    SingleGroupValues(p, text, k);
    FocusValues(p, text, k);
    BoundaryValues(p, text, k);
  }

  lemma BoundaryKeyValues(p: Params, text: string, k: Key)
    requires k == BoundaryMinLat || k == BoundaryMinLon || k == BoundaryMaxLat || k == BoundaryMaxLon
    ensures Values(Pairs(p, text), k) == Emitted(p, text, k)
  {
    PairsValuesSum(p, text, k);
    RequiredValues(p, text, k);
    SingleGroupValues(p, text, k);
    FocusValues(p, text, k);
    BoundaryValues(p, text, k);
  }

  /** Each parameter occurs in the list with the values `Emitted` gives it. */
  lemma PairsValuesAt(p: Params, text: string, k: Key)
    ensures Values(Pairs(p, text), k) == Emitted(p, text, k)
  {
    match k
    case Text | ApiKey => RequiredKeyValues(p, text, k);
    case Sources | Size | Categories => SingleKeyValues(p, text, k);
    case FocusPointLat | FocusPointLon => FocusKeyValues(p, text, k);
    case BoundaryMinLat | BoundaryMinLon | BoundaryMaxLat | BoundaryMaxLon => BoundaryKeyValues(p, text, k);
  }

  predicate RanksBelow(ps: seq<Param>, bound: nat)
  {
    forall i :: 0 <= i < |ps| ==> Rank(ps[i].key) < bound
  }

  predicate RanksFrom(ps: seq<Param>, bound: nat)
  {
    forall i :: 0 <= i < |ps| ==> bound <= Rank(ps[i].key)
  }

  lemma CanonicalConcat(a: seq<Param>, b: seq<Param>, bound: nat)
    requires Canonical(a) && Canonical(b)
    requires RanksBelow(a, bound) && RanksFrom(b, bound)
    ensures Canonical(a + b)
  {
    var ab := a + b;
    forall i, j | 0 <= i < j < |ab| ensures Rank(ab[i].key) < Rank(ab[j].key) {
      if j < |a| {
        assert ab[i] == a[i] && ab[j] == a[j];
      } else if i >= |a| {
        assert ab[i] == b[i - |a|] && ab[j] == b[j - |a|];
      } else {
        assert ab[i] == a[i] && ab[j] == b[j - |a|];
      }
    }
  }

  /** The keys of `g` are in order, and they rank from `lo` up to below `hi`. */
  predicate Within(g: seq<Param>, lo: nat, hi: nat)
  {
    Canonical(g) && RanksFrom(g, lo) && RanksBelow(g, hi)
  }

  lemma SingleGroupsWithin(p: Params)
    ensures Within(SourcesGroup(p), 2, 3)
    ensures Within(SizeGroup(p), 3, 4)
    ensures Within(CategoriesGroup(p), 10, 11)
  {
  }

  lemma FocusWithin(p: Params)
    ensures Within(FocusGroup(p), 4, 6)
  {
  }

  lemma BoundaryWithin(p: Params)
    ensures Within(BoundaryGroup(p), 6, 10)
  {
  }

  /** An ordered prefix followed by a group ranked above it is still ordered. */
  lemma CanonicalStep(a: seq<Param>, g: seq<Param>, lo: nat, hi: nat)
    requires Canonical(a) && RanksBelow(a, lo)
    requires Within(g, lo, hi) && lo <= hi
    ensures Canonical(a + g) && RanksBelow(a + g, hi)
  {
    CanonicalConcat(a, g, lo);
    var ag := a + g;
    forall i | 0 <= i < |ag| ensures Rank(ag[i].key) < hi {
      if i < |a| {
        assert ag[i] == a[i];
      } else {
        assert ag[i] == g[i - |a|];
      }
    }
  }

  /** The parameters appear in the fixed order text, api_key, sources, size, focus, boundary, categories. */
  lemma PairsCanonical(p: Params, text: string)
    ensures Canonical(Pairs(p, text))
  {
    var req := [Param(Text, text), Param(ApiKey, Show(p.apiKey))];
    var a := req + SourcesGroup(p);
    var b := a + SizeGroup(p);
    var c := b + FocusGroup(p);
    var d := c + BoundaryGroup(p);
    SingleGroupsWithin(p);
    FocusWithin(p);
    BoundaryWithin(p);
    CanonicalStep(req, SourcesGroup(p), 2, 3);
    CanonicalStep(a, SizeGroup(p), 3, 4);
    CanonicalStep(b, FocusGroup(p), 4, 6);
    CanonicalStep(c, BoundaryGroup(p), 6, 10);
    CanonicalStep(d, CategoriesGroup(p), 10, 11);
    assert Pairs(p, text) == d + CategoriesGroup(p);
  }

  /** Appending one more field to a non-empty query string puts `&name=value` at its end. */
  lemma QueryStringSnoc(ps: seq<Param>, x: Param)
    requires |ps| > 0
    ensures QueryString(ps + [x]) == QueryString(ps) + ("&" + Name(x.key) + "=") + x.value
  {
    assert Fields(ps + [x]) == Fields(ps) + [Field(x)];
    JoinSnoc(Fields(ps), Field(x), '&');
  }

  lemma {:induction false} InValues(ps: seq<Param>, x: Param)
    requires x in ps
    ensures x.value in Values(ps, x.key)
    decreases |ps|
  {
    if ps[0] != x {
      InValues(ps[1..], x);
    }
  }

  /** Emitting more parameters only extends the text emitted so far. */
  lemma {:induction false} EmitPrefix(base: string, ps: seq<Param>, qs: seq<Param>)
    ensures Emit(base, ps) <= Emit(base, ps + qs)
    decreases |qs|
  {
    if qs == [] {
      assert ps + qs == ps;
    } else {
      var init, x := qs[..|qs| - 1], qs[|qs| - 1];
      EmitPrefix(base, ps, init);
      SplitLast(ps, qs);
      EmitSnoc(base, ps + init, x);
      PrefixExtend(Emit(base, ps), Emit(base, ps + init), Lead(x.key) + x.value);
    }
  }

  /** The URL opens with the endpoint, then the text and the API key, in that order. */
  lemma ComposePrefix(p: Params, text: string)
    ensures p.endpoint + "?text=" + text + "&api_key=" + Show(p.apiKey) <= Compose(p, text)
  {
    var t, k := Param(Text, text), Param(ApiKey, Show(p.apiKey));
    EmitSnoc(p.endpoint, [], t);
    assert [] + [t] == [t];
    EmitSnoc(p.endpoint, [t], k);
    assert [t] + [k] == [t, k];
    var ps := Pairs(p, text);
    EmitPrefix(p.endpoint, [t, k], ps[2..]);
    assert [t, k] + ps[2..] == ps;
  }

  /** Emitting a list in two parts: what the second part adds does not depend on what precedes it. */
  lemma {:induction false} EmitAppend(base: string, ps: seq<Param>, qs: seq<Param>)
    ensures Emit(base, ps + qs) == Emit(base, ps) + Emit([], qs)
    decreases |qs|
  {
    if qs == [] {
      assert ps + qs == ps;
    } else {
      var init, x := qs[..|qs| - 1], qs[|qs| - 1];
      EmitAppend(base, ps, init);
      SplitLast(ps, qs);
      EmitSnoc(base, ps + init, x);
      Regroup(Emit(base, ps), Emit([], init), Lead(x.key), x.value);
    }
  }

  lemma Cancel(x: string, a: string, b: string, y: string)
    requires x + a + y == x + b + y
    ensures a == b
  {
    assert |a| == |b|;
    assert (x + a + y)[|x|..|x| + |a|] == a;
    assert (x + b + y)[|x|..|x| + |b|] == b;
  }

  /** The parameters after the text, which do not depend on it. */
  function AfterText(p: Params): (ps: seq<Param>)
  {
    [Param(ApiKey, Show(p.apiKey))]
      + SourcesGroup(p) + SizeGroup(p) + FocusGroup(p) + BoundaryGroup(p) + CategoriesGroup(p)
  }

  lemma RegroupHead<T>(x: T, y: T, a: seq<T>, b: seq<T>, c: seq<T>, d: seq<T>, e: seq<T>)
    ensures [x, y] + a + b + c + d + e == [x] + ([y] + a + b + c + d + e)
  {
    assert [x, y] == [x] + [y];
  }

  lemma ComposeSplit(p: Params, text: string)
    ensures Compose(p, text) == p.endpoint + "?text=" + text + Emit([], AfterText(p))
  {
    var t := Param(Text, text);
    calc {
      Compose(p, text);
      { RegroupHead(t, Param(ApiKey, Show(p.apiKey)), SourcesGroup(p), SizeGroup(p),
                    FocusGroup(p), BoundaryGroup(p), CategoriesGroup(p)); }
      Emit(p.endpoint, [t] + AfterText(p));
      { EmitAppend(p.endpoint, [t], AfterText(p)); }
      Emit(p.endpoint, [t]) + Emit([], AfterText(p));
      { EmitSnoc(p.endpoint, [], t); assert [] + [t] == [t]; }
      p.endpoint + "?text=" + text + Emit([], AfterText(p));
    }
  }

  /**
   * Two URLs for the same settings are equal exactly when their query texts
   * are: the text sits between `?text=` and a remainder that does not depend on it.
   */
  lemma ComposeText(p: Params, a: string, b: string)
    ensures Compose(p, a) == Compose(p, b) <==> a == b
  {
    ComposeSplit(p, a);
    ComposeSplit(p, b);
    if Compose(p, a) == Compose(p, b) {
      Cancel(p.endpoint + "?text=", a, b, Emit([], AfterText(p)));
    }
  }
}
