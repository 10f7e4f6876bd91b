# Pelias request URL builder, modelled in Dafny

The Pelias client library builds each geocoding request with a builder object.
The caller creates a builder with an API key and the text to look up, then calls
setters for the optional parameters. `build()` appends everything to a
`StringBuilder` in a fixed order:

- the endpoint, `?text=` and the text;
- `&api_key=` and the key;
- the sources;
- the size;
- the focus point, only when both of its coordinates are set;
- the four corners of the boundary rectangle, all four whenever the minimum latitude is set;
- the categories.

`SearchRequest.Builder` points the builder at the search endpoint.
`AutocompleteRequest.Builder` points it at the autocomplete endpoint, and its
`setSize` always throws. An older copy of the builder, in the `edu.cutr.pelias`
package, has a fixed endpoint, no categories and no text encoding.

The text is form-encoded as `URLEncoder.encode(text, "UTF-8")` does it, which is the
`application/x-www-form-urlencoded` serializer of section 5.2 of the WHATWG URL
Standard. ASCII letters, digits and `*-._` are kept, a space becomes `+`, and every
other character becomes `%XX` for each byte of its UTF-8 encoding (section 3 of
RFC 3629), with upper-case hex digits. The tests fix only that letters stay as they
are and that a space becomes `+`. The kept set `*-._`, the `%XX` escapes and UTF-8
are those of the standard `URLEncoder`; no file of the repository spells them out.
The other values are appended as they are.
Java appends a `null` string as `null`. Both builders do this with the API key, and
the `edu.cutr.pelias` builder also does it with the text.

The project is organised as follows.

- `wrappers.dfy`: `Option` and `Result`.
- `strings.dfy`:
  - how Java appends a `null` string;
  - `Integer.toString`, with its inverse.
- `form_encoding.dfy`: the form encoding of the text, UTF-8 included, and a decoder that undoes it.
- `query.dfy`:
  - the settings a builder holds (`Params`);
  - the reference list of parameters those settings put into the URL (`Pairs`), with the values each key gets and their fixed order;
  - `Render`: the URL built group by group, as `build()` appends it;
  - `Emit`/`Compose`: the URL of a parameter list;
  - a reader that splits a URL back into its base and its `name=value` pairs.
- `pelias_request.dfy`: the `edu.usf.cutr.pelias` builder as a class. One `Builder` has a `kind` for Java's three builder classes and one constructor for each. It has setters with frame conditions, and `Build`, proved equal to `Url(Settings())`.
- `cutr_request.dfy`: the `edu.cutr.pelias` builder. It is compared with the other builder.
- `search_request.dfy` and `autocomplete_request.dfy`: the request scenarios of the two test classes, and the autocomplete builder's guarantee that its URL has no size.

The method and the function it is proved against are kept apart. `Build` appends
step by step and promises `url == Url(Settings())`. The meaning of `Url` is proved
as lemmas:

- `Query.RenderPairs`: the group-by-group appends emit exactly `Pairs`.
- `Query.PairsValues`: which keys `Pairs` holds and with which values.
- `Query.PairsCanonical`: the order of those keys.
- `PeliasRequest.UrlParameters`: reading the URL back gives the endpoint and exactly `Pairs`.

The source of the `edu.usf.cutr.pelias` builder is internally inconsistent:

- `src/main/java/edu/usf/cutr/pelias/PeliasRequest.java` hardcodes the search URL (line 138) and appends the text raw (line 139). It has no endpoint field.
- The subclasses assign an `mApiEndPoint` field (`SearchRequest.java:34`, `AutocompleteRequest.java:34`).
- The tests call `setApiEndpoint` and `setCategories` and expect a space in the text to come out as `+`.

`PeliasRequest.Builder` follows the subclasses and the tests:

- an `endpoint` field, which each constructor sets and `SetApiEndpoint` overwrites;
- `categories` as the last optional parameter;
- the text form-encoded.

`CutrRequest.Builder` models the append sequence exactly as both `build()` methods
are written (fixed endpoint, raw text). `CutrRequest.AgreesWithUsfBuilder` states
where the two differ.

## Model

| member | source | states |
|---|---|---|
| PeliasRequest.Builder.constructor | src/main/java/edu/usf/cutr/pelias/PeliasRequest.java:58-61 | stores the key (`null` allowed) and the text, leaves every optional field unset, endpoint is the search URL |
| PeliasRequest.Builder.Search | src/main/java/edu/usf/cutr/pelias/SearchRequest.java:31-35 | the base builder with the search endpoint `https://search.mapzen.com/v1/search` |
| PeliasRequest.Builder.Autocomplete | src/main/java/edu/usf/cutr/pelias/AutocompleteRequest.java:31-35 | the base builder with the endpoint `https://search.mapzen.com/v1/autocomplete` |
| PeliasRequest.Builder.SetSources | src/main/java/edu/usf/cutr/pelias/PeliasRequest.java:84-87 | only the sources change, the same builder is returned |
| PeliasRequest.Builder.SetFocusPoint | src/main/java/edu/usf/cutr/pelias/PeliasRequest.java:100-104 | both coordinates are written (null included), nothing else changes, returns the builder |
| PeliasRequest.Builder.SetBoundaryRect | src/main/java/edu/usf/cutr/pelias/PeliasRequest.java:114-120 | all four corners are written, nothing else changes, returns the builder |
| PeliasRequest.Builder.SetSize | src/main/java/edu/usf/cutr/pelias/AutocompleteRequest.java:43-45 | autocomplete: fails with UnsupportedOperation and the exact message for every argument, null included, and changes nothing; otherwise only the size changes and the builder is returned |
| PeliasRequest.Builder.SetApiEndpoint | src/test/java/edu/usf/cutr/pelias/AutocompleteTest.java:246-247 | only the endpoint changes, returns the builder |
| PeliasRequest.Builder.SetCategories | src/test/java/edu/usf/cutr/pelias/AutocompleteTest.java:246-252 | only the categories change, returns the builder |
| PeliasRequest.Builder.Build | src/main/java/edu/usf/cutr/pelias/PeliasRequest.java:136-172 | the URL is `Url` of the current settings; reads the builder without changing it, so building twice gives the same URL |
| PeliasRequest.UrlPrefix | src/main/java/edu/usf/cutr/pelias/PeliasRequest.java:137-141 | every URL starts with endpoint, `?text=`, the encoded text, `&api_key=`, the key (`null` for a null key) |
| PeliasRequest.UrlParameters | src/main/java/edu/usf/cutr/pelias/PeliasRequest.java:136-172 | when the endpoint holds no `?` and no value appended as it is (key, sources, coordinates, categories) holds `&`, the URL reads back as the endpoint and exactly the parameters of `Pairs`, by name and in order; the encoded text never needs the condition |
| PeliasRequest.EndpointOnlyChangesBase | src/test/java/edu/usf/cutr/pelias/AutocompleteTest.java:46-53 | another endpoint changes only the part before `?` |
| Query.PairsValues | src/main/java/edu/usf/cutr/pelias/PeliasRequest.java:137-169 | text and key occur once, a null key as `null`. Sources, size and categories occur iff set. The focus point occurs iff both coordinates are set. All four corners occur iff min_lat is set, with unset corners as `null`. Each value is the one the builder holds |
| Query.PairsCanonical | src/main/java/edu/usf/cutr/pelias/PeliasRequest.java:137-169 | keys appear in strictly increasing fixed order: text, api_key, sources, size, focus, boundary, categories |
| Query.RenderPairs | src/main/java/edu/usf/cutr/pelias/PeliasRequest.java:137-169 | appending group after group under their guards emits exactly the parameter list `Pairs` |
| Query.ParseCompose | src/main/java/edu/usf/cutr/pelias/PeliasRequest.java:137-169 | when the endpoint holds no `?` and no emitted value holds `&`, the emitted URL splits back at `?`, `&` and `=` into the endpoint and the named parameters |
| Query.ComposePrefix | src/main/java/edu/usf/cutr/pelias/PeliasRequest.java:137-141 | the URL of any parameter list of a builder opens with endpoint, text and key |
| FormEncoding.FormEncode | src/test/java/edu/usf/cutr/pelias/SearchTest.java:198-211 | the encoded text is at least as long as the text, holds no space, `&` or `=`, and only kept characters, `+` and `%` |
| FormEncoding.Utf8RoundTrip | src/test/java/edu/usf/cutr/pelias/SearchTest.java:198-211 | the UTF-8 bytes of a character announce their own length in the first byte and decode back to that character |
| FormEncoding.FormRoundTrip | src/test/java/edu/usf/cutr/pelias/SearchTest.java:198-211 | decoding undoes the encoding for every text, `+`, `%` and non-ASCII characters included |
| FormEncoding.FormEncodeIdentity | src/test/java/edu/usf/cutr/pelias/SearchTest.java:43-49 | encoding leaves the text unchanged exactly when every character is an ASCII letter, digit or one of `*-._` |
| FormEncoding.FormEncodeTwoWords | src/test/java/edu/usf/cutr/pelias/SearchTest.java:198-211 | two words of kept characters around a space come out joined by `+` |
| Query.ComposeText | src/main/java/edu/usf/cutr/pelias/PeliasRequest.java:137-141 | with the other settings fixed, two texts give the same URL exactly when they are equal |
| Strings.IntToStringRoundTrip | src/main/java/edu/usf/cutr/pelias/PeliasRequest.java:148-151 | the rendered size parses back to the same number, is a sign and digits, and holds no `&` or `=` |
| Strings.IntToStringExample | src/test/java/edu/usf/cutr/pelias/SearchTest.java:186-191 | the size 35 is rendered `35` |
| CutrRequest.Builder.constructor | src/main/java/edu/cutr/pelias/PeliasRequest.java:56-59 | stores key and text only, either possibly `null` |
| CutrRequest.Builder.SetSources | src/main/java/edu/cutr/pelias/PeliasRequest.java:61-64 | only the sources change, returns the builder |
| CutrRequest.Builder.SetFocusPoint | src/main/java/edu/cutr/pelias/PeliasRequest.java:65-69 | both coordinates are written, returns the builder |
| CutrRequest.Builder.SetBoundaryRect | src/main/java/edu/cutr/pelias/PeliasRequest.java:70-76 | all four corners are written, returns the builder |
| CutrRequest.Builder.SetSize | src/main/java/edu/cutr/pelias/PeliasRequest.java:77-80 | only the size changes, returns the builder |
| CutrRequest.Builder.Build | src/main/java/edu/cutr/pelias/PeliasRequest.java:82-118 | the URL is the fixed endpoint with the raw text (`null` for a null text) and the parameters of `Pairs`; changes nothing |
| CutrRequest.UrlPrefix | src/main/java/edu/cutr/pelias/PeliasRequest.java:83-87 | every URL starts with the search endpoint the usf builder shares, `?text=`, the raw text, `&api_key=`, the key |
| CutrRequest.AgreesWithUsfBuilder | src/main/java/edu/cutr/pelias/PeliasRequest.java:82-118 | for equal fields, search endpoint and no categories, the two builders give the same URL iff every character of the text is an ASCII letter, digit or one of `*-._`, so that encoding leaves it unchanged |
| CutrRequest.SpaceKept | src/main/java/edu/cutr/pelias/PeliasRequest.java:84-85 | a space in the text stays a space in the URL |
| SearchRequest.SizeAccepted | src/main/java/edu/usf/cutr/pelias/SearchRequest.java:23-36 | on a new search builder `setSize` succeeds for any size, and the built URL carries exactly one `size` parameter, the size's decimal rendering |
| SearchRequest.SimpleSearch | src/test/java/edu/usf/cutr/pelias/SearchTest.java:43-45 | the test's builder chain yields the URL of key, text and endpoint alone |
| SearchRequest.SimpleSearchUrl | src/test/java/edu/usf/cutr/pelias/SearchTest.java:47-49 | that URL is exactly endpoint `?text=subway&api_key=dummyApiKey` |
| SearchRequest.SearchWithFocus | src/test/java/edu/usf/cutr/pelias/SearchTest.java:104-107 | the test's chain yields the URL of those settings plus a focus point |
| SearchRequest.SearchWithFocusUrl | src/test/java/edu/usf/cutr/pelias/SearchTest.java:109-111 | only the two focus keys follow the key, with the test's values |
| SearchRequest.RequestParameters | src/test/java/edu/usf/cutr/pelias/SearchTest.java:182-188 | the test's chain, size included, yields the URL of every search parameter set |
| SearchRequest.RequestParametersUrl | src/test/java/edu/usf/cutr/pelias/SearchTest.java:190-195 | that URL is exactly the test's string, size after sources |
| SearchRequest.SpaceInText | src/test/java/edu/usf/cutr/pelias/SearchTest.java:198-204 | the same chain for "burger king" |
| SearchRequest.SpaceInTextUrl | src/test/java/edu/usf/cutr/pelias/SearchTest.java:206-211 | the text goes out as `burger+king`, the rest as before |
| AutocompleteRequest.NoSizeParameter | src/main/java/edu/usf/cutr/pelias/AutocompleteRequest.java:43-45 | for settings with no size whose endpoint holds no `?` and whose raw values hold no `&` (as in `UrlParameters`), no parameter read back from the URL is named `size` |
| AutocompleteRequest.BuildWithoutSize | src/main/java/edu/usf/cutr/pelias/AutocompleteRequest.java:43-45 | any autocomplete builder, in whatever state its setters left it, builds a URL whose parameter list has no `size`; read back under the conditions of `UrlParameters`, no parameter is named `size` |
| AutocompleteRequest.SizeRejected | src/main/java/edu/usf/cutr/pelias/AutocompleteRequest.java:43-45 | on a new autocomplete builder `setSize` fails for any argument and the built URL is the one without a size |
| AutocompleteRequest.AutocompleteWithFocus | src/test/java/edu/usf/cutr/pelias/AutocompleteTest.java:46-49 | a search builder given the autocomplete endpoint and a focus point yields the URL of those settings |
| AutocompleteRequest.AutocompleteWithFocusUrl | src/test/java/edu/usf/cutr/pelias/AutocompleteTest.java:51-53 | that URL is exactly the test's string, with `union+square` |
| AutocompleteRequest.RequestParameters | src/test/java/edu/usf/cutr/pelias/AutocompleteTest.java:246-252 | the test's chain, categories set to "", yields the URL of those settings |
| AutocompleteRequest.RequestParametersUrl | src/test/java/edu/usf/cutr/pelias/AutocompleteTest.java:254-260 | the URL ends with `&categories=` and has no size |
| AutocompleteRequest.SpaceInText | src/test/java/edu/usf/cutr/pelias/AutocompleteTest.java:263-268 | the same chain for "burger king" without categories |
| AutocompleteRequest.SpaceInTextUrl | src/test/java/edu/usf/cutr/pelias/AutocompleteTest.java:270-275 | no categories key, and the text goes out as `burger+king` |

## Left out

- HTTP transport in `call()`: opening the connection, reading the stream and closing it. This is network I/O.
- The `main` demo methods. They do console and network I/O.
- `new URL(url)` and its swallowed `MalformedURLException`: `java.net.URL` is not part of this model. The built string is the result.
- Jackson's `ObjectMapper`/`ObjectReader`, the static `setFailOnUnknownProperties` toggle, and the response classes (`PeliasResponse`, the `model` packages). They hold only accessors and are filled by a foreign decoder.
- `Double` to string rendering of the focus coordinates. Coordinates are already-rendered strings, and so are the boundary corners, which the tests pass as numbers.
- The decoded-value assertions of the tests. They are float comparisons against remote files.
- A `null` text in the usf builder. `URLEncoder.encode` throws on a `null` argument, so the text there is a non-null string. A `null` key, and a `null` text in the `edu.cutr.pelias` builder, are modelled: they are appended as `null`.
- The fallback to the raw text when the encoder reports an unsupported character set. UTF-8 is always supported, so that path is unreachable.
- Texts holding an unpaired UTF-16 surrogate. Dafny characters are Unicode scalar values, so such a text cannot be written here.
- FormEncoding.FormDecode: it exists as the inverse the round trip is stated against. It does not reject overlong UTF-8 forms, which no encoder output contains.
- PeliasRequest.UrlParameters: the read-back holds only when the endpoint contains no `?` and no value appended as it is (key, sources, coordinates, categories) contains `&`. Only the text is escaped, so other inputs produce a URL that does not read back to its settings.
- The Java subclass relation is a `kind` field on one class. Dynamic dispatch of `setSize` is the branch on `kind`.
- The endpoint field, `setApiEndpoint`, `setCategories` and the text encoding of the usf builder come from the subclasses and the tests. `src/main/java/edu/usf/cutr/pelias/PeliasRequest.java` itself has none of them; for the encoding, the tests fix only letters and the space, and the rest follows the standard `URLEncoder`.

## Findings

| source | as written | input that shows it | evidently intended | confidence | as-written member | corrected member |
|---|---|---|---|---|---|---|
| src/main/java/edu/usf/cutr/pelias/PeliasRequest.java:138-139 | `build()` appends the hardcoded search URL and the raw text, ignoring the endpoint the subclasses set | text "burger king": the URL holds `text=burger king`, where SearchTest.java:206-211 expects `text=burger+king` | the builder's endpoint, then the form-encoded text | not executed | CutrRequest.AgreesWithUsfBuilder (with CutrRequest.SpaceKept), on CutrRequest.Builder.Build, whose appends are those of the usf `build()` as written | PeliasRequest.Builder.Build with SearchRequest.SpaceInTextUrl |
