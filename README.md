# java-steamgriddb in Dafny

A model of the core of the SteamGridDB Java client, with its properties proved.
The client is a thin wrapper over the SteamGridDB v2 REST API. It covers three parts:

- **The connection manager.** It holds the base URI and the API key. It builds every request as base URI + path with a bearer `Authorization` header. It turns a transport failure into the fallback object `{ "success": "false", "status": 0 }`. It also encodes uploads as a `multipart/form-data` body (section 4 of RFC 7578, with the delimiter grammar of section 5.1.1 of RFC 2046).
- **`Grid`.** This part covers:
  - the style names and the styles query;
  - the endpoint of each id type;
  - the grids read from a `getGridsById` reply;
  - the upload field map;
  - the vote and delete calls.
- **`Game`.** It has the endpoint of each id type, and the constructor that fills `id`, `name` and `types` from a lookup.

The network is a parameter `net: Request -> Exchange`: what comes back for the request sent. A reply arrives already parsed into the `Json` datatype. The org.json accessors (`getBoolean`, `getInt`, `getString`, `getJSONArray`, …) are functions that return the `JSONException` they would throw as `Err`. Every exception that escapes a Java method is an `Err` or a `Fail` of the corresponding model member, except the kinds listed under "## Left out": the unchecked exceptions thrown while a request is built, and the NullPointerException of a null argument.

Modules:

| module | file | contents |
|---|---|---|
| `Wrappers` | wrappers.dfy | `Option`, `Result`, `Outcome`, the exceptions, and `CollectAll`, the loop that appends `f(0) … f(n-1)` until one throws |
| `Utf8` | utf8.dfy | `String.getBytes(UTF_8)` and its inverse |
| `Numerals` | numerals.dfy | `String.valueOf(int)` / `BigInteger.toString()`, the 32-bit cut of `intValue()`, powers of ten |
| `Json` | json.dfy | the parsed JSON values and the org.json accessors |
| `Enums` | enums.dfy | `SGDBStyles` and `SGDBIdTypes` |
| `Multipart` | multipart.dfy | the parameter map and `ofMimeMultipartData`, with the RFC 2046 layout and the boundary |
| `Connection` | connection.dfy | `SGDBConnectionManager`: the `ConnectionManager` class (the two static fields) and its verbs |
| `Grids` | grid.dfy | `Grid` |
| `Games` | game.dfy | `Game` |

## Model

| member | source | states |
|---|---|---|
| Connection.ConnectionManager.constructor | src/main/java/com/steamgriddb/Connection/SGDBConnectionManager.java:32-33 | the base URI starts as `https://www.steamgriddb.com/API/v2/` and the key as empty |
| Connection.ConnectionManager.SetApiUri | src/main/java/com/steamgriddb/Connection/SGDBConnectionManager.java:192-194 | the URI is stored exactly as given, with no slash added; the key is unchanged |
| Connection.ConnectionManager.SetAuthKey | src/main/java/com/steamgriddb/Connection/SGDBConnectionManager.java:210-212 | the key is stored as given; the URI is unchanged |
| Connection.ConnectionManager.Initialize | src/main/java/com/steamgriddb/Connection/SGDBConnectionManager.java:220-226 | an empty URI throws before anything is stored; otherwise the stored URI is the given one with a '/' appended when missing, it ends with '/', and the key is the given one |
| Connection.WithTrailingSlashSpec | src/main/java/com/steamgriddb/Connection/SGDBConnectionManager.java:221-224 | the stored URI ends with '/', extends the given one by at most that '/', equals it iff it already ended with '/', and normalising twice changes nothing |
| Connection.ConnectionManager.PlainRequest | src/main/java/com/steamgriddb/Connection/SGDBConnectionManager.java:46-50 | the request URI starts with the base URI and continues with the path exactly; the only header is the bearer header of the current key; the body is empty |
| Connection.ConnectionManager.GetJson | src/main/java/com/steamgriddb/Connection/SGDBConnectionManager.java:41-69 | one GET of base URI + path; a parsed reply is returned whatever its status, an unparsable one throws, a transport failure gives the fallback object; neither setting changes |
| Connection.ConnectionManager.Post | src/main/java/com/steamgriddb/Connection/SGDBConnectionManager.java:78-104 | as `getJSON`, with POST and an empty body |
| Connection.ConnectionManager.Delete | src/main/java/com/steamgriddb/Connection/SGDBConnectionManager.java:150-176 | as `getJSON`, with DELETE |
| Connection.ConnectionManager.PostMultipart | src/main/java/com/steamgriddb/Connection/SGDBConnectionManager.java:114-142 | a file that cannot be read sends nothing and gives the fallback; otherwise one POST to base URI + path with the multipart content type naming the boundary, the bearer header and the encoder's body, and the reply as `ReceiveMultipart` reads it |
| Connection.Fallback | src/main/java/com/steamgriddb/Connection/SGDBConnectionManager.java:64-68 | the fallback object reads as `success` false and `status` 0 through `getBoolean` and `getInt` |
| Connection.Receive | src/main/java/com/steamgriddb/Connection/SGDBConnectionManager.java:52-68 | what `getJSON`, `post` and `delete` return: an exception exactly when the body does not parse, the parsed body whatever the status, and an unsuccessful object after a transport failure |
| Connection.ReceiveMultipart | src/main/java/com/steamgriddb/Connection/SGDBConnectionManager.java:127-136 | what `postMultipart` returns: an exception exactly when the body does not parse or the status is not 200 and the body has no "errors" array; otherwise what `Receive` returns |
| Connection.ReceiveMultipartDiffers | src/main/java/com/steamgriddb/Connection/SGDBConnectionManager.java:130-134 | `postMultipart` differs from the other verbs exactly when the status is not 200 and the body has no "errors" array, which makes it throw |
| Connection.AuthorizationWellFormed | src/main/java/com/steamgriddb/Connection/SGDBConnectionManager.java:49 | the header is named `Authorization`; its value, with the single space the client writes after `Bearer`, is bearer credentials of section 2.1 of RFC 6750 iff the key is a b64token; the key reads back from it |
| Multipart.Put | src/main/java/com/steamgriddb/Grid.java:498-501 | `LinkedHashMap.put` keeps the keys distinct: a new key goes last, and an existing key keeps its place and takes the new value |
| Multipart.Body | src/main/java/com/steamgriddb/Connection/SGDBConnectionManager.java:242-262 | the encoder produces a body iff every file of the map can be read, and otherwise the IOException |
| Multipart.AddEntry | src/main/java/com/steamgriddb/Connection/SGDBConnectionManager.java:246-258 | one turn of the encoder loop appends exactly the bytes of that entry, and fails iff the entry is a file that cannot be read |
| Multipart.PartsStep | src/main/java/com/steamgriddb/Connection/SGDBConnectionManager.java:245-259 | the bytes of the first `i + 1` entries are those of the first `i` followed by those of entry `i` |
| Multipart.OfMimeMultipartData | src/main/java/com/steamgriddb/Connection/SGDBConnectionManager.java:242-262 | the loop's body is the parts of all entries in map order followed by the terminator, or the IOException of the first unreadable file |
| Multipart.PartShape | src/main/java/com/steamgriddb/Connection/SGDBConnectionManager.java:244-258 | a text entry contributes `--b`, CRLF, `Content-Disposition: form-data; name="key"`, a blank line, the value and CRLF; a file entry contributes the name, the file name, the `Content-Type` line, a blank line, the raw bytes and CRLF |
| Multipart.PartsShape | src/main/java/com/steamgriddb/Connection/SGDBConnectionManager.java:244-259 | the parts of a non-empty map are the dash-boundary, CRLF, the first body part, the encapsulations of the others, and a final CRLF |
| Multipart.ConformsToRfc2046 | src/main/java/com/steamgriddb/Connection/SGDBConnectionManager.java:242-262 | the body of a non-empty, readable map is a multipart body of section 5.1.1 of RFC 2046: dash-boundary, body part, `CRLF--b` before each further part, and the close delimiter |
| Multipart.BodyDelimited | src/main/java/com/steamgriddb/Connection/SGDBConnectionManager.java:244-260 | the body starts with `--b` when the map is non-empty, is exactly `--b--` when it is empty, and always ends with `--b--` |
| Multipart.PartsPrefix | src/main/java/com/steamgriddb/Connection/SGDBConnectionManager.java:245-259 | the parts of the first `i` entries are a prefix of the parts of all of them |
| Multipart.PartStartsWithSeparator | src/main/java/com/steamgriddb/Connection/SGDBConnectionManager.java:244-246 | every entry's bytes start with the separator |
| Multipart.SeparatorAt | src/main/java/com/steamgriddb/Connection/SGDBConnectionManager.java:244-246 | for each entry `i`, in map order, a separator starts where the parts of the entries before it end, and these offsets strictly increase |
| Multipart.DigitsBoundaryIffShort | src/main/java/com/steamgriddb/Connection/SGDBConnectionManager.java:118 | the decimal text of a number is a boundary of section 5.1.1 of RFC 2046 iff the number is below 10^70 |
| Multipart.RandomBoundaryIffShort | src/main/java/com/steamgriddb/Connection/SGDBConnectionManager.java:118 | the generated boundary conforms iff the random number drawn is below 10^70 |
| Multipart.RandomBoundaryTooLong | src/main/java/com/steamgriddb/Connection/SGDBConnectionManager.java:118 | 10^70 is below 2^256, and its 71-character text is not a valid boundary |
| Multipart.ShortRandomBoundaryConforms | src/main/java/com/steamgriddb/Connection/SGDBConnectionManager.java:118 | with 232 random bits, every boundary conforms |
| Utf8.DecodeEncode | src/main/java/com/steamgriddb/Connection/SGDBConnectionManager.java:244 | decoding the UTF-8 bytes of a string gives the string back |
| Utf8.EncodeAppend | src/main/java/com/steamgriddb/Connection/SGDBConnectionManager.java:244-257 | the bytes of a concatenation are the concatenation of the bytes |
| Utf8.EncodeAscii | src/main/java/com/steamgriddb/Connection/SGDBConnectionManager.java:244 | an ASCII string encodes to one byte per character, equal to its code |
| Numerals.WrapInt32 | src/main/java/com/steamgriddb/Grid.java:148 | `getInt` keeps a value within 32 bits, leaves a value already in range alone, and differs from the original by a multiple of 2^32 |
| Numerals.DecimalRoundTrip | src/main/java/com/steamgriddb/Grid.java:148 | `String.valueOf(int)` reads back as the same integer |
| Numerals.DigitsLength | src/main/java/com/steamgriddb/Connection/SGDBConnectionManager.java:118 | a number has more than `k` digits iff it is at least 10^k |
| Json.Texts | src/main/java/com/steamgriddb/Game.java:67-70 | reading every element of an array as text succeeds iff each element can be read; the result has one text per element, in order |
| Json.TextsOfStrings | src/main/java/com/steamgriddb/Game.java:67-70 | an array of strings reads back as those strings |
| Json.TextsFirstError | src/main/java/com/steamgriddb/Game.java:68-70 | the first element that cannot be read decides the exception |
| Wrappers.CollectAll | src/main/java/com/steamgriddb/Grid.java:111-151 | the loop collects one value per index, in order, iff no index throws |
| Wrappers.CollectFirstError | src/main/java/com/steamgriddb/Grid.java:111-151 | the first index that throws decides the exception of the whole loop |
| Grids.StyleName | src/main/java/com/steamgriddb/Grid.java:43-62 | every style has a non-empty name free of commas, so the names can be joined with commas and split back |
| Grids.ParseStyle | src/main/java/com/steamgriddb/Grid.java:125-146 | a style string gives a style only when it is that style's name, and gives null exactly when it is no style's name |
| Grids.StyleNameParse | src/main/java/com/steamgriddb/Grid.java:125-146 | reading a style string gives a style iff the string is that style's name: the two switches are inverse, and any other string gives null |
| Grids.JoinStyles | src/main/java/com/steamgriddb/Grid.java:663-695 | the query is empty iff there are no styles, and otherwise it does not end with a comma |
| Grids.BuildStylesString | src/main/java/com/steamgriddb/Grid.java:663-695 | the loop builds the comma-joined names of the styles in order |
| Grids.SplitJoinStyles | src/main/java/com/steamgriddb/Grid.java:663-695 | cutting the query of a non-empty style list at its commas gives the style names in order |
| Grids.StylesRecoverable | src/main/java/com/steamgriddb/Grid.java:663-695 | the query has one piece per style, and each piece reads back as the style in that place |
| Grids.GridPrefix | src/main/java/com/steamgriddb/Grid.java:84-105 | each id type's endpoint is a directory under `grids/`, so the id that follows is its last segment |
| Grids.GridPathTypeOfPrefix | src/main/java/com/steamgriddb/Grid.java:84-105 | every grid prefix lies under `grids/` and can be told from the others, whatever follows it |
| Grids.GridsPathSpec | src/main/java/com/steamgriddb/Grid.java:84-107 | the path of `getGridsById` lies under `grids/` and names the endpoint of its id type |
| Grids.NewGrid | src/main/java/com/steamgriddb/Grid.java:42-69 | the constructor throws iff the style is null; otherwise `getStyle()` reads back as the style, and the other fields are the arguments |
| Grids.GridsOf | src/main/java/com/steamgriddb/Grid.java:111-151 | one grid per `data` element, in order, iff no element throws |
| Grids.GridsFromResponse | src/main/java/com/steamgriddb/Grid.java:109-154 | no grids when `success` is false, and an exception when `success` cannot be read |
| Grids.TagsAsWritten | src/main/java/com/steamgriddb/Grid.java:117-121 | as written, the tag list of grid `i` has one entry per tag, every entry the `i`-th tag; a grid with no tags gets none; otherwise it throws iff the `i`-th tag cannot be read, in particular when the grid has at least one tag but no more than `i` |
| Grids.GridAt | src/main/java/com/steamgriddb/Grid.java:112-149 | a grid comes only from an object element of `data`, with one tag per element of its `tags` array and a known style |
| Grids.ReadTagsAsWritten | src/main/java/com/steamgriddb/Grid.java:117-121 | the inner loop gives as many copies of the `i`-th tag as the grid has tags: none for a grid with no tags, and an exception when the grid has at least one tag but no `i`-th |
| Grids.ReadGrid | src/main/java/com/steamgriddb/Grid.java:112-149 | one pass of the outer loop, its reads in the order the code makes them, ending in the constructor |
| Grids.CollectGrids | src/main/java/com/steamgriddb/Grid.java:109-154 | the outer loop collects what `GridsFromResponse` describes, with the first exception that escapes |
| Grids.GetGridsById | src/main/java/com/steamgriddb/Grid.java:79-155 | one GET of the endpoint of the id type with the styles query, then the grids of the reply; the exception of an unparsable reply |
| Grids.GetGridsByIdAllStyles | src/main/java/com/steamgriddb/Grid.java:164-168 | the overload without styles sends an empty `styles` query and returns what `getGridsById` returns |
| Grids.ListingGrid | src/main/java/com/steamgriddb/Grid.java:112-149 | the grid built from any element of `data` holding a listing at the keys the client reads, whatever other members it has: the id as the decimal text of its 32-bit value, the style string, score, links and author; as written, copies of the `k`-th tag or an exception |
| Grids.GridsOfListings | src/main/java/com/steamgriddb/Grid.java:109-154 | for any reply whose `success` reads as true (a boolean or the string "true" in any case) and whose `data` elements hold the listings at the keys read, whatever other members it carries, the call succeeds iff every element succeeds, and the grids are the expected ones, element by element, with the same count |
| Grids.IntendedRoundTrip | src/main/java/com/steamgriddb/Grid.java:109-154 | for any such reply, when each tag is read by its own index, the grids of known styles come back whole: tags, style string, author, links, score, and an id that reads back as the 32-bit id |
| Grids.OneListing | src/main/java/com/steamgriddb/Grid.java:109-154 | any such reply with one element gives exactly that element's grid |
| Grids.TagDefectRepeats | src/main/java/com/steamgriddb/Grid.java:119-121 | a grid with the tags "a" and "b" comes back tagged "a", "a" as written, and "a", "b" as intended |
| Grids.TagDefectThrows | src/main/java/com/steamgriddb/Grid.java:119-121 | a reply whose second grid has one tag makes the whole call throw |
| Grids.UploadFields | src/main/java/com/steamgriddb/Grid.java:475-501 | the upload fields are exactly `game_id`, `style` (the style name) and `grid` (the file), in that order, with distinct keys |
| Grids.UploadGrid | src/main/java/com/steamgriddb/Grid.java:472-506 | a POST to base URI + `grids` whose headers are the multipart content type naming the boundary and the bearer header, and whose body encodes those fields; the result is the reply's `success`, and false, with nothing sent, when the file cannot be read |
| Grids.VotePathInjective | src/main/java/com/steamgriddb/Grid.java:514-565 | a vote path determines both the direction and the grid id |
| Grids.UpvoteById | src/main/java/com/steamgriddb/Grid.java:554-556 | one POST to `grids/vote/up/<id>` with the bearer header; it throws, with a JSONException, iff the reply is unparsable |
| Grids.DownvoteById | src/main/java/com/steamgriddb/Grid.java:563-565 | one POST to `grids/vote/down/<id>` with the bearer header; it throws, with a JSONException, iff the reply is unparsable |
| Grids.Vote | src/main/java/com/steamgriddb/Grid.java:514-520 | true posts to the up path, false to the down path, with the bearer header; it throws, with a JSONException, iff the reply is unparsable |
| Grids.DeleteByGridId | src/main/java/com/steamgriddb/Grid.java:579-581 | one DELETE of `grids/<id>` with the bearer header; it throws, with a JSONException, iff the reply is unparsable |
| Grids.DeleteByGridIds | src/main/java/com/steamgriddb/Grid.java:588-592 | one DELETE per id, in array order, up to and including the first that throws, whose JSONException it throws; all of them when none throws |
| Games.GamePrefix | src/main/java/com/steamgriddb/Game.java:92-202 | each id type's endpoint is a directory under `games/`, so the id that follows is its last segment |
| Games.GamePathTypeOfPrefix | src/main/java/com/steamgriddb/Game.java:41-62 | every lookup path lies under `games/`, names the endpoint of its id type (steam, id, gog, origin, egs, uplay), and ends with the encoded id unchanged |
| Games.GameFromResponse | src/main/java/com/steamgriddb/Game.java:64-71 | when `success` is false the game keeps its empty defaults; an unreadable `success` throws; on success there is one type per element of `data.types` |
| Games.GameRoundTrip | src/main/java/com/steamgriddb/Game.java:64-70 | any reply whose `success` reads as true and whose `data` holds the game at the keys read, whatever other members it carries, gives the game its name and types element for element, and an id that reads back as the 32-bit value of `data.id` |
| Games.Game.constructor | src/main/java/com/steamgriddb/Game.java:23-25 | the fields start as `""`, `""` and an empty list |
| Games.Game.Load | src/main/java/com/steamgriddb/Game.java:64-71 | the constructor's assignments and its loop over `types` leave the fields that `GameFromResponse` gives, and fail with its exception |
| Games.Game.AddTypes | src/main/java/com/steamgriddb/Game.java:68-70 | the loop over `types` appends the text of each element in order, so the list ends as the texts of the whole array, or it throws the exception of the first element that cannot be read; `id` and `name` are unchanged |
| Games.Game.Lookup | src/main/java/com/steamgriddb/Game.java:33-72 | the id is URL-encoded; exactly one GET goes to the endpoint of its type; the new game holds what the reply gives, or the call throws |

## Left out

- The HTTP exchange itself (`HttpClient`, status codes other than through the reply), `System.out` and `Logger` output: I/O. The reply is the `net` parameter.
- Unchecked exceptions thrown while a request is built: the model sends the request in each of these cases. None of them is caught by the `catch (IOException | InterruptedException)` blocks, so in Java each escapes the call.
  - `URI.create` throws an IllegalArgumentException when `APIUri + path` is not a valid URI (an id with a space, say).
  - `HttpRequest.Builder.uri` throws an IllegalArgumentException when the URI has no http or https scheme or no host, as after `initialize("localhost:8080", key)`.
  - `setHeader` and `headers` throw an IllegalArgumentException when `"Bearer " + authKey` is not a valid header field value, for example a key containing CR, LF or another control character.
  - `grid.toPath()` in `uploadGrid` throws an InvalidPathException for a file name that is not a valid path, before any request is built.
- Replies that change over time: `net` is a function of the request alone, so the same request always gets the same reply. `Grids.DeleteByGridIds` with an id listed twice therefore cannot model the second DELETE being answered differently, for example by a 404 page that does not parse.
- JSON text parsing: an unparsable reply is the `Unparsable` exchange. org.json's number coercions (`getInt` of a string or a fractional number, `getDouble` of a string) and the `toString()` of fractional numbers, arrays and objects inside arrays are `Err(Unmodelled)`. An integral number inside an array reads as its decimal text.
- `Json.EqualsIgnoreCase`: it folds ASCII letters and the long s only, which is all `getBoolean` compares against ("true", "false").
- Files: `Files.probeContentType`, `Files.readAllBytes` and `Path.getFileName` are the fields of `LocalFile`, an input. A `LocalFile` whose bytes are `None` stands for an IOException.
- Randomness: `new BigInteger(256, new Random())` is the `seed` parameter of `PostMultipart` and `UploadGrid`.
- `URLEncoder.encode`: the `urlEncode` parameter of `Games.Game.Lookup`. The UnsupportedEncodingException it declares is never thrown for UTF-8.
- The `double` score: floating point. The model carries it as the number that was read, integral or as written, and never computes on it.
- Null arguments passed by callers (a null style, id type or array): the NullPointerException they cause is not modelled. The one null the client makes itself, the style of an unknown style string, is modelled.
- Unpaired UTF-16 surrogates: `Utf8.Encode` treats every `char` as a code point.
- Getters, the instance methods `vote(boolean)`, `upvote`, `downvote` and `delete` (the static ones applied to the grid's own id), the `getGridJSONBy*` and `getGridsBy*Id` overloads, and the `getGameBy*` factories: one-line delegations to the modelled members.
- src/main/java/com/steamgriddb/Search.java is not part of this model. `Author` and the two enumerations are datatypes.
- Games.Game.Load: the fields after a failed read are not stated, because the Java constructor then throws and the object is never handed out.
- Multipart.RandomBoundary: it is the 256-bit generator as written; `PostMultipart` uses it, so requests with a boundary of 71 characters or more are modelled as sent.

## Findings

| source | as written | input that shows it | evidently intended | confidence | as-written member | corrected member |
|---|---|---|---|---|---|---|
| src/main/java/com/steamgriddb/Grid.java:119-121 | the tag loop over `j` reads `jsonTags.get(i)`, the index of the grid | one grid with tags `["a", "b"]` comes back tagged `["a", "a"]`; two grids with one tag each make `get(1)` throw on the second grid, and the whole call fails | `jsonTags.get(j)`: each tag read by its own index | high, not executed | Grids.TagDefectRepeats | Grids.IntendedRoundTrip |
| src/main/java/com/steamgriddb/Connection/SGDBConnectionManager.java:118 | the boundary is the decimal text of a random 256-bit number, up to 78 digits | the number 10^70, below 2^256, gives a 71-character boundary | a boundary of at most 70 characters (section 5.1.1 of RFC 2046); the corrected member draws 232 random bits, which gives up 24 of the 256 random bits that `new BigInteger(256, new Random())` draws at SGDBConnectionManager.java:118 (a 64-digit hexadecimal rendering of 256 bits would also fit) | high, not executed | Multipart.RandomBoundaryTooLong | Multipart.ShortRandomBoundaryConforms |
