/**
 * `Grid`: the style names, the request paths of the grid endpoints, the
 * grids read from a `getGridsById` response, and the upload, vote and
 * delete calls.
 */
module Grids {
  import opened Wrappers
  import opened Numerals
  import opened Json
  import opened Enums
  import opened Multipart
  import opened Connection

  // ---------------------------------------------------------------------
  // Style names.
  // ---------------------------------------------------------------------

  /**
   * The name of a style, as all four switches of the class write it. No
   * name is empty or contains a comma, so a comma-joined list of them can be
   * split back.
   */
  function StyleName(s: Style): (r: string)
    ensures |r| > 0 && CommaFree(r)
  {
    match s
    case Alternate => "alternate"
    case NoLogo => "no_logo"
    case Blurred => "blurred"
    case Material => "material"
  }

  /** The switch of `getGridsById` on the style string of a response: null for any other string. */
  function ParseStyle(name: string): (r: Option<Style>)
    ensures r.Some? ==> StyleName(r.value) == name
    ensures r.None? ==> forall s: Style :: StyleName(s) != name
  {
    if name == "alternate" then Some(Alternate)
    else if name == "no_logo" then Some(NoLogo)
    else if name == "blurred" then Some(Blurred)
    else if name == "material" then Some(Material)
    else None
  }

  /** Reading a name gives a style exactly when the name is that style's: the two switches are inverse. */
  lemma StyleNameParse(s: Style, name: string)
    ensures ParseStyle(name) == Some(s) <==> name == StyleName(s)
  {
  }

  predicate CommaFree(s: string) {
    forall k :: 0 <= k < |s| ==> s[k] != ','
  }

  // ---------------------------------------------------------------------
  // The styles query.
  // ---------------------------------------------------------------------

  /** The style names in order, separated by commas. */
  function JoinStyles(styles: seq<Style>): (r: string)
    ensures styles == [] <==> r == ""
    ensures styles != [] ==> r[|r| - 1] != ','
    decreases |styles|
  {
    if styles == [] then ""
    else if |styles| == 1 then StyleName(styles[0])
    else JoinStyles(styles[..|styles| - 1]) + "," + StyleName(styles[|styles| - 1])
  }

  /** `buildStylesString`: each name, then a comma unless it was the last. */
  method BuildStylesString(styles: seq<Style>) returns (stylesStr: string)
    ensures stylesStr == JoinStyles(styles)
  {
    stylesStr := "";
    var i := 0;
    while i < |styles|
      invariant 0 <= i <= |styles|
      invariant i == 0 ==> stylesStr == ""
      invariant 0 < i < |styles| ==> stylesStr == JoinStyles(styles[..i]) + ","
      invariant 0 < i == |styles| ==> stylesStr == JoinStyles(styles)
    {
      var currentStyle := StyleName(styles[i]);
      stylesStr := stylesStr + currentStyle;
      if i != |styles| - 1 {
        stylesStr := stylesStr + ",";
      }
      assert styles[..i + 1][..i] == styles[..i];
      i := i + 1;
    }
    assert styles[..|styles|] == styles;
  }

  /** `s` cut at every comma (the text itself when it has none). */
  function Split(s: string): (r: seq<string>)
    ensures |r| >= 1
    decreases |s|
  {
    if s == [] then [""]
    else if s[|s| - 1] == ',' then Split(s[..|s| - 1]) + [""]
    else
      var front := Split(s[..|s| - 1]);
      front[..|front| - 1] + [front[|front| - 1] + [s[|s| - 1]]]
  }

  /** A text without commas is one piece, and appending one to a text extends its last piece. */
  lemma SplitSnoc(s: string, c: char)
    requires c != ','
    ensures Split(s + [c]) == Split(s)[..|Split(s)| - 1] + [Split(s)[|Split(s)| - 1] + [c]]
  {
    assert (s + [c])[..|s|] == s;
  }

  lemma LastPieceGrows(init: seq<string>, last: string, f: seq<string>, c: char)
    requires f == init + [last]
    ensures f[..|f| - 1] + [f[|f| - 1] + [c]] == init + [last + [c]]
  {
    assert f[..|f| - 1] == init;
  }

  lemma SnocAssoc(x: string, b: string)
    requires b != []
    ensures x + b[..|b| - 1] + [b[|b| - 1]] == x + b
  {
    assert b[..|b| - 1] + [b[|b| - 1]] == b;
  }

  lemma {:induction false} SplitCommaFree(a: string, b: string)
    requires CommaFree(b)
    ensures Split(a + b) == Split(a)[..|Split(a)| - 1] + [Split(a)[|Split(a)| - 1] + b]
    decreases |b|
  {
    if b == [] {
      assert a + b == a;
      assert Split(a)[|Split(a)| - 1] + b == Split(a)[|Split(a)| - 1];
    } else {
      var b' := b[..|b| - 1];
      SplitCommaFree(a, b');
      SplitSnoc(a + b', b[|b| - 1]);
      LastPieceGrows(Split(a)[..|Split(a)| - 1], Split(a)[|Split(a)| - 1] + b', Split(a + b'), b[|b| - 1]);
      SnocAssoc(a, b);
      SnocAssoc(Split(a)[|Split(a)| - 1], b);
    }
  }

  lemma SplitAfterComma(a: string, b: string)
    requires CommaFree(b)
    ensures Split(a + "," + b) == Split(a) + [b]
  {
    var a' := a + ",";
    assert a'[..|a'| - 1] == a && a'[|a'| - 1] == ',';
    assert Split(a') == Split(a) + [""];
    SplitCommaFree(a', b);
    assert Split(a')[..|Split(a')| - 1] == Split(a);
    assert "" + b == b;
  }

  /** The names of the styles, in order. */
  function StyleNames(styles: seq<Style>): (r: seq<string>)
    ensures |r| == |styles| && forall k :: 0 <= k < |styles| ==> r[k] == StyleName(styles[k])
  {
    if styles == [] then [] else StyleNames(styles[..|styles| - 1]) + [StyleName(styles[|styles| - 1])]
  }

  /** Splitting the query at its commas gives back the style names in order. */
  lemma {:induction false} SplitJoinStyles(styles: seq<Style>)
    requires styles != []
    ensures Split(JoinStyles(styles)) == StyleNames(styles)
    decreases |styles|
  {
    var n := |styles|;
    if n == 1 {
      SplitCommaFree("", StyleName(styles[0]));
      assert "" + StyleName(styles[0]) == StyleName(styles[0]);
    } else {
      SplitJoinStyles(styles[..n - 1]);
      SplitAfterComma(JoinStyles(styles[..n - 1]), StyleName(styles[n - 1]));
    }
  }

  /** The query identifies the styles: it has one piece per style, and each reads back as the style in that place. */
  lemma StylesRecoverable(styles: seq<Style>)
    requires styles != []
    ensures |Split(JoinStyles(styles))| == |styles|
    ensures forall k :: 0 <= k < |styles| ==> ParseStyle(Split(JoinStyles(styles))[k]) == Some(styles[k])
  {
    SplitJoinStyles(styles);
    forall k | 0 <= k < |styles|
      ensures ParseStyle(StyleNames(styles)[k]) == Some(styles[k])
    {
      StyleNameParse(styles[k], StyleName(styles[k]));
    }
  }

  // ---------------------------------------------------------------------
  // Request paths.
  // ---------------------------------------------------------------------

  /** The switch of `getGridsById` on the id type: a directory under "grids/", so the id is its last segment. */
  function GridPrefix(t: IdType): (r: string)
    ensures "grids/" <= r && |r| > |"grids/"| && r[|r| - 1] == '/'
  {
    match t
    case GameId => "grids/game/"
    case SteamAppId => "grids/steam/"
    case EgsId => "grids/egs/"
    case UplayId => "grids/uplay/"
    case OriginId => "grids/origin/"
    case GogId => "grids/gog/"
  }

  function GridsPath(id: string, t: IdType, styles: seq<Style>): string {
    GridPrefix(t) + id + "?styles=" + JoinStyles(styles)
  }

  /** Which endpoint a path addresses, read from its prefix. */
  function GridPathType(p: string): Option<IdType> {
    if "grids/game/" <= p then Some(GameId)
    else if "grids/steam/" <= p then Some(SteamAppId)
    else if "grids/egs/" <= p then Some(EgsId)
    else if "grids/uplay/" <= p then Some(UplayId)
    else if "grids/origin/" <= p then Some(OriginId)
    else if "grids/gog/" <= p then Some(GogId)
    else None
  }

  /** The prefixes are prefix-free: the path after any prefix still tells which one it was. */
  lemma GridPathTypeOfPrefix(t: IdType, rest: string)
    ensures "grids/" <= GridPrefix(t) + rest
    ensures GridPathType(GridPrefix(t) + rest) == Some(t)
  {
    var p := GridPrefix(t) + rest;
    assert GridPrefix(t) <= p;
    match t
    case GameId =>
    case SteamAppId => assert p[6] == 's';
    case EgsId => assert p[6] == 'e';
    case UplayId => assert p[6] == 'u';
    case OriginId => assert p[6] == 'o';
    case GogId => assert p[7] == 'o';
  }

  /** Every path of `getGridsById` lies under "grids/" and names the endpoint of its id type. */
  lemma GridsPathSpec(id: string, t: IdType, styles: seq<Style>)
    ensures "grids/" <= GridsPath(id, t, styles)
    ensures GridPathType(GridsPath(id, t, styles)) == Some(t)
  {
    var rest := id + "?styles=" + JoinStyles(styles);
    assert GridsPath(id, t, styles) == GridPrefix(t) + rest;
    GridPathTypeOfPrefix(t, rest);
  }

  // ---------------------------------------------------------------------
  // Grids.
  // ---------------------------------------------------------------------

  datatype Author = Author(name: string, steam64: string, avatar: string)

  datatype Grid = Grid(id: string, score: Number, style: string, url: string, thumb: string,
                       tags: seq<string>, author: Author)

  /** The constructor: a null style makes its switch throw; a style is stored as its name. */
  function NewGrid(id: string, score: Number, style: Option<Style>, url: string, thumb: string,
                   tags: seq<string>, author: Author): (r: Result<Grid>)
    ensures r.Ok? <==> style.Some?
    ensures r.Err? ==> r.error == NullPointer
    ensures r.Ok? ==> ParseStyle(r.value.style) == style
    ensures r.Ok? ==> r.value.(style := "") == Grid(id, score, "", url, thumb, tags, author)
  {
    match style
    case None => Err(NullPointer)
    case Some(s) =>
      StyleNameParse(s, StyleName(s));
      Ok(Grid(id, score, StyleName(s), url, thumb, tags, author))
  }

  /** `n` copies of `t`. */
  function Repeat(t: string, n: nat): (r: seq<string>)
    ensures |r| == n && forall k :: 0 <= k < n ==> r[k] == t
  {
    seq(n, _ => t)
  }

  /**
   * The tag loop of `getGridsById` as written: it runs over the tags of grid
   * `i` but reads `tags.get(i)` each time, so the list holds as many copies
   * of the `i`-th tag as there are tags. A grid with no tags never enters
   * the loop and gets none; one with at least one tag but no more than `i`
   * throws.
   */
  function TagsAsWritten(tags: seq<Json>, i: nat): (r: Result<seq<string>>)
    ensures tags != [] ==> (r.Ok? <==> TextAt(tags, i).Ok?)
    ensures r.Ok? ==> |r.value| == |tags|
    ensures r.Ok? && tags != [] ==> forall k :: 0 <= k < |tags| ==> r.value[k] == TextAt(tags, i).value
    ensures tags != [] && i >= |tags| ==> r == Err(JsonError)
  {
    if tags == [] then Ok([])
    else
      var t :- TextAt(tags, i);
      Ok(Repeat(t, |tags|))
  }

  /** Which element the tag loop reads: the grid's index, as written, or the tag's own, as intended. */
  datatype TagReading = OuterIndex | ElementIndex

  function ReadTags(tags: seq<Json>, i: nat, reading: TagReading): Result<seq<string>> {
    match reading
    case OuterIndex => TagsAsWritten(tags, i)
    case ElementIndex => Texts(tags)
  }

  /** One pass of the outer loop of `getGridsById`, its reads in the order the code makes them. */
  function GridAt(data: seq<Json>, i: nat, reading: TagReading): (r: Result<Grid>)
    ensures r.Ok? ==> i < |data| && data[i].JObject?
    ensures r.Ok? ==> GetArray(data[i].members, "tags").Ok? && |r.value.tags| == |GetArray(data[i].members, "tags").value|
    ensures r.Ok? ==> ParseStyle(r.value.style).Some?
  {
    var g :- ObjectAt(data, i);
    var author :- GetObject(g, "author");
    var tagsJson :- GetArray(g, "tags");
    var tags :- ReadTags(tagsJson, i, reading);
    var name :- GetString(author, "name");
    var steam64 :- GetString(author, "steam64");
    var avatar :- GetString(author, "avatar");
    var styleString :- GetString(g, "style");
    var id :- GetInt(g, "id");
    var score :- GetDouble(g, "score");
    var url :- GetString(g, "url");
    var thumb :- GetString(g, "thumb");
    NewGrid(DecimalText(id), score, ParseStyle(styleString), url, thumb, tags, Author(name, steam64, avatar))
  }

  function GridReader(data: seq<Json>, reading: TagReading): nat -> Result<Grid> {
    (i: nat) => GridAt(data, i, reading)
  }

  /** The grids of the first `n` elements, one per element in order, unless one of them throws. */
  function GridsOf(data: seq<Json>, n: nat, reading: TagReading): (r: Result<seq<Grid>>)
    ensures r.Ok? <==> forall k :: 0 <= k < n ==> GridAt(data, k, reading).Ok?
    ensures r.Ok? ==> |r.value| == n && forall k :: 0 <= k < n ==> GridAt(data, k, reading) == Ok(r.value[k])
  {
    var f := GridReader(data, reading);
    assert forall k: nat :: f(k) == GridAt(data, k, reading);
    CollectAll(f, n)
  }

  /** What `getGridsById` returns for a parsed response: no grids when `success` is false. */
  function GridsFromResponse(json: JsonObject, reading: TagReading): (r: Result<seq<Grid>>)
    ensures GetBoolean(json, "success") == Ok(false) ==> r == Ok([])
    ensures GetBoolean(json, "success").Err? ==> r.Err?
  {
    var success :- GetBoolean(json, "success");
    if !success then Ok([])
    else
      var data :- GetArray(json, "data");
      GridsOf(data, |data|, reading)
  }

  /** The inner loop of `getGridsById`. */
  method ReadTagsAsWritten(tags: seq<Json>, i: nat) returns (r: Result<seq<string>>)
    ensures r == TagsAsWritten(tags, i)
  {
    var tagStrings: seq<string> := [];
    var j := 0;
    while j < |tags|
      invariant 0 <= j <= |tags|
      invariant j > 0 ==> TextAt(tags, i).Ok? && tagStrings == Repeat(TextAt(tags, i).value, j)
      invariant j == 0 ==> tagStrings == []
    {
      var t := TextAt(tags, i);
      if t.Err? {
        return Err(t.error);
      }
      tagStrings := tagStrings + [t.value];
      j := j + 1;
    }
    r := Ok(tagStrings);
  }

  /** The body of the outer loop of `getGridsById`. */
  method ReadGrid(data: seq<Json>, i: nat) returns (r: Result<Grid>)
    ensures r == GridAt(data, i, OuterIndex)
  {
    var g :- ObjectAt(data, i);
    var author :- GetObject(g, "author");
    var tagsJson :- GetArray(g, "tags");
    var tags :- ReadTagsAsWritten(tagsJson, i);
    var name :- GetString(author, "name");
    var steam64 :- GetString(author, "steam64");
    var avatar :- GetString(author, "avatar");
    var styleString :- GetString(g, "style");
    var style := ParseStyle(styleString);
    var id :- GetInt(g, "id");
    var score :- GetDouble(g, "score");
    var url :- GetString(g, "url");
    var thumb :- GetString(g, "thumb");
    r := NewGrid(DecimalText(id), score, style, url, thumb, tags, Author(name, steam64, avatar));
  }

  /** The grids of a parsed response, as the loops of `getGridsById` collect them. */
  method CollectGrids(json: JsonObject) returns (r: Result<seq<Grid>>)
    ensures r == GridsFromResponse(json, OuterIndex)
  {
    var success :- GetBoolean(json, "success");
    var grids: seq<Grid> := [];
    if success {
      var data :- GetArray(json, "data");
      var i := 0;
      while i < |data|
        invariant 0 <= i <= |data|
        invariant GridsOf(data, i, OuterIndex) == Ok(grids)
      {
        var grid := ReadGrid(data, i);
        assert GridReader(data, OuterIndex)(i) == grid;
        if grid.Err? {
          CollectFirstError(GridReader(data, OuterIndex), i, |data|);
          return Err(grid.error);
        }
        grids := grids + [grid.value];
        i := i + 1;
      }
    }
    r := Ok(grids);
  }

  /**
   * `getGridsById`: one GET of the grids endpoint of the id type, then the
   * grids of the response. Neither connection setting changes.
   */
  method GetGridsById(conn: ConnectionManager, id: string, t: IdType, styles: seq<Style>, net: Request -> Exchange)
    returns (sent: Request, r: Result<seq<Grid>>)
    ensures sent == conn.PlainRequest(GET, GridsPath(id, t, styles))
    ensures Receive(net(sent)).Err? ==> r == Err(Receive(net(sent)).error)
    ensures Receive(net(sent)).Ok? ==> r == GridsFromResponse(Receive(net(sent)).value, OuterIndex)
  {
    var stylesStr := BuildStylesString(styles);
    var json;
    sent, json := conn.GetJson(GridPrefix(t) + id + "?styles=" + stylesStr, net);
    if json.Err? {
      return sent, Err(json.error);
    }
    r := CollectGrids(json.value);
  }

  /** The overload without styles: an empty array, so an empty "styles" query. */
  method GetGridsByIdAllStyles(conn: ConnectionManager, id: string, t: IdType, net: Request -> Exchange)
    returns (sent: Request, r: Result<seq<Grid>>)
    ensures sent == conn.PlainRequest(GET, GridPrefix(t) + id + "?styles=")
    ensures Receive(net(sent)).Err? ==> r == Err(Receive(net(sent)).error)
    ensures Receive(net(sent)).Ok? ==> r == GridsFromResponse(Receive(net(sent)).value, OuterIndex)
  {
    sent, r := GetGridsById(conn, id, t, [], net);
    assert GridsPath(id, t, []) == GridPrefix(t) + id + "?styles=" + "";
  }

  // ---------------------------------------------------------------------
  // What the server sends, and what comes out of it.
  // ---------------------------------------------------------------------

  /** One grid as the server describes it: an integral id and the style as a string. */
  datatype Listing = Listing(id: int, score: Number, style: string, url: string, thumb: string,
                             tags: seq<string>, author: Author)

  function ScoreJson(score: Number): Json {
    match score
    case Integral(i) => JInt(i)
    case Fractional(t) => JReal(t)
  }

  function AuthorJson(a: Author): JsonObject {
    map["name" := JString(a.name), "steam64" := JString(a.steam64), "avatar" := JString(a.avatar)]
  }

  function ListingJson(l: Listing): Json {
    JObject(map[
      "id" := JInt(l.id),
      "score" := ScoreJson(l.score),
      "style" := JString(l.style),
      "url" := JString(l.url),
      "thumb" := JString(l.thumb),
      "tags" := JArray(StringsJson(l.tags)),
      "author" := JObject(AuthorJson(l.author))])
  }

  /** An author object holding the author's strings at the keys the client reads; other members may be present. */
  predicate DescribesAuthor(o: JsonObject, a: Author) {
    && "name" in o && o["name"] == JString(a.name)
    && "steam64" in o && o["steam64"] == JString(a.steam64)
    && "avatar" in o && o["avatar"] == JString(a.avatar)
  }

  /** An element of `data` holding the listing at every key the client reads; other members may be present. */
  predicate DescribesGrid(v: Json, l: Listing) {
    && v.JObject?
    && "id" in v.members && v.members["id"] == JInt(l.id)
    && "score" in v.members && v.members["score"] == ScoreJson(l.score)
    && "style" in v.members && v.members["style"] == JString(l.style)
    && "url" in v.members && v.members["url"] == JString(l.url)
    && "thumb" in v.members && v.members["thumb"] == JString(l.thumb)
    && "tags" in v.members && v.members["tags"] == JArray(StringsJson(l.tags))
    && "author" in v.members && v.members["author"].JObject?
    && DescribesAuthor(v.members["author"].members, l.author)
  }

  /** The accessors read back each member of an element that describes a listing. */
  lemma ListingMembers(v: Json, l: Listing)
    requires DescribesGrid(v, l)
    ensures var o := v.members;
      && GetObject(o, "author").Ok? && DescribesAuthor(GetObject(o, "author").value, l.author)
      && GetArray(o, "tags") == Ok(StringsJson(l.tags))
      && GetString(o, "style") == Ok(l.style)
      && GetInt(o, "id") == Ok(WrapInt32(l.id))
      && GetDouble(o, "score") == Ok(l.score)
      && GetString(o, "url") == Ok(l.url)
      && GetString(o, "thumb") == Ok(l.thumb)
  {
  }

  lemma AuthorMembers(o: JsonObject, a: Author)
    requires DescribesAuthor(o, a)
    ensures GetString(o, "name") == Ok(a.name)
    ensures GetString(o, "steam64") == Ok(a.steam64)
    ensures GetString(o, "avatar") == Ok(a.avatar)
  {
  }

  function ListingsJson(ls: seq<Listing>): seq<Json> {
    seq(|ls|, k requires 0 <= k < |ls| => ListingJson(ls[k]))
  }

  /** The smallest successful response carrying these listings. */
  function ListingsResponse(ls: seq<Listing>): JsonObject {
    map["success" := JBool(true), "data" := JArray(ListingsJson(ls))]
  }

  /**
   * A reply whose `success` reads as true and whose `data` array describes
   * the listings, one element each, in order. Other members, anywhere, may
   * be present.
   */
  predicate DescribesListings(json: JsonObject, ls: seq<Listing>) {
    && GetBoolean(json, "success") == Ok(true)
    && GetArray(json, "data").Ok?
    && |GetArray(json, "data").value| == |ls|
    && forall k :: 0 <= k < |ls| ==> DescribesGrid(GetArray(json, "data").value[k], ls[k])
  }

  lemma ListingJsonDescribes(l: Listing)
    ensures DescribesGrid(ListingJson(l), l)
  {
  }

  lemma ListingsResponseDescribes(ls: seq<Listing>)
    ensures DescribesListings(ListingsResponse(ls), ls)
  {
    var json := ListingsResponse(ls);
    assert GetBoolean(json, "success") == Ok(true);
    assert GetArray(json, "data") == Ok(ListingsJson(ls));
    forall k | 0 <= k < |ls|
      ensures DescribesGrid(ListingsJson(ls)[k], ls[k])
    {
      ListingJsonDescribes(ls[k]);
    }
  }

  /**
   * The grid the client makes of listing `k`: its id as the decimal text of
   * the id cut to 32 bits, and the style string of the response. As written,
   * a grid whose tags do not reach index `k` throws, and the others get
   * copies of their `k`-th tag.
   */
  function ExpectedGrid(l: Listing, k: nat, reading: TagReading): Result<Grid> {
    var tags :- ExpectedTags(l.tags, k, reading);
    if ParseStyle(l.style).None? then Err(NullPointer)
    else Ok(Grid(DecimalText(WrapInt32(l.id)), l.score, l.style, l.url, l.thumb, tags, l.author))
  }

  function ExpectedTags(tags: seq<string>, k: nat, reading: TagReading): Result<seq<string>> {
    if reading == ElementIndex || tags == [] then Ok(tags)
    else if k >= |tags| then Err(JsonError)
    else Ok(Repeat(tags[k], |tags|))
  }

  lemma ListingTags(tags: seq<string>, k: nat, reading: TagReading)
    ensures ReadTags(StringsJson(tags), k, reading) == ExpectedTags(tags, k, reading)
  {
    TextsOfStrings(tags);
  }

  /** Element `k` of `data`, describing listing `l`, gives the expected grid. */
  lemma ListingGrid(data: seq<Json>, k: nat, l: Listing, reading: TagReading)
    requires k < |data| && DescribesGrid(data[k], l)
    ensures GridAt(data, k, reading) == ExpectedGrid(l, k, reading)
  {
    ListingTags(l.tags, k, reading);
    ListingMembers(data[k], l);
    AuthorMembers(data[k].members["author"].members, l.author);
    assert ObjectAt(data, k) == Ok(data[k].members);
  }

  /**
   * The grids of a successful response, element by element: as written the
   * call fails as soon as one listing has too few tags or an unknown style,
   * and otherwise gives each grid the id, score, style string, links and
   * author of its listing.
   */
  lemma GridsOfListings(json: JsonObject, ls: seq<Listing>, reading: TagReading)
    requires DescribesListings(json, ls)
    ensures var r := GridsFromResponse(json, reading);
      && (r.Ok? <==> forall k :: 0 <= k < |ls| ==> ExpectedGrid(ls[k], k, reading).Ok?)
      && (r.Ok? ==> |r.value| == |ls| && forall k :: 0 <= k < |ls| ==> ExpectedGrid(ls[k], k, reading) == Ok(r.value[k]))
  {
    var data := GetArray(json, "data").value;
    forall k | 0 <= k < |ls|
      ensures GridAt(data, k, reading) == ExpectedGrid(ls[k], k, reading)
    {
      ListingGrid(data, k, ls[k], reading);
    }
  }

  /** Reading every tag by its own index, the listings with known styles come back whole. */
  lemma IntendedRoundTrip(json: JsonObject, ls: seq<Listing>)
    requires DescribesListings(json, ls)
    requires forall k :: 0 <= k < |ls| ==> ParseStyle(ls[k].style).Some?
    ensures var r := GridsFromResponse(json, ElementIndex);
      && r.Ok? && |r.value| == |ls|
      && forall k :: 0 <= k < |ls| ==>
           && r.value[k].tags == ls[k].tags
           && r.value[k].style == ls[k].style
           && r.value[k].author == ls[k].author
           && r.value[k].url == ls[k].url && r.value[k].thumb == ls[k].thumb
           && r.value[k].score == ls[k].score
           && ParseDecimal(r.value[k].id) == Some(WrapInt32(ls[k].id))
  {
    GridsOfListings(json, ls, ElementIndex);
    forall k | 0 <= k < |ls|
      ensures ParseDecimal(DecimalText(WrapInt32(ls[k].id))) == Some(WrapInt32(ls[k].id))
    {
      DecimalRoundTrip(WrapInt32(ls[k].id));
    }
  }

  /** A reply with one element gives exactly that element's grid. */
  lemma OneListing(json: JsonObject, l: Listing, reading: TagReading)
    requires DescribesListings(json, [l])
    ensures ExpectedGrid(l, 0, reading).Ok? ==>
      GridsFromResponse(json, reading) == Ok([ExpectedGrid(l, 0, reading).value])
  {
    GridsOfListings(json, [l], reading);
    assert [l][0] == l;
    var r := GridsFromResponse(json, reading);
    if r.Ok? {
      assert r.value == [r.value[0]];
    }
  }

  /**
   * The defect, on one grid with the tags "a" and "b": as written the grid
   * comes back tagged "a", "a", where reading each tag by its own index gives
   * "a", "b".
   */
  lemma TagDefectRepeats()
    ensures var l := Listing(7, Integral(5), "alternate", "u", "t", ["a", "b"], Author("n", "s", "v"));
      && GridsFromResponse(ListingsResponse([l]), OuterIndex)
           == Ok([Grid("7", Integral(5), "alternate", "u", "t", ["a", "a"], Author("n", "s", "v"))])
      && GridsFromResponse(ListingsResponse([l]), ElementIndex)
           == Ok([Grid("7", Integral(5), "alternate", "u", "t", ["a", "b"], Author("n", "s", "v"))])
  {
    var l := Listing(7, Integral(5), "alternate", "u", "t", ["a", "b"], Author("n", "s", "v"));
    assert DecimalText(WrapInt32(7)) == "7";
    assert Repeat("a", 2) == ["a", "a"];
    assert ExpectedGrid(l, 0, OuterIndex) == Ok(Grid("7", Integral(5), "alternate", "u", "t", ["a", "a"], Author("n", "s", "v")));
    assert ExpectedGrid(l, 0, ElementIndex) == Ok(Grid("7", Integral(5), "alternate", "u", "t", ["a", "b"], Author("n", "s", "v")));
    ListingsResponseDescribes([l]);
    OneListing(ListingsResponse([l]), l, OuterIndex);
    OneListing(ListingsResponse([l]), l, ElementIndex);
  }

  /**
   * And once the second grid of a reply has a single tag, the whole call
   * throws, because that grid's tag loop asks for the tag at index 1.
   */
  lemma TagDefectThrows()
    ensures var l := Listing(7, Integral(5), "alternate", "u", "t", ["a"], Author("n", "s", "v"));
      GridsFromResponse(ListingsResponse([l, l]), OuterIndex) == Err(JsonError)
  {
    var l := Listing(7, Integral(5), "alternate", "u", "t", ["a"], Author("n", "s", "v"));
    ListingsResponseDescribes([l, l]);
    assert ExpectedGrid(l, 0, OuterIndex).Ok?;
    assert ExpectedGrid(l, 1, OuterIndex) == Err(JsonError);
    SecondGridThrows(ListingsResponse([l, l]), l);
  }

  /** When the second of two grids fails where the first succeeds, the call throws the second's exception. */
  lemma SecondGridThrows(json: JsonObject, l: Listing)
    requires DescribesListings(json, [l, l])
    requires ExpectedGrid(l, 0, OuterIndex).Ok? && ExpectedGrid(l, 1, OuterIndex).Err?
    ensures GridsFromResponse(json, OuterIndex) == Err(ExpectedGrid(l, 1, OuterIndex).error)
  {
    var data := GetArray(json, "data").value;
    assert [l, l][0] == l && [l, l][1] == l;
    ListingGrid(data, 0, l, OuterIndex);
    ListingGrid(data, 1, l, OuterIndex);
    assert GridsOf(data, 1, OuterIndex).Ok?;
    CollectFirstError(GridReader(data, OuterIndex), 1, 2);
  }


  // ---------------------------------------------------------------------
  // Upload, vote, delete.
  // ---------------------------------------------------------------------

  /** The parameter map of `uploadGrid`. */
  function UploadFields(gameId: string, style: Style, grid: LocalFile): (r: Form)
    ensures DistinctKeys(r)
    ensures r == [Field("game_id", StringValue(gameId)), Field("style", StringValue(StyleName(style))), Field("grid", File(grid))]
  {
    var m0 := Put([], "game_id", StringValue(gameId));
    var m1 := Put(m0, "style", StringValue(StyleName(style)));
    assert !HasKey(m0, "style");
    var m2 := Put(m1, "grid", File(grid));
    assert !HasKey(m1, "grid");
    m2
  }

  /**
   * `uploadGrid`: a multipart POST to "grids" of the game id, the style name
   * and the file, and the `success` member of the reply. When the file cannot
   * be read, the fallback reply makes it false.
   */
  method UploadGrid(conn: ConnectionManager, gameId: string, style: Style, grid: LocalFile,
                    seed: nat, net: Request -> Exchange)
    returns (sent: Option<Request>, r: Result<bool>)
    requires seed < TwoTo256
    ensures var body := Body(UploadFields(gameId, style, grid), RandomBoundary(seed));
      && (body.Err? ==> sent == None && r == Ok(false))
      && (body.Ok? ==>
            sent == Some(Request(POST, conn.apiUri + "grids",
                                 [("Content-Type", "multipart/form-data;boundary=" + RandomBoundary(seed)), Authorization(conn.authKey)],
                                 body.value)))
    ensures sent.Some? ==> r == (var reply :- ReceiveMultipart(net(sent.value)); GetBoolean(reply, "success"))
  {
    var params := UploadFields(gameId, style, grid);
    var json;
    sent, json := conn.PostMultipart("grids", params, seed, net);
    if json.Err? {
      return sent, Err(json.error);
    }
    r := GetBoolean(json.value, "success");
  }

  function VotePath(up: bool, gridId: string): string {
    (if up then "grids/vote/up/" else "grids/vote/down/") + gridId
  }

  /** A vote path names its direction and its grid: different votes never share one. */
  lemma VotePathInjective(up1: bool, id1: string, up2: bool, id2: string)
    requires VotePath(up1, id1) == VotePath(up2, id2)
    ensures up1 == up2 && id1 == id2
  {
    var p := VotePath(up1, id1);
    assert p[11] == VotePath(up2, id2)[11];
    if up1 {
      assert p[|"grids/vote/up/"|..] == id1;
      assert p[|"grids/vote/up/"|..] == id2;
    } else {
      assert p[|"grids/vote/down/"|..] == id1;
      assert p[|"grids/vote/down/"|..] == id2;
    }
  }

  /** `upvoteById`: one POST; the reply is dropped, but an unparsable one throws. */
  method UpvoteById(conn: ConnectionManager, gridId: string, net: Request -> Exchange)
    returns (sent: Request, outcome: Outcome)
    ensures sent == conn.PlainRequest(POST, VotePath(true, gridId))
    ensures outcome.Fail? <==> net(sent).Unparsable?
    ensures outcome.Fail? ==> outcome.error == JsonError
  {
    var reply;
    sent, reply := conn.Post("grids/vote/up/" + gridId, net);
    outcome := if reply.Ok? then Pass else Fail(reply.error);
  }

  /** `downvoteById`. */
  method DownvoteById(conn: ConnectionManager, gridId: string, net: Request -> Exchange)
    returns (sent: Request, outcome: Outcome)
    ensures sent == conn.PlainRequest(POST, VotePath(false, gridId))
    ensures outcome.Fail? <==> net(sent).Unparsable?
    ensures outcome.Fail? ==> outcome.error == JsonError
  {
    var reply;
    sent, reply := conn.Post("grids/vote/down/" + gridId, net);
    outcome := if reply.Ok? then Pass else Fail(reply.error);
  }

  /** `vote`: true is an upvote, false a downvote. */
  method Vote(conn: ConnectionManager, up: bool, gridId: string, net: Request -> Exchange)
    returns (sent: Request, outcome: Outcome)
    ensures sent == conn.PlainRequest(POST, VotePath(up, gridId))
    ensures up ==> "grids/vote/up/" <= sent.uri[|conn.apiUri|..]
    ensures !up ==> "grids/vote/down/" <= sent.uri[|conn.apiUri|..]
    ensures outcome.Fail? <==> net(sent).Unparsable?
    ensures outcome.Fail? ==> outcome.error == JsonError
  {
    if up {
      sent, outcome := UpvoteById(conn, gridId, net);
    } else {
      sent, outcome := DownvoteById(conn, gridId, net);
    }
  }

  function DeletePath(gridId: string): string {
    "grids/" + gridId
  }

  /** `deleteByGridID`: one DELETE of the grid. */
  method DeleteByGridId(conn: ConnectionManager, gridId: string, net: Request -> Exchange)
    returns (sent: Request, outcome: Outcome)
    ensures sent == conn.PlainRequest(DELETE, DeletePath(gridId))
    ensures outcome.Fail? <==> net(sent).Unparsable?
    ensures outcome.Fail? ==> outcome.error == JsonError
  {
    var reply;
    sent, reply := conn.Delete("grids/" + gridId, net);
    outcome := if reply.Ok? then Pass else Fail(reply.error);
  }

  /**
   * `deleteByGridIDs`: one DELETE per id, in the order of the array, until
   * one throws. `sent` lists the requests made.
   */
  method DeleteByGridIds(conn: ConnectionManager, gridIds: seq<string>, net: Request -> Exchange)
    returns (sent: seq<Request>, outcome: Outcome)
    ensures |sent| <= |gridIds|
    ensures forall k :: 0 <= k < |sent| ==> sent[k] == conn.PlainRequest(DELETE, DeletePath(gridIds[k]))
    ensures forall k :: 0 <= k < |sent| - 1 ==> !net(sent[k]).Unparsable?
    ensures outcome.Pass? ==> |sent| == |gridIds| && forall k :: 0 <= k < |sent| ==> !net(sent[k]).Unparsable?
    ensures outcome.Fail? ==> |sent| > 0 && net(sent[|sent| - 1]).Unparsable?
    ensures outcome.Fail? ==> outcome.error == JsonError
  {
    sent := [];
    var i := 0;
    while i < |gridIds|
      invariant 0 <= i <= |gridIds| && |sent| == i
      invariant forall k :: 0 <= k < i ==> sent[k] == conn.PlainRequest(DELETE, DeletePath(gridIds[k]))
      invariant forall k :: 0 <= k < i ==> !net(sent[k]).Unparsable?
    {
      var req, o := DeleteByGridId(conn, gridIds[i], net);
      sent := sent + [req];
      if o.Fail? {
        return sent, o;
      }
      i := i + 1;
    }
    outcome := Pass;
  }
}
