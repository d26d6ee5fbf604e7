/**
 * `Game`: the lookup of one game by an identifier of one of the six id
 * types, and the fields its constructor fills from the reply.
 */
module Games {
  import opened Wrappers
  import opened Numerals
  import opened Json
  import opened Enums
  import opened Connection

  /** The endpoint of each `getGameJSONBy*` method. */
  function GamePrefix(t: IdType): (r: string)
    ensures "games/" <= r && |r| > |"games/"| && r[|r| - 1] == '/'
  {
    match t
    case SteamAppId => "games/steam/"
    case GameId => "games/id/"
    case GogId => "games/gog/"
    case OriginId => "games/origin/"
    case EgsId => "games/egs/"
    case UplayId => "games/uplay/"
  }

  /** Which endpoint a path addresses, read from its prefix. */
  function GamePathType(p: string): Option<IdType> {
    if "games/steam/" <= p then Some(SteamAppId)
    else if "games/id/" <= p then Some(GameId)
    else if "games/gog/" <= p then Some(GogId)
    else if "games/origin/" <= p then Some(OriginId)
    else if "games/egs/" <= p then Some(EgsId)
    else if "games/uplay/" <= p then Some(UplayId)
    else None
  }

  /** Every lookup path lies under "games/" and names the endpoint of its id type, whatever the id. */
  lemma GamePathTypeOfPrefix(t: IdType, encodedId: string)
    ensures "games/" <= GamePrefix(t) + encodedId
    ensures GamePathType(GamePrefix(t) + encodedId) == Some(t)
    ensures (GamePrefix(t) + encodedId)[|GamePrefix(t)|..] == encodedId
  {
    var p := GamePrefix(t) + encodedId;
    assert GamePrefix(t) <= p;
    match t
    case SteamAppId =>
    case GameId => assert p[6] == 'i';
    case GogId => assert p[6] == 'g';
    case OriginId => assert p[6] == 'o';
    case EgsId => assert p[6] == 'e';
    case UplayId => assert p[6] == 'u';
  }

  /** What a `Game` holds: `getId`, `getName` and `getTypes`. */
  datatype GameInfo = GameInfo(id: string, name: string, types: seq<string>)

  /** The field initialisers: what a game keeps when the reply is not a success. */
  const EmptyGame := GameInfo("", "", [])

  /**
   * The constructor after its lookup: nothing more when `success` is false;
   * otherwise the id as the decimal text of its 32-bit value, the name, and
   * the text of every element of "types", in order. Each read may throw.
   */
  function GameFromResponse(json: JsonObject): (r: Result<GameInfo>)
    ensures GetBoolean(json, "success") == Ok(false) ==> r == Ok(EmptyGame)
    ensures GetBoolean(json, "success").Err? ==> r.Err?
    ensures r.Ok? && r.value != EmptyGame ==> GetBoolean(json, "success") == Ok(true)
    ensures r.Ok? && GetBoolean(json, "success") == Ok(true) ==>
      && GetObject(json, "data").Ok?
      && GetArray(GetObject(json, "data").value, "types").Ok?
      && |r.value.types| == |GetArray(GetObject(json, "data").value, "types").value|
  {
    var success :- GetBoolean(json, "success");
    if !success then Ok(EmptyGame)
    else
      var data :- GetObject(json, "data");
      var id :- GetInt(data, "id");
      var name :- GetString(data, "name");
      var types :- GetArray(data, "types");
      var texts :- Texts(types);
      Ok(GameInfo(DecimalText(id), name, texts))
  }

  /** A game as the server describes it. */
  datatype GameListing = GameListing(id: int, name: string, types: seq<string>)

  /**
   * A reply whose `success` reads as true and whose `data` object holds the
   * listing at the keys the client reads. Other members, anywhere, may be
   * present.
   */
  predicate DescribesGame(json: JsonObject, g: GameListing) {
    && GetBoolean(json, "success") == Ok(true)
    && "data" in json && json["data"].JObject?
    && var d := json["data"].members;
       && "id" in d && d["id"] == JInt(g.id)
       && "name" in d && d["name"] == JString(g.name)
       && "types" in d && d["types"] == JArray(StringsJson(g.types))
  }

  /** The smallest successful reply describing the listing. */
  function GameResponse(g: GameListing): (r: JsonObject)
    ensures DescribesGame(r, g)
  {
    var r := map["success" := JBool(true),
                 "data" := JObject(map["id" := JInt(g.id), "name" := JString(g.name), "types" := JArray(StringsJson(g.types))])];
    assert GetBoolean(r, "success") == Ok(true);
    r
  }

  /** A successful reply fills the game with the listing's name and types, and an id that reads back as the listing's 32-bit id. */
  lemma GameRoundTrip(json: JsonObject, g: GameListing)
    requires DescribesGame(json, g)
    ensures GameFromResponse(json) == Ok(GameInfo(DecimalText(WrapInt32(g.id)), g.name, g.types))
    ensures ParseDecimal(GameFromResponse(json).value.id) == Some(WrapInt32(g.id))
  {
    TextsOfStrings(g.types);
    DecimalRoundTrip(WrapInt32(g.id));
  }

  /** The `Game` class: three fields the constructor assigns in place. */
  class Game {
    var id: string
    var name: string
    var types: seq<string>

    function Info(): GameInfo
      reads this
    {
      GameInfo(id, name, types)
    }

    /** The field initialisers. */
    constructor()
      ensures Info() == EmptyGame
    {
      id := "";
      name := "";
      types := [];
    }

    /**
     * The part of the constructor after the lookup: `id`, then `name`, then
     * each type appended in turn. When a read throws, the object is never
     * handed out, so only its failure is stated.
     */
    method Load(json: JsonObject) returns (outcome: Outcome)
      requires Info() == EmptyGame
      modifies this
      ensures outcome.Pass? <==> GameFromResponse(json).Ok?
      ensures outcome.Fail? ==> outcome.error == GameFromResponse(json).error
      ensures outcome.Pass? ==> Info() == GameFromResponse(json).value
    {
      var success := GetBoolean(json, "success");
      if success.Err? {
        return Fail(success.error);
      }
      if !success.value {
        return Pass;
      }
      var data := GetObject(json, "data");
      if data.Err? {
        return Fail(data.error);
      }
      var newId := GetInt(data.value, "id");
      if newId.Err? {
        return Fail(newId.error);
      }
      id := DecimalText(newId.value);
      var newName := GetString(data.value, "name");
      if newName.Err? {
        return Fail(newName.error);
      }
      name := newName.value;
      var typesArray := GetArray(data.value, "types");
      if typesArray.Err? {
        return Fail(typesArray.error);
      }
      outcome := AddTypes(typesArray.value);
    }

    /** The loop of the constructor over "types": the text of each element appended in turn. */
    method AddTypes(items: seq<Json>) returns (outcome: Outcome)
      requires types == []
      modifies this
      ensures outcome.Pass? <==> Texts(items).Ok?
      ensures outcome.Fail? ==> outcome.error == Texts(items).error
      ensures outcome.Pass? ==> types == Texts(items).value
      ensures id == old(id) && name == old(name)
    {
      var i := 0;
      while i < |items|
        invariant 0 <= i <= |items|
        invariant Texts(items[..i]) == Ok(types)
        invariant id == old(id) && name == old(name)
      {
        var t := Text(items[i]);
        if t.Err? {
          TextsFirstError(items, i, |items|);
          assert items[..|items|] == items;
          return Fail(t.error);
        }
        assert items[..i + 1][..i] == items[..i];
        types := types + [t.value];
        i := i + 1;
      }
      assert items[..|items|] == items;
      outcome := Pass;
    }

    /**
     * `new Game(id, type)`: the id is URL-encoded, the endpoint of its type is
     * fetched once, and the object is filled from the reply. Neither
     * connection setting changes.
     */
    static method Lookup(conn: ConnectionManager, rawId: string, t: IdType, urlEncode: string -> string,
                         net: Request -> Exchange)
      returns (sent: Request, r: Result<Game>)
      ensures sent == conn.PlainRequest(GET, GamePrefix(t) + urlEncode(rawId))
      ensures Receive(net(sent)).Err? ==> r == Err(Receive(net(sent)).error)
      ensures Receive(net(sent)).Ok? ==>
        var g := GameFromResponse(Receive(net(sent)).value);
        && (g.Err? ==> r == Err(g.error))
        && (g.Ok? ==> r.Ok? && fresh(r.value) && r.value.Info() == g.value)
    {
      var encoded := urlEncode(rawId);
      var json;
      sent, json := conn.GetJson(GamePrefix(t) + encoded, net);
      if json.Err? {
        return sent, Err(json.error);
      }
      var game := new Game();
      var outcome := game.Load(json.value);
      if outcome.Fail? {
        return sent, Err(outcome.error);
      }
      r := Ok(game);
    }
  }
}
