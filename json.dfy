/**
 * The parsed JSON values the client reads, and the org.json accessors it
 * calls on them, each returning the `JSONException` it would throw as `Err`.
 *
 * Parsing JSON text is not modelled: a response arrives already parsed.
 */
module Json {
  import opened Wrappers
  import opened Numerals

  datatype Json =
    | JNull
    | JBool(b: bool)
    | JInt(i: int)            // an integral number (Integer, Long or BigInteger in org.json)
    | JReal(text: string)     // a number with a fraction or an exponent, kept as written
    | JString(s: string)
    | JArray(items: seq<Json>)
    | JObject(members: JsonObject)

  /** A `JSONObject`: the members of one JSON object. */
  type JsonObject = map<string, Json>

  /** What `getDouble` yields; the client only copies it, so it is kept as it was read. */
  datatype Number = Integral(i: int) | Fractional(text: string)

  /**
   * The characters Java's `String.equalsIgnoreCase` treats as equal to a
   * lower-case ASCII letter: that letter, its capital, and, for `s`, the long s.
   */
  function FoldCase(c: char): char {
    if 'A' <= c <= 'Z' then (c as int - 'A' as int + 'a' as int) as char
    else if c == 'ſ' then 's'
    else c
  }

  /** `a.equalsIgnoreCase(b)` for a `b` made of lower-case ASCII letters. */
  predicate EqualsIgnoreCase(a: string, b: string) {
    |a| == |b| && forall i :: 0 <= i < |a| ==> FoldCase(a[i]) == b[i]
  }

  function Member(o: JsonObject, key: string): Result<Json> {
    if key in o then Ok(o[key]) else Err(JsonError)
  }

  /** `getBoolean`: a JSON boolean, or a string equal to "true" or "false" ignoring case. */
  function GetBoolean(o: JsonObject, key: string): Result<bool> {
    var v :- Member(o, key);
    match v
    case JBool(b) => Ok(b)
    case JString(s) =>
      if EqualsIgnoreCase(s, "false") then Ok(false)
      else if EqualsIgnoreCase(s, "true") then Ok(true)
      else Err(JsonError)
    case _ => Err(JsonError)
  }

  /** `getInt`: an integral number truncated to 32 bits by `intValue()`. */
  function GetInt(o: JsonObject, key: string): Result<int> {
    var v :- Member(o, key);
    match v
    case JInt(i) => Ok(WrapInt32(i))
    case JReal(_) => Err(Unmodelled)     // truncation of a fractional number
    case JString(_) => Err(Unmodelled)   // parsing a numeric string
    case _ => Err(JsonError)
  }

  /** `getDouble`. */
  function GetDouble(o: JsonObject, key: string): Result<Number> {
    var v :- Member(o, key);
    match v
    case JInt(i) => Ok(Integral(i))
    case JReal(t) => Ok(Fractional(t))
    case JString(_) => Err(Unmodelled)   // parsing a numeric string
    case _ => Err(JsonError)
  }

  /** `getString`: only a JSON string is accepted. */
  function GetString(o: JsonObject, key: string): Result<string> {
    var v :- Member(o, key);
    if v.JString? then Ok(v.s) else Err(JsonError)
  }

  /** `getJSONArray`. */
  function GetArray(o: JsonObject, key: string): Result<seq<Json>> {
    var v :- Member(o, key);
    if v.JArray? then Ok(v.items) else Err(JsonError)
  }

  /** `getJSONObject`. */
  function GetObject(o: JsonObject, key: string): Result<JsonObject> {
    var v :- Member(o, key);
    if v.JObject? then Ok(v.members) else Err(JsonError)
  }

  /** `JSONArray.getJSONObject(i)`. */
  function ObjectAt(items: seq<Json>, i: int): Result<JsonObject> {
    if 0 <= i < |items| && items[i].JObject? then Ok(items[i].members) else Err(JsonError)
  }

  /** `toString()` of a value held in a JSON array. */
  function Text(v: Json): Result<string> {
    match v
    case JString(s) => Ok(s)
    case JInt(i) => Ok(DecimalText(i))
    case JBool(b) => Ok(if b then "true" else "false")
    case JNull => Ok("null")
    case _ => Err(Unmodelled)            // re-serialising a number, array or object
  }

  /** `JSONArray.get(i).toString()`: the index must be in range. */
  function TextAt(items: seq<Json>, i: int): Result<string> {
    if 0 <= i < |items| then Text(items[i]) else Err(JsonError)
  }

  /** The text of every element, in order: what a loop over `get(k).toString()` collects. */
  function Texts(items: seq<Json>): (r: Result<seq<string>>)
    ensures r.Ok? <==> forall k :: 0 <= k < |items| ==> Text(items[k]).Ok?
    ensures r.Ok? ==> |r.value| == |items|
    ensures r.Ok? ==> forall k :: 0 <= k < |items| ==> Text(items[k]) == Ok(r.value[k])
    decreases |items|
  {
    if items == [] then Ok([])
    else
      var front :- Texts(items[..|items| - 1]);
      var last :- Text(items[|items| - 1]);
      Ok(front + [last])
  }

  /** Strings as the elements of a JSON array. */
  function StringsJson(strs: seq<string>): seq<Json> {
    seq(|strs|, k requires 0 <= k < |strs| => JString(strs[k]))
  }

  /** Turning strings into JSON strings and reading their texts back gives the strings. */
  lemma {:induction false} TextsOfStrings(strs: seq<string>)
    ensures Texts(StringsJson(strs)) == Ok(strs)
  {
    var items := StringsJson(strs);
    assert forall k :: 0 <= k < |items| ==> Text(items[k]) == Ok(strs[k]);
    var r := Texts(items);
    assert r.value == strs;
  }

  /** The first element whose text cannot be taken decides the error of every longer prefix. */
  lemma {:induction false} TextsFirstError(items: seq<Json>, i: nat, n: nat)
    requires i < n <= |items|
    requires Texts(items[..i]).Ok? && Text(items[i]).Err?
    ensures Texts(items[..n]) == Err(Text(items[i]).error)
    decreases n
  {
    if n > i + 1 {
      TextsFirstError(items, i, n - 1);
      assert items[..n][..n - 1] == items[..n - 1];
    } else {
      assert items[..n][..n - 1] == items[..i];
    }
  }
}
