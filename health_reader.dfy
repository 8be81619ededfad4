/**
 * The health JSON reader (healthreader.js): `readHealthJson` reads a file,
 * parses it as JSON and insists on a top-level array; `countHealthEntries`
 * counts its entries. Reading the file and `JSON.parse` are outside the
 * model: their outcome is the input `HealthSource`.
 */
module HealthReader {
  import opened Wrappers
  import opened Runtime

  /** A JSON value (RFC 8259); numbers are kept as reals. */
  datatype JsonValue =
    | JNull
    | JBool(b: bool)
    | JNumber(n: real)
    | JString(s: string)
    | JArray(items: seq<JsonValue>)
    | JObject(members: seq<(string, JsonValue)>)

  /** What `fs.readFile` followed by `JSON.parse` produced: a read error, a
      `SyntaxError` from the parser, or a parsed value. */
  datatype HealthSource =
    | ReadFailed(err: JsError)
    | Unparsable(syntaxMessage: string)
    | Parsed(value: JsonValue)

  const NotAnArrayMessage: string := "Invalid JSON: expected an array of entries"

  /** The `try` block: the error it throws, or the parsed array. */
  function Attempt(src: HealthSource): (r: Result<seq<JsonValue>, JsError>)
    ensures r.Success? <==> src.Parsed? && src.value.JArray?
    ensures src.ReadFailed? ==> r == Failure(src.err)
    ensures src.Unparsable? ==> r.Failure? && r.error.name == "SyntaxError" && r.error.code == None
    ensures r.Success? ==> r.value == src.value.items
    ensures src.Parsed? && !src.value.JArray? ==> r == Failure(PlainError(NotAnArrayMessage))
  {
    match src
    case ReadFailed(err) => Failure(err)
    case Unparsable(message) => Failure(JsError("SyntaxError", None, message))
    case Parsed(v) => if !v.JArray? then Failure(PlainError(NotAnArrayMessage)) else Success(v.items)
  }

  /** The `catch` block: ENOENT first, then a `SyntaxError`, otherwise the
      caught error unchanged. */
  function Rethrow(path: string, err: JsError): (r: JsError)
    ensures err.code == Some(NoSuchFile) ==> r == PlainError("Health data file not found at " + path)
    ensures err.code != Some(NoSuchFile) && err.name == "SyntaxError" ==> r == PlainError("Invalid JSON in " + path)
    ensures err.code != Some(NoSuchFile) && err.name != "SyntaxError" ==> r == err
    ensures r != err ==> r.name == "Error" && r.code == None
    ensures r.code != Some(NoSuchFile) && r.name != "SyntaxError"
  {
    if err.code == Some(NoSuchFile) then PlainError("Health data file not found at " + path)
    else if err.name == "SyntaxError" then PlainError("Invalid JSON in " + path)
    else err
  }

  /** `readHealthJson`: the parsed array unchanged, or one of the errors
      below, decided in this order. */
  function ReadHealthJson(path: string, src: HealthSource): (r: Result<seq<JsonValue>, JsError>)
    ensures r.Success? <==> src.Parsed? && src.value.JArray?
    ensures r.Success? ==> r.value == src.value.items
    ensures src.ReadFailed? && src.err.code == Some(NoSuchFile) ==>
      r == Failure(PlainError("Health data file not found at " + path))
    ensures src.ReadFailed? && src.err.code != Some(NoSuchFile) && src.err.name == "SyntaxError" ==>
      r == Failure(PlainError("Invalid JSON in " + path))
    ensures src.ReadFailed? && src.err.code != Some(NoSuchFile) && src.err.name != "SyntaxError" ==>
      r == Failure(src.err)
    ensures src.Unparsable? ==> r == Failure(PlainError("Invalid JSON in " + path))
    ensures src.Parsed? && !src.value.JArray? ==> r == Failure(PlainError(NotAnArrayMessage))
  {
    match Attempt(src)
    case Success(entries) => Success(entries)
    case Failure(err) => Failure(Rethrow(path, err))
  }

  /** `countHealthEntries`: the length of the array the read returns; a
      failed read fails the count with the same error. */
  function CountHealthEntries(path: string, src: HealthSource): (r: Result<nat, JsError>)
    ensures r.Success? <==> ReadHealthJson(path, src).Success?
    ensures r.Success? ==> r.value == |ReadHealthJson(path, src).value|
    ensures r.Failure? ==> r.error == ReadHealthJson(path, src).error
  {
    match ReadHealthJson(path, src)
    case Success(entries) => Success(|entries|)
    case Failure(err) => Failure(err)
  }

  /** Any parsed array, whatever its entries, counts its length. */
  lemma CountParsedArray(path: string, entries: seq<JsonValue>)
    ensures CountHealthEntries(path, Parsed(JArray(entries))) == Success(|entries|)
    ensures ReadHealthJson(path, Parsed(JArray(entries))) == Success(entries)
  {
  }

  /** The error for a value that is not an array names no path: it is the
      same for every path, and differs from the syntax-error message. */
  lemma {:induction false} NotAnArrayIgnoresPath(path1: string, path2: string, v: JsonValue)
    requires !v.JArray?
    ensures ReadHealthJson(path1, Parsed(v)) == ReadHealthJson(path2, Parsed(v))
    ensures ReadHealthJson(path1, Parsed(v)) != ReadHealthJson(path1, Unparsable(""))
  {
    var m := PlainError("Invalid JSON in " + path1).message;
    assert m[..13] == "Invalid JSON ";
    assert NotAnArrayMessage[..13] == "Invalid JSON:";
    assert m[..13] != NotAnArrayMessage[..13] by {
      assert m[12] == ' ' && NotAnArrayMessage[12] == ':';
    }
  }

  /** `[{"a":1},{"a":2},{"a":3}]` counts 3. */
  lemma ThreeObjects(path: string)
    ensures var one := (n: real) => JObject([("a", JNumber(n))]);
      CountHealthEntries(path, Parsed(JArray([one(1.0), one(2.0), one(3.0)]))) == Success(3)
  {
  }

  /** `{"not":"array"}` fails with the array expectation. */
  lemma ObjectIsRejected(path: string)
    ensures ReadHealthJson(path, Parsed(JObject([("not", JString("array"))])))
         == Failure(PlainError("Invalid JSON: expected an array of entries"))
  {
  }
}
