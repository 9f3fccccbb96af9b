/** Python run-time notions the services rely on: optional values, decoded JSON
    values with Python's truth test, exceptions, and the (body, status) tuples
    that Flask turns into HTTP responses. */
module PyRuntime {

  datatype Option<+T> = None | Some(value: T)

  /** A decoded JSON value as `json.loads` returns it (floats are not modelled). */
  datatype Json =
    | JNull
    | JBool(b: bool)
    | JInt(i: int)
    | JStr(s: string)
    | JList(items: seq<Json>)
    | JDict(fields: map<string, Json>)

  /** Python's truth test (`if x:` / `not x`) on a decoded JSON value. */
  predicate Truthy(v: Json) {
    match v
    case JNull => false
    case JBool(b) => b
    case JInt(i) => i != 0
    case JStr(s) => s != ""
    case JList(xs) => xs != []
    case JDict(m) => m != map[]
  }

  /** `d.get(key, default)` on a dict. */
  function GetOr(d: map<string, Json>, key: string, default: Json): Json {
    if key in d then d[key] else default
  }

  /** `c in v` for a one-character string `c`: substring test on a str,
      element test on a list, key test on a dict; anything else raises
      TypeError, written here as None. */
  function ContainsChar(v: Json, c: char): (r: Option<bool>)
    ensures r.None? <==> !(v.JStr? || v.JList? || v.JDict?)
  {
    match v
    case JStr(s) => Some(c in s)
    case JList(xs) => Some(JStr([c]) in xs)
    case JDict(m) => Some([c] in m)
    case _ => None
  }

  /** `len(v)`; None where Python raises TypeError. */
  function Len(v: Json): (r: Option<nat>)
    ensures r.None? <==> !(v.JStr? || v.JList? || v.JDict?)
  {
    match v
    case JStr(s) => Some(|s|)
    case JList(xs) => Some(|xs|)
    case JDict(m) => Some(|m|)
    case _ => None
  }

  /** The exceptions the modelled code can raise or catch. */
  datatype Exc =
    | KeyError(key: string)
    | AttributeError
    | TypeError
    | InvalidId             // bson ObjectId(...) on a malformed string
    | NoFile                // GridFS get of a missing file
    | FileExists            // GridFS put under an id that is taken
    | StorageUnavailable    // MongoDB unreachable
    | DatabaseError         // MySQL unreachable or rejecting a query
    | ConnectionFailed      // pika.BlockingConnection could not connect
    | ChannelFailed         // connection.channel() failed
    | PublishRejected       // basic_publish raised
    | TranscodeFailed       // moviepy could not extract the audio track
    | OsError               // closing or removing the intermediate mp3 file failed

  /** A Python call either returns a value or raises. */
  datatype Outcome<+T> = Return(value: T) | Raise(exc: Exc)

  /** A `(body, status)` tuple returned from a Flask view. */
  datatype Reply = Reply(body: string, status: int)
}
