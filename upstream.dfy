/**
 * What travels between the bot and the picture-of-the-day service: the query
 * parameters of a request, the JSON records of a reply, and the reply of the
 * fetch itself, which is an oracle outside the model.
 */
module Upstream {
  import opened Wrappers
  import opened Dates
  import opened Exceptions

  /** A JSON record of the service: `title`, `explanation`, `date`, `media_type`, `url`, `hdurl`, ... */
  type Record = map<string, string>

  /** A decoded reply body: one record, or a list of them. */
  datatype Json = Object(fields: Record) | Array(items: seq<Record>)

  /** A query-parameter value as the Python code holds it before requests encodes it. */
  datatype Value = Str(s: string) | Int(i: int) | Bool(b: bool) | DateValue(d: Date)

  type Params = map<string, Value>

  /** What a fetch gives back: a decoded body, or the exception it raised. */
  datatype ApiReply = Ok(json: Json) | Fails(error: Raised)

  /** `record.get(key)`: None when the key is absent. */
  function Get(r: Record, key: string): Option<string> {
    if key in r then Some(r[key]) else None
  }

  /** Python truthiness of an optional string: present and non-empty. */
  predicate Truthy(v: Option<string>) {
    v.Some? && v.value != ""
  }

  /** Python's `a or b` on optional strings. */
  function Or(a: Option<string>, b: Option<string>): Option<string> {
    if Truthy(a) then a else b
  }
}
