/**
  The outbound side of the provider: HTTP requests as plain records.

  The provider never inspects a response, so a request is all there is to
  model. The JSON body is kept abstract, as the ordered list of key/value
  pairs the JSON writer is given, and the URL is kept as the part that
  follows the API base URL (the base itself comes from the module's
  `GetAPIURL()`, which is not part of this model).
 */
module Http {

  import opened Wrappers

  /** The source's `int64`, the type of every unix timestamp written into a body. */
  newtype int64 = x: int | -0x8000_0000_0000_0000 <= x < 0x8000_0000_0000_0000

  datatype JsonValue = JNumber(n: int64) | JString(s: string)

  datatype Field = Field(key: string, value: JsonValue)

  datatype Header = Header(name: string, value: string)

  /** One request handed to the HTTP transport; `path` is appended to the API base URL. */
  datatype Request = Request(verb: string, headers: seq<Header>, path: string, body: seq<Field>)

  const Verb := "POST"
  const ContentTypeHeader := "Content-Type"
  const ContentType := "application/json"
  const WriteKeyHeader := "X-TD-Write-Key"

  /** The value of the first header called `name`, if any. */
  function HeaderValue(headers: seq<Header>, name: string): Option<string>
  {
    if headers == [] then None
    else if headers[0].name == name then Some(headers[0].value)
    else HeaderValue(headers[1..], name)
  }

  /** The value stored under `key` in a body, if any. */
  function FieldValue(body: seq<Field>, key: string): Option<JsonValue>
  {
    if body == [] then None
    else if body[0].key == key then Some(body[0].value)
    else FieldValue(body[1..], key)
  }

  /** What every request of the provider must look like: a JSON POST carrying the write key. */
  predicate Authorized(req: Request, writeKey: string)
  {
    && req.verb == Verb
    && HeaderValue(req.headers, ContentTypeHeader) == Some(ContentType)
    && HeaderValue(req.headers, WriteKeyHeader) == Some(writeKey)
  }

  /** The request every sending operation builds: verb, the two headers, URL, body. */
  function Post(writeKey: string, path: string, body: seq<Field>): (r: Request)
    ensures Authorized(r, writeKey)
    ensures r.path == path && r.body == body
  {
    Request(Verb, [Header(ContentTypeHeader, ContentType), Header(WriteKeyHeader, writeKey)], path, body)
  }

}
