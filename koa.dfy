/** The parts of a Koa request that the version gate reads, and the downstream
    middleware it may hand a request to. */
module Koa {
  import opened Wrappers

  /** The request data an extractor can read: the router's path parameters,
      the request headers and the parsed query string. */
  datatype Request = Request(
    params: map<string, string>,
    headers: map<string, string>,
    query: map<string, string>)

  /** JavaScript truthiness of a value that is a string or `null`:
      `null` and the empty string are falsy, every other string is truthy. */
  predicate Truthy(v: Option<string>) {
    v.Some? && v.value != ""
  }

  /** The value stored under `key`, as a JavaScript property read gives it:
      `null` (undefined) when the key is absent. */
  function Field(m: map<string, string>, key: string): (r: Option<string>)
    ensures r.Some? <==> key in m
    ensures r.Some? ==> r.value == m[key]
  {
    if key in m then Some(m[key]) else None
  }

  /** A downstream middleware `(ctx, next) => ...` of the kind the repository's
      tests register: it appends `message` to the response body and then either
      ends the request or continues with `next()`. */
  datatype Middleware = Middleware(message: string, continues: bool)
}
