/** The extractor factories `param`, `header` and `query`, and the extractors
    they return: each reads one request location and normalises a non-empty
    value through `semver.clean`. */
module Handlers {
  import opened Wrappers
  import opened Koa

  /** One entry of a `KoaSemver` object's `modes` list. */
  datatype Extractor =
    | ParamLookup(name: string)              // returned by `param`
    | HeaderLookup(name: string)             // returned by `header`
    | QueryLookup(name: string)              // returned by `query`
    | Custom(f: Request -> Option<string>)   // any other function a caller registers; it sees
                                             // only the request data and never throws
    | NonFunction                            // a truthy value that is not a function

  const ParamMessage := "Must set 'name' argument on param handler"
  const HeaderMessage := "Must set 'name' argument on header handler"
  const QueryMessage := "Must set 'name' argument on query handler"
  const NotAFunction := "handler is not a function"

  /** lodash `trimStart(s, ":")`: `s` without its leading colons. */
  function TrimColons(s: string): (r: string)
    ensures |r| <= |s| && r == s[|s| - |r|..]
    ensures forall i :: 0 <= i < |s| - |r| ==> s[i] == ':'
    ensures r == "" || r[0] != ':'
  {
    if s != "" && s[0] == ':' then TrimColons(s[1..]) else s
  }

  /** The three properties above determine the trimmed name: the only suffix
      of `s` that drops nothing but colons and does not start with one. */
  lemma TrimColonsUnique(s: string, r: string)
    requires |r| <= |s| && r == s[|s| - |r|..]
    requires forall i :: 0 <= i < |s| - |r| ==> s[i] == ':'
    requires r == "" || r[0] != ':'
    ensures r == TrimColons(s)
  {
  }

  /** Trimming twice trims nothing more, and a name without a leading colon
      is kept as it is. */
  lemma TrimColonsIdempotent(s: string)
    ensures TrimColons(TrimColons(s)) == TrimColons(s)
    ensures s == "" || s[0] != ':' ==> TrimColons(s) == s
  {
  }

  /** `param(name)`: asserts that `name` is truthy, strips its leading colons
      and returns the extractor for that path parameter. */
  function Param(name: Option<string>): (r: Result<Extractor>)
    ensures r.Ok? <==> Truthy(name)
    ensures r.Failure? ==> r.error == AssertionError(ParamMessage)
    ensures r.Ok? ==> r.value.ParamLookup? && r.value.name == TrimColons(name.value)
  {
    if !Truthy(name) then Failure(AssertionError(ParamMessage))
    else Ok(ParamLookup(TrimColons(name.value)))
  }

  /** `header(name)`: asserts that `name` is truthy. */
  function Header(name: Option<string>): (r: Result<Extractor>)
    ensures r.Ok? <==> Truthy(name)
    ensures r.Failure? ==> r.error == AssertionError(HeaderMessage)
    ensures r.Ok? ==> r.value == HeaderLookup(name.value)
  {
    if !Truthy(name) then Failure(AssertionError(HeaderMessage))
    else Ok(HeaderLookup(name.value))
  }

  /** `query(name)`: asserts that `name` is truthy. */
  function Query(name: Option<string>): (r: Result<Extractor>)
    ensures r.Ok? <==> Truthy(name)
    ensures r.Failure? ==> r.error == AssertionError(QueryMessage)
    ensures r.Ok? ==> r.value == QueryLookup(name.value)
  {
    if !Truthy(name) then Failure(AssertionError(QueryMessage))
    else Ok(QueryLookup(name.value))
  }

  /** `value ? semver.clean(value) : null`. */
  function Normalize(value: Option<string>, clean: string -> Option<string>): (r: Option<string>)
    ensures r.Some? ==> Truthy(value)
    ensures Truthy(value) ==> r == clean(value.value)
  {
    if Truthy(value) then clean(value.value) else None
  }

  /** Calling an entry of `modes` on a request: `handler(ctx)`. */
  function Call(e: Extractor, req: Request, clean: string -> Option<string>): (r: Result<Option<string>>)
    ensures r.Failure? <==> e.NonFunction?
  {
    match e
    case ParamLookup(name) => Ok(Normalize(Field(req.params, name), clean))
    case HeaderLookup(name) => Ok(Normalize(Field(req.headers, name), clean))
    case QueryLookup(name) => Ok(Normalize(Field(req.query, name), clean))
    case Custom(f) => Ok(f(req))
    case NonFunction => Failure(TypeError(NotAFunction))
  }

  /** The request location a built-in extractor reads, with the name it reads. */
  function Source(e: Extractor, req: Request): Option<string>
    requires e.ParamLookup? || e.HeaderLookup? || e.QueryLookup?
  {
    match e
    case ParamLookup(name) => Field(req.params, name)
    case HeaderLookup(name) => Field(req.headers, name)
    case QueryLookup(name) => Field(req.query, name)
  }

  /** `param(":" + n)` is the same extractor as `param(n)`; the assertion runs
      before trimming, so `param(":")` is accepted and reads the parameter
      named by the empty string. */
  lemma ParamIgnoresLeadingColon(n: string)
    ensures n != "" ==> Param(Some(":" + n)) == Param(Some(n))
    ensures Param(Some(":")) == Ok(ParamLookup(""))
  {
    assert (":" + n)[1..] == n;
    assert ":"[1..] == "";
  }

  /** `param(":" + n)` for a name `n` without a leading colon reads the path
      parameter `n`. */
  lemma ParamStripsColon(n: string)
    requires n != "" && n[0] != ':'
    ensures Param(Some(":" + n)) == Ok(ParamLookup(n))
  {
    assert (":" + n)[1..] == n;
  }

  /** The extractor `param(name)` returns reads the path parameter named by
      the trimmed name. */
  lemma ParamReadsTrimmedName(name: Option<string>, req: Request, clean: string -> Option<string>)
    requires Truthy(name)
    ensures Param(name).Ok?
    ensures Call(Param(name).value, req, clean) == Ok(Normalize(Field(req.params, TrimColons(name.value)), clean))
  {
  }

  /** A built-in extractor gives `null` for an absent or empty value and
      `semver.clean(value)` otherwise; it never throws. */
  lemma LookupResult(e: Extractor, req: Request, clean: string -> Option<string>)
    requires e.ParamLookup? || e.HeaderLookup? || e.QueryLookup?
    ensures !Truthy(Source(e, req)) ==> Call(e, req, clean) == Ok(None)
    ensures Truthy(Source(e, req)) ==> Call(e, req, clean) == Ok(clean(Source(e, req).value))
  {
  }

  /** A built-in extractor reads only its own location: two requests that agree
      on it give the same result, whatever else differs. */
  lemma LookupReadsOnlySource(e: Extractor, r1: Request, r2: Request, clean: string -> Option<string>)
    requires e.ParamLookup? || e.HeaderLookup? || e.QueryLookup?
    requires Source(e, r1) == Source(e, r2)
    ensures Call(e, r1, clean) == Call(e, r2, clean)
  {
  }
}
