/** Clients of the model: how the shared extractor list behaves under `use`,
    `clone` and `match`, and the requests the repository's tests send. */
module Scenarios {
  import opened Wrappers
  import opened Koa
  import opened Semver
  import opened Handlers
  import opened KoaSemver
  import opened Compose

  /** A gate built before a later `use` sees the new entry: it holds the
      object, not a snapshot of its list. */
  method UseAfterMatch(s: KoaSemver, h: Extractor, target: Option<string>, mw: Option<Middleware>) returns (g: Gate)
    modifies s.modes
    ensures View(g).modes == old(s.modes.items) + [h]
  {
    g := s.Match(target, mw);
    s.Use(Some(h));
  }

  /** `clone` shares the list: an entry added through either object is seen
      through both. */
  method UseThroughClone(s: KoaSemver, h1: Extractor, h2: Extractor) returns (c: KoaSemver)
    modifies s.modes
    ensures fresh(c) && c != s && c.modes == s.modes
    ensures s.modes.items == old(s.modes.items) + [h1, h2]
  {
    c := s.Clone();
    c.Use(Some(h1));
    s.Use(Some(h2));
  }

  /** No extractors are registered, so no request has a version and the first
      of three gates takes it. */
  method NoExtractorsScenario(lib: Library) returns (outcome: Outcome, body: seq<string>)
    ensures outcome == Stopped && body == ["2"]
  {
    var version := new KoaSemver();
    var gates := [
      version.Match(Some("^2.0.0"), Some(Middleware("2", false))),
      version.Match(Some("^2.1.0"), Some(Middleware("2", false))),
      version.Match(Some("^1.0.0"), Some(Middleware("1", false)))];
    var ctx := new Context(Request(map[], map[], map[]));
    outcome := Serve(gates, ctx, lib);
    body := ctx.body;
    UnversionedRequestTakesFirstGate(Views(gates), [], ctx.request, State(None, []), lib, 0);
  }

  /** A header version that the first gate accepts: its middleware continues
      with `next()`, yet the later gate that also accepts the version does not
      run, because the record is already written. */
  method ContinuationScenario(lib: Library) returns (outcome: Outcome, body: seq<string>)
    requires lib.clean("2.4.0") == Some("2.4.0")
    requires lib.satisfies("2.4.0", "^2.0.0") && lib.satisfies("2.4.0", "^2.1.0")
    ensures outcome == FellThrough && body == ["This is a middleware"]
  {
    var version := new KoaSemver();
    var header := Header(Some("X-Semver"));
    assert header == Ok(HeaderLookup("X-Semver"));
    version.Use(Some(header.value));
    var gates := [
      version.Match(Some("^2.0.0"), Some(Middleware("This is a middleware", true))),
      version.Match(Some("^2.1.0"), Some(Middleware("2", false))),
      version.Match(Some("^1.0.0"), Some(Middleware("1", false)))];
    var ctx := new Context(Request(map[], map["X-Semver" := "2.4.0"], map[]));
    outcome := Serve(gates, ctx, lib);
    body := ctx.body;
    var modes := [HeaderLookup("X-Semver")];
    ResolveFirstSettled(modes, ctx.request, lib.clean, 0);
    FirstSatisfyingGateWins(Views(gates), modes, ctx.request, State(None, []), lib, 0);
  }

  /** The three factory calls of the hierarchy test. */
  lemma HierarchyFactories()
    ensures Param(Some(":" + "Semver")) == Ok(ParamLookup("Semver"))
    ensures Query(Some("Semver")) == Ok(QueryLookup("Semver"))
    ensures Header(Some("Semver")) == Ok(HeaderLookup("Semver"))
  {
    ParamStripsColon("Semver");
  }

  /** The list `param(":Semver")`, `query("Semver")`, `header("Semver")` and
      two gates, `^2.0.0` then `^1.0.0`. */
  method HierarchyGates() returns (version: KoaSemver, gates: seq<Gate>)
    ensures fresh(version) && fresh(version.modes)
    ensures version.modes.items == [ParamLookup("Semver"), QueryLookup("Semver"), HeaderLookup("Semver")]
    ensures gates == [Gate(version, "^2.0.0", Some(Middleware("2", false))), Gate(version, "^1.0.0", Some(Middleware("1", false)))]
  {
    var param := Param(Some(":" + "Semver"));
    var query := Query(Some("Semver"));
    var header := Header(Some("Semver"));
    HierarchyFactories();
    version := new KoaSemver();
    version.Use(Some(param.value));
    version.Use(Some(query.value));
    version.Use(Some(header.value));
    gates := [
      version.Match(Some("^2.0.0"), Some(Middleware("2", false))),
      version.Match(Some("^1.0.0"), Some(Middleware("1", false)))];
  }

  /** The path parameter is registered first, so it wins over a header that
      names another version. */
  method PathBeatsHeaderScenario(lib: Library) returns (outcome: Outcome, body: seq<string>)
    requires lib.clean("1.0.0") == Some("1.0.0")
    requires !lib.satisfies("1.0.0", "^2.0.0") && lib.satisfies("1.0.0", "^1.0.0")
    ensures outcome == Stopped && body == ["1"]
  {
    var version, gates := HierarchyGates();
    var ctx := new Context(Request(map["Semver" := "1.0.0"], map["Semver" := "2.4.0"], map[]));
    outcome := Serve(gates, ctx, lib);
    body := ctx.body;
    var modes := version.modes.items;
    ResolveFirstSettled(modes, ctx.request, lib.clean, 0);
    FirstSatisfyingGateWins(Views(gates), modes, ctx.request, State(None, []), lib, 1);
  }

  /** A path parameter `_` that `semver.clean` rejects declines, and the query
      parameter after it supplies the version. */
  method LaterExtractorScenario(lib: Library) returns (outcome: Outcome, body: seq<string>)
    requires lib.clean("_") == None && lib.clean("1.4.0") == Some("1.4.0")
    requires !lib.satisfies("1.4.0", "^2.0.0") && lib.satisfies("1.4.0", "^1.0.0")
    ensures outcome == Stopped && body == ["1"]
  {
    var version, gates := HierarchyGates();
    var ctx := new Context(Request(map["Semver" := "_"], map[], map["Semver" := "1.4.0"]));
    outcome := Serve(gates, ctx, lib);
    body := ctx.body;
    var modes := version.modes.items;
    assert Declines(modes[0], ctx.request, lib.clean);
    ResolveFirstSettled(modes, ctx.request, lib.clean, 1);
    FirstSatisfyingGateWins(Views(gates), modes, ctx.request, State(None, []), lib, 1);
  }

  /** A header version that no gate accepts: the request falls through with
      nothing recorded. */
  method NoMatchScenario(lib: Library) returns (outcome: Outcome, body: seq<string>, recorded: Option<VersionRecord>)
    requires lib.clean("3.4.0") == Some("3.4.0")
    requires !lib.satisfies("3.4.0", "^2.0.0") && !lib.satisfies("3.4.0", "^1.0.0")
    ensures outcome == FellThrough && body == [] && recorded == None
  {
    var version := new KoaSemver();
    var header := Header(Some("X-Semver"));
    assert header == Ok(HeaderLookup("X-Semver"));
    version.Use(Some(header.value));
    var gates := [
      version.Match(Some("^2.0.0"), Some(Middleware("2", false))),
      version.Match(Some("^1.0.0"), Some(Middleware("1", false)))];
    var ctx := new Context(Request(map[], map["X-Semver" := "3.4.0"], map[]));
    outcome := Serve(gates, ctx, lib);
    body, recorded := ctx.body, ctx.version;
    var modes := [HeaderLookup("X-Semver")];
    ResolveFirstSettled(modes, ctx.request, lib.clean, 0);
    NoSatisfyingGateFallsThrough(Views(gates), modes, ctx.request, State(None, []), lib);
  }
}
