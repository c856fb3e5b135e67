/** The `KoaSemver` class: an ordered, shared list of version extractors and
    the version gates built from it with `match`. */
module KoaSemver {
  import opened Wrappers
  import opened Koa
  import opened Semver
  import opened Handlers

  /** The JavaScript array held in `this.modes`. It is an object of its own so
      that two `KoaSemver` instances, and every gate built from them, can
      share it. */
  class ModeList {
    var items: seq<Extractor>

    constructor (items: seq<Extractor>)
      ensures this.items == items
    {
      this.items := items;
    }
  }

  class KoaSemver {
    var modes: ModeList

    /** `new KoaSemver()`: the default argument is a fresh, empty array. */
    constructor ()
      ensures fresh(modes) && modes.items == []
    {
      modes := new ModeList([]);
    }

    /** `new KoaSemver(modes)`: keeps the given array itself, not a copy. */
    constructor Sharing(modes: ModeList)
      ensures this.modes == modes
    {
      this.modes := modes;
    }

    /** `use(handler)`: a falsy `handler` (`None`) is skipped; any truthy value
        is pushed onto the shared array, whether or not it is a function. */
    method Use(handler: Option<Extractor>)
      modifies modes
      ensures handler.Some? ==> modes.items == old(modes.items) + [handler.value]
      ensures handler.None? ==> modes.items == old(modes.items)
    {
      if handler.Some? {
        modes.items := modes.items + [handler.value];
      }
    }

    /** `clone()`: a new object around the same array. */
    method Clone() returns (c: KoaSemver)
      ensures fresh(c) && c.modes == modes
    {
      c := new KoaSemver.Sharing(modes);
    }

    /** `match(target = "*", middleware)`: the gate captures this object, so it
        reads `modes` when a request arrives, not when it is built. */
    function Match(target: Option<string>, middleware: Option<Middleware>): (g: Gate)
      ensures g.semver == this && g.middleware == middleware
      ensures target.None? ==> g.target == "*"
      ensures target.Some? ==> g.target == target.value
    {
      Gate(this, if target.Some? then target.value else "*", middleware)
    }
  }

  /** The middleware `match` returns. */
  datatype Gate = Gate(semver: KoaSemver, target: string, middleware: Option<Middleware>)

  /** What a gate works with when a request reaches it. */
  datatype GateView = GateView(modes: seq<Extractor>, target: string, middleware: Option<Middleware>)

  ghost function View(g: Gate): GateView
    reads g.semver, g.semver.modes
  {
    GateView(g.semver.modes.items, g.target, g.middleware)
  }

  /** The record a claiming gate writes to `ctx.state.version`. */
  datatype VersionRecord = VersionRecord(target: string, requested: Option<string>)

  /** The requested version:
      `modes.reduce((acc, handler) => acc || handler(ctx), null)`. */
  function Resolve(modes: seq<Extractor>, req: Request, clean: string -> Option<string>): (r: Result<Option<string>>)
    ensures modes == [] ==> r == Ok(None)
    ensures r.Failure? ==> r.error == TypeError(NotAFunction)
  {
    Fold(None, modes, req, clean)
  }

  /** One step of the reduction and the rest of it. Once the accumulator is
      truthy the remaining entries are never called. */
  function Fold(acc: Option<string>, modes: seq<Extractor>, req: Request, clean: string -> Option<string>): (r: Result<Option<string>>)
    ensures Truthy(acc) ==> r == Ok(acc)
    ensures r.Failure? ==> r.error == TypeError(NotAFunction)
    decreases |modes|
  {
    if modes == [] then Ok(acc)
    else if Truthy(acc) then Fold(acc, modes[1..], req, clean)
    else match Call(modes[0], req, clean)
      case Failure(e) => Failure(e)
      case Ok(v) => Fold(v, modes[1..], req, clean)
  }

  /** `e` is a function that finds no version in `req`. */
  predicate Declines(e: Extractor, req: Request, clean: string -> Option<string>) {
    Call(e, req, clean).Ok? && !Truthy(Call(e, req, clean).value)
  }

  /** Every entry of `modes` before index `k` declines. */
  predicate DeclinedBefore(modes: seq<Extractor>, k: int, req: Request, clean: string -> Option<string>)
    requires 0 <= k <= |modes|
  {
    forall j :: 0 <= j < k ==> Declines(modes[j], req, clean)
  }

  /** The entry at `k` is the first one that does not decline: the reduction
      stops there with what that call gives, a truthy version or the
      exception of calling a non-function. */
  lemma {:induction false} ResolveFirstSettled(modes: seq<Extractor>, req: Request, clean: string -> Option<string>, k: nat)
    requires k < |modes| && DeclinedBefore(modes, k, req, clean)
    requires !Declines(modes[k], req, clean)
    ensures Resolve(modes, req, clean) == Call(modes[k], req, clean)
  {
    FoldFirstSettled(None, modes, req, clean, k);
  }

  lemma {:induction false} FoldFirstSettled(acc: Option<string>, modes: seq<Extractor>, req: Request, clean: string -> Option<string>, k: nat)
    requires !Truthy(acc)
    requires k < |modes| && DeclinedBefore(modes, k, req, clean)
    requires !Declines(modes[k], req, clean)
    ensures Fold(acc, modes, req, clean) == Call(modes[k], req, clean)
    decreases k
  {
    if k > 0 {
      assert Declines(modes[0], req, clean);
      assert DeclinedBefore(modes[1..], k - 1, req, clean) by {
        forall j | 0 <= j < k - 1 ensures Declines(modes[1..][j], req, clean) {
          assert modes[1..][j] == modes[j + 1];
        }
      }
      FoldFirstSettled(Call(modes[0], req, clean).value, modes[1..], req, clean, k - 1);
    }
  }

  /** If not every entry declines, there is a first one that does not. */
  lemma {:induction false} FirstSettled(modes: seq<Extractor>, req: Request, clean: string -> Option<string>) returns (k: nat)
    requires !DeclinedBefore(modes, |modes|, req, clean)
    ensures k < |modes| && DeclinedBefore(modes, k, req, clean) && !Declines(modes[k], req, clean)
  {
    if !Declines(modes[0], req, clean) {
      k := 0;
    } else {
      var i :| 0 <= i < |modes| && !Declines(modes[i], req, clean);
      assert modes[1..][i - 1] == modes[i];
      var k' := FirstSettled(modes[1..], req, clean);
      k := k' + 1;
      forall j | 0 <= j < k ensures Declines(modes[j], req, clean) {
        if j > 0 { assert modes[j] == modes[1..][j - 1]; }
      }
      assert modes[k] == modes[1..][k'];
    }
  }

  /** No version is requested (the result is falsy and nothing is thrown)
      exactly when every entry declines; an empty list gives `null`. */
  lemma {:induction false} ResolveUnspecified(modes: seq<Extractor>, req: Request, clean: string -> Option<string>)
    ensures DeclinedBefore(modes, |modes|, req, clean) <==>
      Resolve(modes, req, clean).Ok? && !Truthy(Resolve(modes, req, clean).value)
    ensures modes == [] ==> Resolve(modes, req, clean) == Ok(None)
  {
    if !DeclinedBefore(modes, |modes|, req, clean) {
      var k := FirstSettled(modes, req, clean);
      ResolveFirstSettled(modes, req, clean, k);
    } else {
      FoldAllDecline(None, modes, req, clean);
    }
  }

  lemma {:induction false} FoldAllDecline(acc: Option<string>, modes: seq<Extractor>, req: Request, clean: string -> Option<string>)
    requires !Truthy(acc) && DeclinedBefore(modes, |modes|, req, clean)
    ensures Fold(acc, modes, req, clean).Ok? && !Truthy(Fold(acc, modes, req, clean).value)
    decreases |modes|
  {
    if modes != [] {
      assert Declines(modes[0], req, clean);
      assert DeclinedBefore(modes[1..], |modes| - 1, req, clean) by {
        forall j | 0 <= j < |modes| - 1 ensures Declines(modes[1..][j], req, clean) {
          assert modes[1..][j] == modes[j + 1];
        }
      }
      FoldAllDecline(Call(modes[0], req, clean).value, modes[1..], req, clean);
    }
  }

  /** Once some entry settles the reduction, entries appended later are never
      consulted: `use` after that point does not change the result. */
  lemma {:induction false} ResolveIgnoresLaterEntries(modes: seq<Extractor>, rest: seq<Extractor>, req: Request, clean: string -> Option<string>)
    requires !DeclinedBefore(modes, |modes|, req, clean)
    ensures Resolve(modes + rest, req, clean) == Resolve(modes, req, clean)
  {
    var k := FirstSettled(modes, req, clean);
    ResolveFirstSettled(modes, req, clean, k);
    assert DeclinedBefore(modes + rest, k, req, clean) by {
      forall j | 0 <= j < k ensures Declines((modes + rest)[j], req, clean) {
        assert (modes + rest)[j] == modes[j];
      }
    }
    assert (modes + rest)[k] == modes[k];
    ResolveFirstSettled(modes + rest, req, clean, k);
  }

  /** When every entry of a non-empty list declines, the requested version is
      the last entry's falsy result, as `reduce` returns it, and that value is
      what a claiming gate records. */
  lemma {:induction false} ResolveAllDeclineGivesLast(modes: seq<Extractor>, req: Request, clean: string -> Option<string>)
    requires modes != [] && DeclinedBefore(modes, |modes|, req, clean)
    ensures Resolve(modes, req, clean) == Call(modes[|modes| - 1], req, clean)
  {
    var init, last := modes[..|modes| - 1], modes[|modes| - 1];
    assert modes == init + [last];
    assert DeclinedBefore(init, |init|, req, clean) by {
      forall j | 0 <= j < |init| ensures Declines(init[j], req, clean) {
        assert init[j] == modes[j];
      }
    }
    ResolveSkipsDeclining(init, [last], req, clean);
    assert Declines(last, req, clean);
    var v := Call(last, req, clean).value;
    assert [last][1..] == [];
    assert Fold(None, [last], req, clean) == Fold(v, [], req, clean);
  }

  /** Entries that all decline are transparent: the later entries supply the
      version as if the declining ones were not there. */
  lemma {:induction false} ResolveSkipsDeclining(modes: seq<Extractor>, rest: seq<Extractor>, req: Request, clean: string -> Option<string>)
    requires DeclinedBefore(modes, |modes|, req, clean) && rest != []
    ensures Resolve(modes + rest, req, clean) == Resolve(rest, req, clean)
  {
    FoldSkipsDeclining(None, modes, rest, req, clean);
  }

  lemma {:induction false} FoldSkipsDeclining(acc: Option<string>, modes: seq<Extractor>, rest: seq<Extractor>, req: Request, clean: string -> Option<string>)
    requires !Truthy(acc) && DeclinedBefore(modes, |modes|, req, clean) && rest != []
    ensures Fold(acc, modes + rest, req, clean) == Fold(None, rest, req, clean)
    decreases |modes|
  {
    if modes == [] {
      assert modes + rest == rest;
    } else {
      assert Declines(modes[0], req, clean);
      assert (modes + rest)[0] == modes[0];
      assert (modes + rest)[1..] == modes[1..] + rest;
      assert DeclinedBefore(modes[1..], |modes| - 1, req, clean) by {
        forall j | 0 <= j < |modes| - 1 ensures Declines(modes[1..][j], req, clean) {
          assert modes[1..][j] == modes[j + 1];
        }
      }
      FoldSkipsDeclining(Call(modes[0], req, clean).value, modes[1..], rest, req, clean);
    }
  }

  /** `!requested || semver.satisfies(requested, target)`. */
  function Satisfied(requested: Option<string>, target: string, lib: Library): (r: bool)
    ensures !r ==> Truthy(requested)
    ensures Truthy(requested) ==> (r <==> lib.satisfies(requested.value, target))
  {
    !Truthy(requested) || lib.satisfies(requested.value, target)
  }

  /** What a gate decides for one request. */
  datatype Step =
    | Claim(record: VersionRecord, middleware: Middleware)
    | Pass
    | Raise(error: Error)

  /** The decision of the gate body: the reduction may throw; otherwise the
      gate claims when no record exists, a middleware was given and the
      target is satisfied. */
  function Decide(view: GateView, req: Request, recorded: Option<VersionRecord>, lib: Library): (r: Step)
    ensures r.Raise? <==> Resolve(view.modes, req, lib.clean).Failure?
    ensures r.Claim? ==> recorded.None? && view.middleware == Some(r.middleware) && r.record.target == view.target
  {
    match Resolve(view.modes, req, lib.clean)
    case Failure(e) => Raise(e)
    case Ok(requested) =>
      if recorded.None? && view.middleware.Some? && Satisfied(requested, view.target, lib)
      then Claim(VersionRecord(view.target, requested), view.middleware.value)
      else Pass
  }

  /** A request without a version satisfies every target; with one,
      satisfaction is exactly `semver.satisfies`, so under a library in which
      `"*"` accepts every version the default target accepts every request. */
  lemma SatisfiedCases(requested: Option<string>, target: string, lib: Library)
    ensures !Truthy(requested) ==> Satisfied(requested, target, lib)
    ensures Truthy(requested) ==> (Satisfied(requested, target, lib) <==> lib.satisfies(requested.value, target))
    ensures WildcardAcceptsAll(lib) ==> Satisfied(requested, "*", lib)
  {
  }

  /** The claim rule, both ways: a gate claims exactly when the reduction does
      not throw, no record exists, a middleware was given and the target is
      satisfied, and the claim records the gate's target with the requested
      version; a gate throws exactly when the reduction throws. */
  lemma ClaimRule(view: GateView, req: Request, recorded: Option<VersionRecord>, lib: Library)
    ensures var requested := Resolve(view.modes, req, lib.clean);
      Decide(view, req, recorded, lib).Claim? <==>
        requested.Ok? && recorded.None? && view.middleware.Some? &&
        Satisfied(requested.value, view.target, lib)
    ensures var d := Decide(view, req, recorded, lib);
      d.Claim? ==> d.record == VersionRecord(view.target, Resolve(view.modes, req, lib.clean).value) &&
                   d.middleware == view.middleware.value
    ensures Decide(view, req, recorded, lib).Raise? <==> Resolve(view.modes, req, lib.clean).Failure?
  {
  }

  /** A gate whose extractors all decline claims any fresh request it has a
      middleware for, whatever its target. */
  lemma UnversionedGateClaims(view: GateView, req: Request, lib: Library)
    requires DeclinedBefore(view.modes, |view.modes|, req, lib.clean)
    requires view.middleware.Some?
    ensures Decide(view, req, None, lib).Claim?
  {
    ResolveUnspecified(view.modes, req, lib.clean);
  }

  /** The request-scoped state the gates and the middlewares change:
      `ctx.state.version` and the response body the middlewares append to. */
  datatype State = State(version: Option<VersionRecord>, body: seq<string>)

  /** How control leaves a gate: it continued with `next()`, the middleware it
      called ended the request, or the gate threw. */
  datatype Control = Next | Stop | Raised(error: Error)

  /** The effect of one gate on the request state. */
  function GateEffect(view: GateView, req: Request, st: State, lib: Library): (r: (Control, State))
    ensures st.version.Some? ==> r.1 == st && !r.0.Stop?
    ensures r.1 == st || (st.version.None? && r.1.version.Some? && view.middleware.Some? &&
                       r.1.body == st.body + [view.middleware.value.message])
    ensures r.0.Stop? ==> r.1 != st
    ensures r.0.Raised? ==> r.1 == st
  {
    match Decide(view, req, st.version, lib)
    case Raise(e) => (Raised(e), st)
    case Pass => (Next, st)
    case Claim(rec, h) => (if h.continues then Next else Stop, State(Some(rec), st.body + [h.message]))
  }

  /** Koa's per-request context, reduced to what the gate and the
      middlewares touch. */
  class Context {
    const request: Request
    var version: Option<VersionRecord>  // ctx.state.version
    var body: seq<string>

    constructor (request: Request)
      ensures this.request == request && version == None && body == []
    {
      this.request := request;
      version := None;
      body := [];
    }

    ghost function Snapshot(): State
      reads this
    {
      State(version, body)
    }
  }

  /** Calling a middleware `(ctx, next)`: it appends its message and either
      ends the request or continues. */
  method Invoke(h: Middleware, ctx: Context) returns (control: Control)
    modifies ctx
    ensures ctx.body == old(ctx.body) + [h.message] && ctx.version == old(ctx.version)
    ensures control == if h.continues then Next else Stop
  {
    ctx.body := ctx.body + [h.message];
    control := if h.continues then Next else Stop;
  }

  /** The body of the gate closure for one request. */
  method RunGate(g: Gate, ctx: Context, lib: Library) returns (control: Control)
    modifies ctx
    ensures (control, ctx.Snapshot()) == GateEffect(View(g), ctx.request, old(ctx.Snapshot()), lib)
  {
    var requested := Resolve(g.semver.modes.items, ctx.request, lib.clean);
    if requested.Failure? {
      return Raised(requested.error);
    }
    var satisfies := Satisfied(requested.value, g.target, lib);
    if ctx.version.None? && g.middleware.Some? && satisfies {
      ctx.version := Some(VersionRecord(g.target, requested.value));
      control := Invoke(g.middleware.value, ctx);
    } else {
      control := Next;
    }
  }
}
