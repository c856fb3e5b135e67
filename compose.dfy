/** A chain of version gates run for one request, as Koa runs its middleware:
    each gate either continues with `next()`, hands the request to its
    middleware, or throws. */
module Compose {
  import opened Wrappers
  import opened Koa
  import opened Semver
  import opened Handlers
  import opened KoaSemver

  /** How a request leaves the chain: every link continued (Koa then falls
      back to its default response), a middleware ended it, or a gate threw. */
  datatype Outcome = FellThrough | Stopped | Threw(error: Error)

  /** The gates `views`, in order, on one request. */
  function Chain(views: seq<GateView>, req: Request, st: State, lib: Library): (r: (Outcome, State))
    ensures r.0 == Stopped ==> st.version.None? && r.1.version.Some?
    decreases |views|
  {
    if views == [] then (FellThrough, st)
    else
      var eff := GateEffect(views[0], req, st, lib);
      match eff.0
      case Raised(e) => (Threw(e), eff.1)
      case Stop => (Stopped, eff.1)
      case Next => Chain(views[1..], req, eff.1, lib)
  }

  /** What each gate of `gates` sees in the current heap. */
  ghost function Views(gates: seq<Gate>): (vs: seq<GateView>)
    reads set g | g in gates :: g.semver
    reads set g | g in gates :: g.semver.modes
    ensures |vs| == |gates|
    ensures forall i :: 0 <= i < |gates| ==> vs[i] == View(gates[i])
  {
    if gates == [] then [] else [View(gates[0])] + Views(gates[1..])
  }

  /** The dispatcher: runs the gates in order until one ends the request or
      throws. */
  method Serve(gates: seq<Gate>, ctx: Context, lib: Library) returns (outcome: Outcome)
    modifies ctx
    ensures (outcome, ctx.Snapshot()) == Chain(Views(gates), ctx.request, old(ctx.Snapshot()), lib)
  {
    ghost var views := Views(gates);
    var i := 0;
    while i < |gates|
      invariant 0 <= i <= |gates|
      invariant Views(gates) == views
      invariant Chain(views[i..], ctx.request, ctx.Snapshot(), lib) == Chain(views, ctx.request, old(ctx.Snapshot()), lib)
    {
      assert views[i..][0] == views[i] && views[i..][1..] == views[i + 1..];
      var control := RunGate(gates[i], ctx, lib);
      match control
      case Raised(e) =>
        return Threw(e);
      case Stop =>
        return Stopped;
      case Next =>
        i := i + 1;
    }
    outcome := FellThrough;
  }

  /** Once a record exists, every gate passes the request on: the state is
      left as it was and no middleware runs. */
  lemma {:induction false} RecordedRequestPassesThrough(views: seq<GateView>, req: Request, st: State, lib: Library)
    requires st.version.Some?
    ensures Chain(views, req, st, lib).1 == st
    ensures Chain(views, req, st, lib).0 != Stopped
    ensures (forall j :: 0 <= j < |views| ==> Resolve(views[j].modes, req, lib.clean).Ok?) ==>
      Chain(views, req, st, lib).0 == FellThrough
    decreases |views|
  {
    if views != [] {
      forall j | 0 <= j < |views| - 1 ensures views[1..][j] == views[j + 1] { }
      RecordedRequestPassesThrough(views[1..], req, st, lib);
    }
  }

  /** At most one gate dispatches per request, even when the middleware it
      calls continues with `next()`: the body grows by at most one message,
      and any change means this request had no record and now has one. */
  lemma {:induction false} AtMostOneClaim(views: seq<GateView>, req: Request, st: State, lib: Library)
    ensures var fin := Chain(views, req, st, lib).1;
      st.body <= fin.body && |fin.body| <= |st.body| + 1
    ensures var fin := Chain(views, req, st, lib).1;
      fin != st ==> st.version.None? && fin.version.Some? && |fin.body| == |st.body| + 1
    decreases |views|
  {
    if views != [] {
      var eff := GateEffect(views[0], req, st, lib);
      if eff.1 == st {
        AtMostOneClaim(views[1..], req, st, lib);
      } else if eff.0.Next? {
        RecordedRequestPassesThrough(views[1..], req, eff.1, lib);
      }
    }
  }

  /** If every gate before `k` passes a fresh request on and gate `k` claims it,
      gate `k`'s claim is the one that stands: its record and its middleware's
      message are the final state, and the request ends there unless that
      middleware continues. */
  lemma {:induction false} FirstClaimStands(views: seq<GateView>, req: Request, st: State, lib: Library, k: nat)
    requires st.version.None? && k < |views|
    requires forall j :: 0 <= j < k ==> Decide(views[j], req, None, lib).Pass?
    requires Decide(views[k], req, None, lib).Claim?
    ensures var d := Decide(views[k], req, None, lib);
      Chain(views, req, st, lib).1 == State(Some(d.record), st.body + [d.middleware.message])
    ensures Chain(views, req, st, lib).0 == Stopped <==> !Decide(views[k], req, None, lib).middleware.continues
    ensures (Decide(views[k], req, None, lib).middleware.continues &&
             forall j :: k < j < |views| ==> Resolve(views[j].modes, req, lib.clean).Ok?) ==>
      Chain(views, req, st, lib).0 == FellThrough
    decreases k
  {
    if k == 0 {
      var d := Decide(views[0], req, None, lib);
      if d.middleware.continues {
        forall j | 0 <= j < |views| - 1 ensures views[1..][j] == views[j + 1] { }
        RecordedRequestPassesThrough(views[1..], req, State(Some(d.record), st.body + [d.middleware.message]), lib);
      }
    } else {
      assert Decide(views[0], req, None, lib).Pass?;
      forall j | 0 <= j < |views| - 1 ensures views[1..][j] == views[j + 1] { }
      forall j | 0 <= j < k - 1 ensures Decide(views[1..][j], req, None, lib).Pass? {
        assert views[1..][j] == views[j + 1];
      }
      assert views[1..][k - 1] == views[k];
      FirstClaimStands(views[1..], req, st, lib, k - 1);
    }
  }

  /** Every gate built from one `KoaSemver` object reads the same list. */
  ghost predicate ShareModes(views: seq<GateView>, modes: seq<Extractor>) {
    forall j :: 0 <= j < |views| ==> views[j].modes == modes
  }

  /** Gates built from one `KoaSemver` object, on a fresh request whose version
      resolves without an exception: the first gate that has a middleware and
      whose target is satisfied claims the request, and no other does. */
  lemma FirstSatisfyingGateWins(views: seq<GateView>, modes: seq<Extractor>, req: Request, st: State, lib: Library, k: nat)
    requires ShareModes(views, modes) && Resolve(modes, req, lib.clean).Ok?
    requires st.version.None? && k < |views|
    requires var requested := Resolve(modes, req, lib.clean).value;
      forall j :: 0 <= j < k ==> views[j].middleware.None? || !Satisfied(requested, views[j].target, lib)
    requires views[k].middleware.Some? && Satisfied(Resolve(modes, req, lib.clean).value, views[k].target, lib)
    ensures Chain(views, req, st, lib).1 ==
      State(Some(VersionRecord(views[k].target, Resolve(modes, req, lib.clean).value)),
            st.body + [views[k].middleware.value.message])
    ensures Chain(views, req, st, lib).0 == Stopped <==> !views[k].middleware.value.continues
    ensures views[k].middleware.value.continues ==> Chain(views, req, st, lib).0 == FellThrough
  {
    FirstClaimStands(views, req, st, lib, k);
  }

  /** With no version in the request, the first gate that has a middleware
      claims it, whatever its target. */
  lemma UnversionedRequestTakesFirstGate(views: seq<GateView>, modes: seq<Extractor>, req: Request, st: State, lib: Library, k: nat)
    requires ShareModes(views, modes) && DeclinedBefore(modes, |modes|, req, lib.clean)
    requires st.version.None? && k < |views|
    requires forall j :: 0 <= j < k ==> views[j].middleware.None?
    requires views[k].middleware.Some?
    ensures Resolve(modes, req, lib.clean).Ok? && !Truthy(Resolve(modes, req, lib.clean).value)
    ensures Chain(views, req, st, lib).1 ==
      State(Some(VersionRecord(views[k].target, Resolve(modes, req, lib.clean).value)),
            st.body + [views[k].middleware.value.message])
  {
    ResolveUnspecified(modes, req, lib.clean);
    FirstSatisfyingGateWins(views, modes, req, st, lib, k);
  }

  /** When no gate both has a middleware and accepts the requested version,
      the request falls through the chain untouched. */
  lemma {:induction false} NoSatisfyingGateFallsThrough(views: seq<GateView>, modes: seq<Extractor>, req: Request, st: State, lib: Library)
    requires ShareModes(views, modes) && Resolve(modes, req, lib.clean).Ok?
    requires var requested := Resolve(modes, req, lib.clean).value;
      forall j :: 0 <= j < |views| ==> views[j].middleware.None? || !Satisfied(requested, views[j].target, lib)
    ensures Chain(views, req, st, lib) == (FellThrough, st)
    decreases |views|
  {
    if views != [] {
      assert Decide(views[0], req, st.version, lib).Pass?;
      forall j | 0 <= j < |views| - 1 ensures views[1..][j] == views[j + 1] { }
      NoSatisfyingGateFallsThrough(views[1..], modes, req, st, lib);
    }
  }
}
