/** The reloader's cached configuration and the embedded loader, with Caddy as a cell
    that a successful load overwrites and a failed one leaves alone. */
module Reload {
  import opened Prelude
  import opened Text

  predicate HasLoadableRoute(cfg: string) { Contains(cfg, "reverse_proxy") || Contains(cfg, "\"layer4\"") }

  predicate ShouldLoad(started: bool, cfg: string) { started || HasLoadableRoute(cfg) }

  datatype View = View(lastCfg: string, started: bool, running: Option<string>)

  /** What the builder and Caddy do in one rebuild. */
  datatype Attempt = Attempt(built: Option<string>, force: bool, accepted: bool)

  function Loaded(v: View, a: Attempt, cfg: string): (r: (View, bool)) {
    if !ShouldLoad(v.started, cfg) then (v, true)
    else if !a.accepted then (v, false)
    else (v.(started := true, running := Some(cfg)), true)
  }

  /** The view after a rebuild, and whether it returned nil. */
  function Rebuilt(v: View, a: Attempt): (View, bool) {
    if a.built.None? then (v, false)
    else
      var cfg := a.built.value;
      if cfg == v.lastCfg && !a.force then (v, true)
      else
        var (u, ok) := Loaded(v, a, cfg);
        if ok then (u.(lastCfg := cfg), true) else (u, false)
  }

  /** Caddy runs the cached configuration, or has not started and nothing was worth loading. */
  predicate InStep(v: View) {
    if v.started then v.running == Some(v.lastCfg) else v.running == None && !HasLoadableRoute(v.lastCfg)
  }

  lemma RebuildKeepsStep(v: View, a: Attempt)
    requires InStep(v)
    ensures var (u, ok) := Rebuilt(v, a);
            && InStep(u) && (v.started ==> u.started)
            && (ok ==> a.built == Some(u.lastCfg))
            && (!ok ==> u == v)
            && (ok && HasLoadableRoute(a.built.value) ==> u.started)
  {
  }

  const FRESH := View("", false, None)

  function RunOf(v: View, run: seq<Attempt>): View {
    if run == [] then v else Rebuilt(RunOf(v, run[..|run| - 1]), run[|run| - 1]).0
  }

  lemma {:induction false} RunKeepsStep(run: seq<Attempt>)
    ensures InStep(RunOf(FRESH, run))
    decreases run
  {
    if run != [] {
      RunKeepsStep(run[..|run| - 1]);
      RebuildKeepsStep(RunOf(FRESH, run[..|run| - 1]), run[|run| - 1]);
    }
  }

  /** Over any run with failures anywhere: a rebuild that returns nil leaves Caddy running
      exactly what was built, once any earlier rebuild accepted a forwarding route. In
      particular the configuration that deletes the last route is loaded. Until then
      Caddy runs nothing, and nothing that was accepted had a forwarding route. */
  lemma NilMeansRunning(before: seq<Attempt>, a: Attempt)
    requires var v := RunOf(FRESH, before); Rebuilt(v, a).1
    ensures var v, u := RunOf(FRESH, before), RunOf(FRESH, before + [a]);
            && a.built == Some(u.lastCfg)
            && (v.started || HasLoadableRoute(u.lastCfg) ==> u.started && u.running == a.built)
            && (!u.started ==> u.running == None && !HasLoadableRoute(u.lastCfg))
  {
    RunKeepsStep(before);
    RebuildKeepsStep(RunOf(FRESH, before), a);
    assert (before + [a])[..|before|] == before;
  }

  /** Caddy is started exactly when some rebuild of the run accepted a forwarding route. */
  lemma {:induction false} StartedIff(run: seq<Attempt>)
    ensures RunOf(FRESH, run).started <==>
            exists i :: 0 <= i < |run| && Accepts(run, i)
    decreases run
  {
    if run != [] {
      var n := |run| - 1;
      var v, a := RunOf(FRESH, run[..n]), run[n];
      StartedIff(run[..n]);
      RunKeepsStep(run[..n]);
      RebuildKeepsStep(v, a);
      forall i | 0 <= i < n ensures Accepts(run, i) == Accepts(run[..n], i) {
        assert run[..n][..i] == run[..i];
      }
      assert Accepts(run, n) <==> Rebuilt(v, a).1 && HasLoadableRoute(a.built.value);
    }
  }

  predicate Accepts(run: seq<Attempt>, i: nat)
    requires i < |run|
  {
    run[i].built.Some? && HasLoadableRoute(run[i].built.value) && Rebuilt(RunOf(FRESH, run[..i]), run[i]).1
  }

  /** Caddy and the embedded loader's `started` flag. */
  class Loader {
    var started: bool
    var running: Option<string>

    constructor ()
      ensures !started && running == None
    {
      started, running := false, None;
    }

    method Load(cfg: string, accepted: bool) returns (ok: bool)
      modifies this
      ensures ok == (accepted || !ShouldLoad(old(started), cfg))
      ensures if ok && ShouldLoad(old(started), cfg) then started && running == Some(cfg)
              else started == old(started) && running == old(running)
    {
      if !ShouldLoad(started, cfg) {
        return true;
      }
      if !accepted {
        return false;
      }
      running := Some(cfg);
      if !started {
        started := true;
      }
      return true;
    }
  }

  class Reloader {
    const loader: Loader
    var lastCfg: string
    var rebuilds: nat
    var loads: nat

    ghost function State(): View
      reads this, loader
    {
      View(lastCfg, loader.started, loader.running)
    }

    constructor (loader: Loader)
      ensures this.loader == loader && lastCfg == "" && rebuilds == 0 && loads == 0
    {
      this.loader := loader;
      lastCfg, rebuilds, loads := "", 0, 0;
    }

    /** Build, compare, load, remember: the sequence the mutex serialises. */
    method Rebuild(a: Attempt) returns (ok: bool)
      modifies this, loader
      ensures (State(), ok) == Rebuilt(old(State()), a)
      ensures rebuilds == old(rebuilds) + 1
      ensures loads == old(loads) + if ok && (a.force || a.built != Some(old(lastCfg))) then 1 else 0
    {
      rebuilds := rebuilds + 1;
      if a.built.None? {
        return false;
      }
      var cfg := a.built.value;
      if cfg == lastCfg && !a.force {
        return true;
      }
      var loaded := loader.Load(cfg, a.accepted);
      if !loaded {
        return false;
      }
      lastCfg := cfg;
      loads := loads + 1;
      return true;
    }
  }
}
