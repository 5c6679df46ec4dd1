/** The context of html/njs/require.js as an object: its methods are the module methods, breakCycle, checkLoaded and the
  two entry points, a define that has arrived and a require call.
 */
module ModuleLoader {
  import opened LoaderState
  import opened LoaderEnabling
  import opened LoaderCycles
  import opened LoaderDemand

  class Context {
    var mods: seq<Mod>
    var log: seq<nat>

    /** A context in which any of the given number of names may come to be used. */
    constructor (names: nat)
      ensures Steady(mods, log) && RequestsReady(mods) && InOrder(mods, log)
      ensures |mods| == names && log == [] && Needed(mods)
      ensures forall x :: 0 <= x < names ==> !mods[x].enabled && !mods[x].request
      ensures forall x :: 0 <= x < names ==> !mods[x].created && !mods[x].inited && mods[x].listeners == []
    {
      var blank := Mod(false, [], false, false, false, false, false, false, false, false, false, 0, [], 0, []);
      mods := seq(names, _ => blank);
      log := [];
      new;
      forall x | 0 <= x < names
        ensures ModOk(mods, x)
      {
        assert mods[x] == blank;
      }
    }

    /** What holds between any two calls into the modules. */
    ghost predicate Sound()
      reads this
    {
      Consistent(mods) && LogOk(mods, log)
    }

    /** Match dependency number i of module x, once. */
    method DefineDep(x: nat, i: nat)
      requires x < |mods| && i < |mods[x].matched|
      modifies this`mods
      ensures mods == old(mods)[x := old(mods)[x].Matching(i)]
    {
      if !mods[x].matched[i] {
        mods := mods[x := mods[x].(matched := mods[x].matched[i := true], depCount := mods[x].depCount - 1)];
      } else {
        assert mods[x].matched[i := true] == mods[x].matched && mods == mods[x := mods[x]];
      }
    }

    /** Define module x if it is ready, and tell its listeners. */
    method Check(x: nat)
      requires Sound() && ReadyBut(mods, x) && x < |mods|
      modifies this
      ensures Sound() && AllReady(mods) && Progress(old(mods), old(log), mods, log)
      decreases Undefined(mods), 0
    {
      hide Consistent, LogOk, Advanced, Grounded, InOrder;
      ghost var mods0, log0 := mods, log;
      var m := mods[x];
      ProgressRefl(mods, log);
      NotDefining(mods, x);
      if !m.enabled || m.enabling {
        return;
      }
      if !m.inited {
        FetchStep(mods, log, x);
        mods := mods[x := m.(fetched := true)];
      } else if !m.defining {
        mods := mods[x := m.(defining := true)];
        if m.depCount < 1 && !m.defined {
          log := log + [x];
          mods := mods[x := mods[x].(defined := true)];
        }
        mods := mods[x := mods[x].(defining := false)];
        if mods[x].defined && !mods[x].emitted {
          mods := mods[x := mods[x].(emitted := true)];
          assert mods == mods0[x := mods0[x].(defining := false, defined := true, emitted := true)];
          DefineStep(mods0, log0, x);
          ghost var mods1, log1 := mods, log;
          Emit(x);
          ghost var mods2, log2 := mods, log;
          mods := mods[x := mods[x].(complete := true)];
          CloseStep(mods0, log0, mods1, log1, mods2, log2, x);
        } else {
          assert mods == mods0;
        }
      }
    }

    /** Call the listeners of module x. */
    method Emit(x: nat)
      requires Sound() && AllReady(mods) && x < |mods| && mods[x].defined && mods[x].emitted && !mods[x].complete
      modifies this
      ensures Sound() && AllReady(mods) && Progress(old(mods), old(log), mods, log)
      ensures x < |mods| && Told(mods, mods[x].listeners, |mods[x].listeners|)
      decreases Undefined(mods), 1
    {
      hide Consistent, LogOk, Advanced, Grounded, InOrder;
      ghost var mods0, log0 := mods, log;
      ProgressRefl(mods, log);
      var k := 0;
      while k < |mods[x].listeners|
        invariant Sound() && AllReady(mods) && Progress(mods0, log0, mods, log)
        invariant x < |mods| && mods[x].defined && mods[x].listeners == mods0[x].listeners
        invariant 0 <= k <= |mods0[x].listeners| && Told(mods, mods0[x].listeners, k)
        decreases |mods0[x].listeners| - k
      {
        var l := mods[x].listeners[k];
        ListenerFacts(mods, x, k);
        ghost var mods1, log1 := mods, log;
        NotifyStep(mods0, log0, mods, log, x, l);
        DefineDep(l.0, l.1);
        ghost var mods2 := mods;
        Check(l.0);
        ToldStep(mods1, mods2, log1, mods, log, mods0[x].listeners, k);
        ProgressTrans(mods1, log1, mods2, log1, mods, log);
        ProgressTrans(mods0, log0, mods1, log1, mods, log);
        ProgressKeeps(mods0, log0, mods, log, x);
        k := k + 1;
      }
    }

    /** Take up the next dependency of module x: count it, and listen to it or match it at once. */
    method TakeUp(x: nat)
      requires Wiring(mods, log, x)
      modifies this
      ensures TakenUp(old(mods), old(log), mods, log, x) && SameEnabled(old(mods), mods)
      decreases Idle(mods), 0
    {
      hide Consistent, LogOk, AllReady, Quiet, Spread, Grounded, InOrder, Served, Awaited, Later, Later1, SameEnabled;
      ghost var mods0, log0 := mods, log;
      var i := mods[x].wired;
      DepInTable(mods, x, i);
      TakingUp(mods, x);
      if mods[x].deps[i].On? {
        var d := mods[x].deps[i].id;
        mods := mods[x := mods[x].(wired := i + 1, depCount := mods[x].depCount + 1)];
        SameSet(mods0, x, mods[x]);
        ghost var counted := mods;
        if mods[d].defined {
          DefineDep(x, i);
          SameSet(counted, x, mods[x]);
          ServedCalm(mods0, log, x);
          ghost var mods1 := mods;
          Check(x);
          AfterCheck(mods0, log0, mods1, log0, mods, log, x);
          ProgressEnables(mods1, log0, mods, log);
          SameTrans(counted, mods1, mods);
        } else {
          mods := mods[d := mods[d].(created := true, listeners := mods[d].listeners + [(x, i)])];
          SameSet(counted, d, mods[d]);
          AwaitedCalm(mods0, log, x);
        }
        SameTrans(mods0, counted, mods);
      } else {
        mods := mods[x := mods[x].(wired := i + 1)];
        SameSet(mods0, x, mods[x]);
        ServedCalm(mods0, log, x);
      }
    }

    /** Take up the next dependency of module x, and enable it if it is not enabled. */
    method EnableDep(x: nat)
      requires Wiring(mods, log, x)
      modifies this
      ensures Calm(mods, log) && Later(old(mods), old(log), mods, log, x) && mods[x].wired == old(mods[x].wired) + 1
      ensures OnlyFrom(old(mods), mods, x)
      decreases Idle(mods), 1
    {
      hide Consistent, LogOk, AllReady, Quiet, Spread, Grounded, InOrder, Served, Awaited, Later, Later1;
      hide SameEnabled, OnlyFrom, SameDeps;
      ghost var mods0, log0 := mods, log;
      var dep := mods[x].deps[mods[x].wired];
      TakeUp(x);
      IdleLater(mods0, log0, mods, log, x);
      NothingEnabled(mods0, mods, x);
      LaterDeps(mods0, log0, mods, log, x);
      if dep.On? && mods[dep.id].InRegistry() && !mods[dep.id].enabled {
        ghost var mods2, log2 := mods, log;
        Enable(dep.id);
        LaterInner(mods2, log2, mods, log, dep.id, x);
        LaterTrans(mods0, log0, mods2, log2, mods, log, x);
        DepStays(mods0, mods2, x, dep);
        OnlyFromDep(mods2, mods, x, dep.id);
        OnlyFromTrans(mods0, mods2, mods, x);
      }
    }

    /** Enable module x: take up its dependencies in turn, then see whether it is ready. */
    method Enable(x: nat)
      requires MayEnable(mods, log, x)
      modifies this
      ensures Calm(mods, log) && Later(old(mods), old(log), mods, log, x) && mods[x].enabled
      ensures OnlyFrom(old(mods), mods, x)
      decreases Idle(mods) + (if mods[x].enabled then 1 else 0), 0
    {
      hide Consistent, LogOk, AllReady, Quiet, Spread, Grounded, InOrder, OnlyFrom, SameDeps, SameEnabled;
      ghost var mods0, log0 := mods, log;
      IdleEntered(mods, x);
      EnteredOnly(mods, x);
      mods := mods[x := mods[x].(enabled := true, enabling := true)];
      assert mods == Entered(mods0, x);
      while mods[x].wired < |mods[x].deps|
        invariant |mods| == |mods0| && Calm(mods, log) && Later(Entered(mods0, x), log0, mods, log, x)
        invariant mods[x].wired <= |mods[x].deps| && mods[x].enabling && mods[x].enabled
        invariant OnlyFrom(mods0, mods, x) && SameDeps(mods0, mods)
        decreases |mods[x].deps| - mods[x].wired
      {
        ghost var mods1, log1 := mods, log;
        WiredInited(mods, x);
        IdleLater(Entered(mods0, x), log0, mods, log, x);
        EnableDep(x);
        LaterTrans(Entered(mods0, x), log0, mods1, log1, mods, log, x);
        OnlyFromTrans(mods0, mods1, mods, x);
        LaterDeps(mods1, log1, mods, log, x);
        DepsTrans(mods0, mods1, mods);
      }
      ExitStep(mods0, log0, mods, log, x);
      ghost var mods2 := mods;
      mods := mods[x := mods[x].(enabling := false)];
      ghost var mods3, log3 := mods, log;
      Check(x);
      AfterCheck(mods0, log0, mods3, log3, mods, log, x);
      ProgressEnables(mods3, log3, mods, log);
      OnlyFromEnds(mods0, mods2, mods3, mods, x);
    }

    /** The define of module x has arrived, or its require call has been made. */
    method Init(x: nat, deps: seq<Dep>, enable: bool)
      requires Steady(mods, log) && x < |mods| && mods[x].created
      requires forall i :: 0 <= i < |deps| && deps[i].On? ==> deps[i].id < |mods|
      modifies this
      ensures Steady(mods, log) && Follows(old(mods), old(log), mods, log)
      ensures old(InOrder(mods, log)) ==> InOrder(mods, log)
      ensures mods[x].inited && (!old(mods[x].inited) ==> mods[x].deps == deps && (enable ==> mods[x].enabled))
      ensures OnlyArrives(old(mods), mods, x)
      ensures !enable && !old(mods[x].enabled) ==> SameEnabled(old(mods), mods)
      ensures forall y :: 0 <= y < |mods| && mods[y].enabled && !old(mods)[y].enabled ==> Reach(mods, x, y)
    {
      hide Consistent, LogOk, AllReady, Quiet, Spread, Grounded, InOrder, Reach, Follows, OnlyArrives;
      FollowsRefl(mods, log);
      SameRefl(mods, x);
      if mods[x].inited {
        return;
      }
      ghost var mods0, log0 := mods, log;
      InitFrame(mods, log, x, deps);
      InitStep(mods, log, x, deps, enable || mods[x].enabled);
      mods := mods[x := mods[x].(deps := deps, matched := seq(|deps|, _ => false), inited := true)];
      assert mods[x] == Initialised(mods0[x], deps);
      ghost var mods1, log1 := mods, log;
      ArrivalFollows(mods0, log0, x, deps);
      if enable || mods[x].enabled {
        Enable(x);
        LaterDeps(mods1, log1, mods, log, x);
        ReachesLater(mods1, mods, x);
      } else {
        AllReadyBut(mods, x);
        Check(x);
        ProgressLater(mods1, log1, mods, log, x);
        ProgressCalm(mods1, log1, mods, log);
        ProgressEnables(mods1, log1, mods, log);
      }
      LaterFollows(mods0, mods1, log1, mods, log, x);
      FollowsTrans(mods0, log0, mods1, log1, mods, log);
    }

    /** A script has called define for module x. */
    method Define(x: nat, deps: seq<Dep>)
      requires Steady(mods, log) && x < |mods|
      requires forall i :: 0 <= i < |deps| && deps[i].On? ==> deps[i].id < |mods|
      modifies this
      ensures Steady(mods, log) && Follows(old(mods), old(log), mods, log)
      ensures old(InOrder(mods, log)) ==> InOrder(mods, log)
      ensures mods[x].inited && (!old(mods[x].inited) ==> mods[x].deps == deps)
      ensures old(RequestsReady(mods)) ==> RequestsReady(mods)
      ensures OnlyArrives(old(mods), mods, x)
      ensures !old(mods[x].enabled) ==> SameEnabled(old(mods), mods)
      ensures old(Needed(mods)) ==> Needed(mods)
    {
      hide Steady, InOrder, Needed, Reach, Follows, RequestsReady, SameEnabled, OnlyArrives;
      ghost var mods0, log0 := mods, log;
      DefinedInited(mods, log, x);
      FollowsRefl(mods, log);
      SameRefl(mods, x);
      if !mods[x].defined {
        CreateStep(mods, log, x, mods[x].request);
        mods := mods[x := mods[x].(created := true)];
        ghost var mods1 := mods;
        Init(x, deps, false);
        FollowsArrival(mods0, log0, mods, log, x);
        DefineEnds(mods0, mods1, log0, mods, log, x);
      }
    }

    /** A require call for deps; x is the name made up for it. */
    method Require(x: nat, deps: seq<Dep>)
      requires Steady(mods, log) && x < |mods| && !mods[x].created
      requires forall i :: 0 <= i < |deps| && deps[i].On? ==> deps[i].id < |mods|
      modifies this
      ensures Steady(mods, log) && Follows(old(mods)[x := Created(old(mods)[x], true)], old(log), mods, log)
      ensures old(InOrder(mods, log)) ==> InOrder(mods, log)
      ensures mods[x].request && mods[x].inited && mods[x].enabled && mods[x].deps == deps
      ensures old(RequestsReady(mods)) ==> RequestsReady(mods)
      ensures OnlyArrives(old(mods), mods, x)
      ensures old(Needed(mods)) ==> Needed(mods)
    {
      hide Steady, InOrder, Follows, Needed, Reach;
      ghost var mods0 := mods;
      DefinedInited(mods, log, x);
      CreateStep(mods, log, x, true);
      mods := mods[x := mods[x].(created := true, request := true)];
      ghost var mods1, log1 := mods, log;
      Init(x, deps, true);
      FollowsDefined(mods1, log1, mods, log);
      RequireDemands(mods0, mods1, log1, mods, log, x);
      if RequestsReady(mods0) {
        FollowsRequests(mods1, log1, mods, log, {x});
      }
    }

    /** Break the cycles reached from module x: a dependency that is being traced is matched as if it were defined. */
    method BreakCycle(x: nat, traced: set<nat>, processed: set<nat>, ghost R: set<nat>)
      returns (traced': set<nat>, processed': set<nat>)
      requires Breaking(mods, log, R, traced, processed) && x in R && x !in traced
      modifies this
      ensures Breaking(mods, log, R, traced', processed') && Grew(old(mods), old(log), mods, log)
      ensures traced + {x} <= traced' && processed + {x} <= processed' && traced' - traced <= processed'
      decreases R - traced
    {
      hide Consistent, LogOk, AllReady, Quiet, Grounded;
      ghost var mods0, log0 := mods, log;
      traced', processed' := traced + {x}, processed;
      GroundedMore(mods, traced, traced');
      MatchedWidth(mods, x);
      var i := 0;
      while i < |mods[x].deps|
        invariant Breaking(mods, log, R, traced', processed') && Grew(mods0, log0, mods, log)
        invariant traced + {x} <= traced' && processed <= processed' && traced' - traced - {x} <= processed'
        invariant i <= |mods[x].deps| && mods[x].deps == mods0[x].deps && MatchedTo(mods[x], i)
        decreases |mods0[x].deps| - i
      {
        ghost var mods1, log1 := mods, log;
        UnmatchedDep(mods, log, R, traced', processed', x, i);
        if mods[x].deps[i].On? {
          var d := mods[x].deps[i].id;
          if mods[d].InRegistry() && !mods[x].matched[i] && d !in processed' {
            if d in traced' {
              ForceStep(mods, log, R, traced', processed', x, i);
              DefineDep(x, i);
              ghost var mods2 := mods;
              Check(x);
              ForcedStep(mods1, mods2, log1, mods, log, R, traced', processed', x, i);
            } else {
              traced', processed' := BreakCycle(d, traced', processed', R);
              MatchedStep(mods1, log1, mods, log, R, traced', processed', x, i);
            }
          }
        }
        i := i + 1;
      }
      AllMatched(mods, log, R, traced', processed', x);
      processed' := processed' + {x};
    }

    /** See what is still loading; if nothing is, break the cycles that keep require calls waiting. */
    method CheckLoaded() returns (stillLoading: bool)
      requires Steady(mods, log) && RequestsReady(mods)
      modifies this
      ensures Steady(mods, log) && Follows(old(mods), old(log), mods, log) && RequestsReady(mods)
      ensures OnlyArrives(old(mods), mods, -1)
      ensures stillLoading <==> exists y :: 0 <= y < |old(mods)| && old(mods)[y].enabled && !old(mods)[y].inited
      ensures stillLoading ==> mods == old(mods) && log == old(log)
      ensures !stillLoading ==> forall y :: 0 <= y < |mods| && mods[y].request ==> mods[y].defined
      ensures (forall y :: 0 <= y < |old(mods)| && old(mods)[y].enabled ==> old(mods)[y].defined) ==>
          mods == old(mods) && log == old(log)
      ensures SameEnabled(old(mods), mods) && (old(Needed(mods)) ==> Needed(mods))
    {
      hide Steady, Follows, Breaking, Grew, Needed;
      ghost var mods0, log0 := mods, log;
      var reqCalls: seq<nat> := [];
      stillLoading := false;
      for x := 0 to |mods|
        invariant mods == mods0 && log == log0
        invariant forall k :: 0 <= k < |reqCalls| ==>
            reqCalls[k] < |mods| && mods[reqCalls[k]].enabled && !mods[reqCalls[k]].defined
        invariant forall y :: 0 <= y < x && mods[y].request ==> mods[y].defined || y in reqCalls
        invariant stillLoading <==> exists y :: 0 <= y < x && mods[y].enabled && !mods[y].inited
      {
        if mods[x].enabled {
          StillLoading(mods, log, x);
        }
        if mods[x].InRegistry() && mods[x].enabled {
          if mods[x].request {
            reqCalls := reqCalls + [x];
          }
          if !mods[x].inited && mods[x].fetched && !mods[x].request {
            stillLoading := true;
          }
        }
      }
      FollowsRefl(mods, log);
      if !stillLoading {
        NothingLoading(mods, log);
        ghost var R := EnabledSet(mods);
        var k := 0;
        while k < |reqCalls|
          invariant Steady(mods, log) && Follows(mods0, log0, mods, log) && |mods| == |mods0|
          invariant k <= |reqCalls| && Breaking(mods, log, R, {}, {}) && OnlyArrives(mods0, mods, -1)
          invariant forall j :: 0 <= j < k ==> mods[reqCalls[j]].defined
          invariant k == 0 ==> mods == mods0 && log == log0
          invariant SameEnabled(mods0, mods) && SameDeps(mods0, mods)
        {
          ghost var mods1, log1 := mods, log;
          var traced, processed := BreakCycle(reqCalls[k], {}, {}, R);
          BreakDone(mods1, log1, mods, log, R, traced, processed);
          GrewEnables(mods1, log1, mods, log);
          ProcessedDefined(mods, log, R, traced, processed, reqCalls[k]);
          FollowsTrans(mods0, log0, mods1, log1, mods, log);
          FollowsDefined(mods1, log1, mods, log);
          k := k + 1;
        }
        FollowsDefined(mods0, log0, mods, log);
        assert reqCalls != [] ==> mods0[reqCalls[0]].enabled && !mods0[reqCalls[0]].defined;
      }
      FollowsRequests(mods0, log0, mods, log, {});
      FollowsDefined(mods0, log0, mods, log);
      SameNeeded(mods0, mods);
    }
  }
}
