/** Any sequence of define and require calls and checks, on one context of html/njs/require.js. */
module LoaderRuns {
  import opened LoaderState
  import opened LoaderEnabling
  import opened LoaderCycles
  import opened LoaderDemand
  import opened ModuleLoader

  /** A define that has arrived for a module, a require call, or a run of checkLoaded. */
  datatype Call = Define(x: nat, deps: seq<Dep>) | Require(deps: seq<Dep>) | CheckLoaded

  predicate DepsBelow(deps: seq<Dep>, names: nat) {
    forall i :: 0 <= i < |deps| && deps[i].On? ==> deps[i].id < names
  }

  /** Calls name modules among the first so many; a require call makes up a name of its own. */
  predicate CallOk(c: Call, names: nat) {
    match c
    case Define(x, deps) => x < names && DepsBelow(deps, names)
    case Require(deps) => DepsBelow(deps, names)
    case CheckLoaded => true
  }

  /** The dependencies that calls have given module x: its first define counts. Name names + k is that of require call
    number k, counting from the first call. */
  function DepsGiven(calls: seq<Call>, names: nat, x: nat): (r: Given)
    ensures r.Nothing? <==> forall k :: 0 <= k < |calls| ==> !Names(calls[k], names + k, x)
  {
    if calls == [] then Nothing
    else
      var k := |calls| - 1;
      var r := DepsGiven(calls[..k], names, x);
      if r.These? || !Names(calls[k], names + k, x) then r else These(calls[k].deps)
  }

  datatype Given = Nothing | These(deps: seq<Dep>)

  /** The call is about module x; made is the name it would make up. */
  predicate Names(c: Call, made: nat, x: nat) {
    match c
    case Define(y, _) => y == x
    case Require(_) => made == x
    case CheckLoaded => false
  }

  /** What the modules have after some calls is what the calls have given them. */
  ghost predicate AsGiven(mods: seq<Mod>, calls: seq<Call>, names: nat) {
    forall x :: 0 <= x < |mods| ==>
      var g := DepsGiven(calls, names, x);
      (mods[x].inited <==> g.These?) && (g.These? ==> mods[x].deps == g.deps && DepsBelow(g.deps, names))
  }

  /** A made-up name that has not been used is unknown. */
  ghost predicate Unused(mods: seq<Mod>, from: nat) {
    forall x :: from <= x < |mods| ==> !mods[x].created && mods[x].listeners == []
  }

  lemma GivenStep(calls: seq<Call>, k: nat, names: nat, x: nat)
    requires k < |calls|
    ensures DepsGiven(calls[..k + 1], names, x) ==
      var r := DepsGiven(calls[..k], names, x);
      if r.These? || !Names(calls[k], names + k, x) then r else These(calls[k].deps)
  {
    assert calls[..k + 1][..k] == calls[..k];
  }

  /** One more call keeps the modules as given. */
  lemma GivenKept(a: seq<Mod>, la: seq<nat>, b: seq<Mod>, lb: seq<nat>, calls: seq<Call>, k: nat, names: nat, x: int)
    requires k < |calls| && CallOk(calls[k], names) && AsGiven(a, calls[..k], names) && |a| == |b| && x < |a|
    requires forall y :: 0 <= y < |a| && a[y].inited ==> b[y].inited && b[y].deps == a[y].deps
    requires OnlyArrives(a, b, x)
    requires if calls[k].CheckLoaded? then x == -1 else x >= 0 && Names(calls[k], names + k, x) && b[x].inited
    requires !calls[k].CheckLoaded? && !a[x].inited ==> b[x].deps == calls[k].deps
    ensures AsGiven(b, calls[..k + 1], names)
  {
    forall y | 0 <= y < |b|
      ensures var g := DepsGiven(calls[..k + 1], names, y);
              (b[y].inited <==> g.These?) && (g.These? ==> b[y].deps == g.deps && DepsBelow(g.deps, names))
    {
      GivenStep(calls, k, names, y);
    }
  }

  /** Only names that calls mention become known. */
  lemma UnusedKept(a: seq<Mod>, la: seq<nat>, b: seq<Mod>, lb: seq<nat>, calls: seq<Call>, k: nat, names: nat)
    requires Steady(b, lb) && AsGiven(b, calls, names) && Unused(a, k) && |a| == |b| && names <= k
    requires forall y :: k <= y < |a| ==> !b[y].inited && (b[y].created ==> b[y].listeners != [])
    ensures Unused(b, k)
  {
    forall y | k <= y < |b|
      ensures b[y].listeners == []
    {
      if b[y].listeners != [] {
        NoListener(b, lb, calls, names, y);
      }
    }
  }

  /** A module that has a listener is a dependency, so it is among the names that calls mention. */
  lemma NoListener(mods: seq<Mod>, log: seq<nat>, calls: seq<Call>, names: nat, y: nat)
    requires Steady(mods, log) && AsGiven(mods, calls, names) && y < |mods| && mods[y].listeners != []
    ensures y < names
  {
    assert ModOk(mods, y);
    var l := mods[y].listeners[0];
    assert ListenerOk(mods, y, l);
    assert ModOk(mods, l.0);
    assert DepsGiven(calls, names, l.0).These?;
  }

  /** The dependencies that calls have given go down in rank: there is no cycle. */
  ghost predicate RankedCalls(calls: seq<Call>, names: nat, rank: nat -> nat) {
    forall x: nat :: DepsGiven(calls, names, x).These? ==> DepsRanked(DepsGiven(calls, names, x).deps, rank, rank(x))
  }

  ghost predicate DepsRanked(deps: seq<Dep>, rank: nat -> nat, top: nat) {
    forall i :: 0 <= i < |deps| && deps[i].On? ==> rank(deps[i].id) < top
  }

  /** What has been given stays given. */
  lemma {:induction false} GivenStays(calls: seq<Call>, k: nat, names: nat, x: nat)
    requires k <= |calls| && DepsGiven(calls[..k], names, x).These?
    ensures DepsGiven(calls, names, x) == DepsGiven(calls[..k], names, x)
    decreases |calls|
  {
    if k == |calls| {
      assert calls[..k] == calls;
    } else {
      assert calls[..|calls| - 1][..k] == calls[..k];
      GivenStays(calls[..|calls| - 1], k, names, x);
    }
  }

  lemma RankedPrefix(calls: seq<Call>, k: nat, names: nat, rank: nat -> nat)
    requires k <= |calls| && RankedCalls(calls, names, rank)
    ensures RankedCalls(calls[..k], names, rank)
  {
    forall x: nat | DepsGiven(calls[..k], names, x).These?
      ensures DepsGiven(calls, names, x) == DepsGiven(calls[..k], names, x)
    {
      GivenStays(calls, k, names, x);
    }
  }

  /** Without cycles a check finds something that is still loading, or everything defined: either way it changes
    nothing. */
  lemma NothingToBreak(mods: seq<Mod>, log: seq<nat>, calls: seq<Call>, names: nat, rank: nat -> nat)
    requires Steady(mods, log) && AsGiven(mods, calls, names) && RankedCalls(calls, names, rank)
    ensures (exists y :: 0 <= y < |mods| && mods[y].enabled && !mods[y].inited)
            || forall y :: 0 <= y < |mods| && mods[y].enabled ==> mods[y].defined
  {
    hide Steady;
    if forall y :: 0 <= y < |mods| && mods[y].enabled ==> mods[y].inited {
      NothingLoading(mods, log);
      var R := EnabledSet(mods);
      forall y, i | y in R && y < |mods| && 0 <= i < |mods[y].deps| && mods[y].deps[i].On?
        ensures rank(mods[y].deps[i].id) < rank(y)
      {
        assert DepsRanked(DepsGiven(calls, names, y).deps, rank, rank(y));
      }
      forall y | 0 <= y < |mods| && mods[y].enabled
        ensures mods[y].defined
      {
        AcyclicDefined(mods, log, R, rank, y);
      }
    }
  }

  /** Any sequence of calls on a new context, and a last checkLoaded. Each factory ran exactly once if its module is
    defined and never otherwise; what a defined module depends on, at any distance, is defined; modules have the
    dependencies of their first define; without cycles each factory ran after those of its dependencies, and so it did
    as long as no check had found everything loaded; if nothing is still loading, every require call has been served;
    and only the factories of modules that a require call needs, at some distance, have run. */
  method Replay(names: nat, calls: seq<Call>, ghost rank: nat -> nat) returns (c: Context, stillLoading: bool)
    requires forall k :: 0 <= k < |calls| ==> CallOk(calls[k], names)
    ensures fresh(c) && |c.mods| == names + |calls| && AsGiven(c.mods, calls, names)
    ensures forall x: nat :: x < |c.mods| ==> multiset(c.log)[x] == if c.mods[x].defined then 1 else 0
    ensures forall p, k :: Path(c.mods, p) && c.mods[p[0]].defined && 0 <= k < |p| ==> c.mods[p[k]].defined
    ensures stillLoading ==> exists y :: 0 <= y < |c.mods| && c.mods[y].enabled && DepsGiven(calls, names, y).Nothing?
    ensures !stillLoading ==> forall k :: 0 <= k < |calls| && calls[k].Require? ==> c.mods[names + k].defined
    ensures forall x :: x in c.log ==> exists k: nat :: k < |calls| && calls[k].Require? && Reach(c.mods, names + k, x)
    ensures RankedCalls(calls, names, rank) ==> InOrder(c.mods, c.log)
    ensures stillLoading && (forall k :: 0 <= k < |calls| ==> !calls[k].CheckLoaded?) ==> InOrder(c.mods, c.log)
  {
    hide Steady, Follows, InOrder, OnlyArrives, AsGiven, RankedCalls, Needed, Reach, OnlyRequired;
    c := new Context(names + |calls|);
    NothingGiven(c.mods, names);
    NoneRequired(c.mods, calls, names);
    for k := 0 to |calls|
      invariant fresh(c) && |c.mods| == names + |calls| && Steady(c.mods, c.log) && RequestsReady(c.mods)
      invariant AsGiven(c.mods, calls[..k], names) && Unused(c.mods, names + k)
      invariant forall j :: 0 <= j < k && calls[j].Require? ==> c.mods[names + j].request
      invariant (forall j :: 0 <= j < k ==> !calls[j].CheckLoaded?) ==> InOrder(c.mods, c.log)
      invariant RankedCalls(calls, names, rank) ==> InOrder(c.mods, c.log)
      invariant Needed(c.mods) && OnlyRequired(c.mods, calls, names, k)
    {
      if RankedCalls(calls, names, rank) {
        RankedPrefix(calls, k, names, rank);
      }
      MakeCall(c, names, calls, k, rank);
    }
    assert calls[..|calls|] == calls;
    ghost var mods, log := c.mods, c.log;
    if RankedCalls(calls, names, rank) {
      NothingToBreak(mods, log, calls, names, rank);
    }
    stillLoading := c.CheckLoaded();
    GivenAtEnd(mods, log, c.mods, c.log, calls, names, stillLoading);
    FollowsDefined(mods, log, c.mods, c.log);
    EndFacts(c.mods, c.log);
    RequiredEnds(mods, c.mods, calls, names);
    LogNeeded(c.mods, c.log, calls, names);
  }

  lemma NothingGiven(mods: seq<Mod>, names: nat)
    requires forall x :: 0 <= x < |mods| ==> !mods[x].inited
    ensures AsGiven(mods, [], names)
  {
  }

  lemma GivenAtEnd(a: seq<Mod>, la: seq<nat>, b: seq<Mod>, lb: seq<nat>, calls: seq<Call>, names: nat,
      stillLoading: bool)
    requires AsGiven(a, calls, names) && Follows(a, la, b, lb) && OnlyArrives(a, b, -1)
    requires stillLoading ==> b == a && exists y :: 0 <= y < |a| && a[y].enabled && !a[y].inited
    ensures AsGiven(b, calls, names)
    ensures stillLoading ==> exists y :: 0 <= y < |b| && b[y].enabled && DepsGiven(calls, names, y).Nothing?
  {
    forall y | 0 <= y < |b|
      ensures Follows1(a[y], b[y])
    {
    }
  }

  lemma EndFacts(mods: seq<Mod>, log: seq<nat>)
    requires Steady(mods, log)
    ensures forall x: nat :: x < |mods| ==> multiset(log)[x] == if mods[x].defined then 1 else 0
    ensures forall p, k :: Path(mods, p) && mods[p[0]].defined && 0 <= k < |p| ==> mods[p[k]].defined
  {
    hide Steady;
    forall x: nat | x < |mods|
      ensures multiset(log)[x] == if mods[x].defined then 1 else 0
    {
      FactoriesRunOnce(mods, log, x);
    }
    forall p, k | Path(mods, p) && mods[p[0]].defined && 0 <= k < |p|
      ensures mods[p[k]].defined
    {
      DefinedReach(mods, log, p);
    }
  }

  predicate RequiredBy(calls: seq<Call>, names: nat, k: nat, y: nat) {
    names <= y < names + k && y - names < |calls| && calls[y - names].Require?
  }

  lemma RequiredKept(a: seq<Mod>, b: seq<Mod>, calls: seq<Call>, names: nat, k: nat)
    requires OnlyRequired(a, calls, names, k) && |a| == |b| && k < |calls|
    requires forall y :: 0 <= y < |a| && b[y].request && !a[y].request ==> calls[k].Require? && y == names + k
    ensures OnlyRequired(b, calls, names, k + 1)
  {
  }

  /** The requests are those of the first k calls. */
  predicate OnlyRequired(mods: seq<Mod>, calls: seq<Call>, names: nat, k: nat) {
    forall y :: 0 <= y < |mods| && mods[y].request ==> RequiredBy(calls, names, k, y)
  }

  lemma NoneRequired(mods: seq<Mod>, calls: seq<Call>, names: nat)
    requires forall y :: 0 <= y < |mods| ==> !mods[y].request
    ensures OnlyRequired(mods, calls, names, 0)
  {
  }

  lemma RequiredEnds(a: seq<Mod>, b: seq<Mod>, calls: seq<Call>, names: nat)
    requires OnlyRequired(a, calls, names, |calls|) && |a| == |b|
    requires forall y :: 0 <= y < |a| ==> b[y].request == a[y].request
    ensures OnlyRequired(b, calls, names, |calls|)
  {
  }

  /** A factory has run only if a require call needs its module. */
  lemma LogNeeded(mods: seq<Mod>, log: seq<nat>, calls: seq<Call>, names: nat)
    requires Steady(mods, log) && Needed(mods) && OnlyRequired(mods, calls, names, |calls|)
    ensures forall x :: x in log ==> exists k: nat :: k < |calls| && calls[k].Require? && Reach(mods, names + k, x)
  {
    hide Reach;
    forall x | x in log
      ensures exists k: nat :: k < |calls| && calls[k].Require? && Reach(mods, names + k, x)
    {
      assert ModOk(mods, x);
      var r: nat :| r < |mods| && mods[r].request && Reach(mods, r, x);
      assert calls[r - names].Require? && Reach(mods, names + (r - names), x);
    }
  }

  /** Call number k. */
  method MakeCall(c: Context, names: nat, calls: seq<Call>, k: nat, ghost rank: nat -> nat)
    requires k < |calls| && CallOk(calls[k], names) && |c.mods| == names + |calls|
    requires Steady(c.mods, c.log) && RequestsReady(c.mods) && AsGiven(c.mods, calls[..k], names)
    requires Unused(c.mods, names + k) && Needed(c.mods) && OnlyRequired(c.mods, calls, names, k)
    modifies c
    ensures Needed(c.mods) && OnlyRequired(c.mods, calls, names, k + 1)
    ensures |c.mods| == names + |calls| && Steady(c.mods, c.log) && RequestsReady(c.mods)
    ensures AsGiven(c.mods, calls[..k + 1], names) && Unused(c.mods, names + k + 1)
    ensures forall y :: 0 <= y < |c.mods| && old(c.mods)[y].request ==> c.mods[y].request
    ensures calls[k].Require? ==> c.mods[names + k].request
    ensures (!calls[k].CheckLoaded? || RankedCalls(calls[..k], names, rank)) && old(InOrder(c.mods, c.log)) ==>
      InOrder(c.mods, c.log)
  {
    hide Steady, InOrder, Needed, OnlyRequired, Reach, Follows, SameEnabled, RankedCalls, AsGiven;
    ghost var mods, log := c.mods, c.log;
    ghost var x: int := -1;
    match calls[k] {
      case Define(y, deps) =>
        x := y;
        c.Define(y, deps);
        AfterCall(mods, log, c.mods, c.log, x);
      case Require(deps) =>
        x := names + k;
        DefinedInited(mods, log, x);
        c.Require(names + k, deps);
        AfterCall(mods[x := Created(mods[x], true)], log, c.mods, c.log, x);
      case CheckLoaded =>
        if RankedCalls(calls[..k], names, rank) {
          NothingToBreak(mods, log, calls[..k], names, rank);
        }
        var s := c.CheckLoaded();
        AfterCall(mods, log, c.mods, c.log, x);
    }
    GivenKept(mods, log, c.mods, c.log, calls, k, names, x);
    RequiredKept(mods, c.mods, calls, names, k);
    DefinedAll(mods, log);
    UnusedKept(mods, log, c.mods, c.log, calls[..k + 1], names + k + 1, names);
  }

  lemma DefinedAll(mods: seq<Mod>, log: seq<nat>)
    requires Steady(mods, log)
    ensures forall x :: 0 <= x < |mods| && mods[x].inited ==> mods[x].created
  {
    forall x | 0 <= x < |mods| && mods[x].inited
      ensures mods[x].created
    {
      DefinedInited(mods, log, x);
    }
  }

  lemma AfterCall(a: seq<Mod>, la: seq<nat>, b: seq<Mod>, lb: seq<nat>, x: int)
    requires Follows(a, la, b, lb)
    ensures |a| == |b|
    ensures forall y :: 0 <= y < |a| && a[y].inited ==> b[y].inited && b[y].deps == a[y].deps
    ensures forall y :: 0 <= y < |a| && b[y].created ==> a[y].created || b[y].inited || b[y].listeners != []
    ensures forall y :: 0 <= y < |a| ==> b[y].request == a[y].request
  {
    forall y | 0 <= y < |a|
      ensures Follows1(a[y], b[y])
    {
    }
  }
}
