/** Which modules of html/njs/require.js come to be enabled: only those that a require call needs, at some distance. */
module LoaderDemand {
  import opened LoaderState
  import opened LoaderEnabling
  import opened LoaderCycles

  /** Module y is x, or something that x depends on at some distance. */
  ghost predicate Reach(mods: seq<Mod>, x: nat, y: nat) {
    exists p :: Path(mods, p) && p[0] == x && p[|p| - 1] == y
  }

  /** A require call needs module y. */
  ghost predicate Wanted(mods: seq<Mod>, y: nat) {
    exists r: nat :: r < |mods| && mods[r].request && Reach(mods, r, y)
  }

  ghost predicate Needed(mods: seq<Mod>) {
    forall y :: 0 <= y < |mods| && mods[y].enabled ==> Wanted(mods, y)
  }

  /** Between a and b only modules that x reaches have been enabled. */
  ghost predicate OnlyFrom(a: seq<Mod>, b: seq<Mod>, x: nat) {
    |a| == |b| && forall y :: 0 <= y < |b| && b[y].enabled ==> a[y].enabled || Reach(a, x, y)
  }

  predicate SameEnabled(a: seq<Mod>, b: seq<Mod>) {
    |a| == |b| && forall y :: 0 <= y < |a| ==> b[y].enabled == a[y].enabled
  }

  predicate SameDeps(a: seq<Mod>, b: seq<Mod>) {
    |a| == |b| && forall y :: 0 <= y < |a| ==> b[y].deps == a[y].deps
  }

  lemma ReachSelf(mods: seq<Mod>, x: nat)
    requires x < |mods|
    ensures Reach(mods, x, x)
  {
    assert Path(mods, [x]) && [x][0] == x;
  }

  lemma ReachDep(mods: seq<Mod>, x: nat, d: nat, y: nat)
    requires x < |mods| && On(d) in mods[x].deps && Reach(mods, d, y)
    ensures Reach(mods, x, y)
  {
    var p :| Path(mods, p) && p[0] == d && p[|p| - 1] == y;
    var q := [x] + p;
    forall k | 0 <= k < |q| - 1
      ensures On(q[k + 1]) in mods[q[k]].deps
    {
      if k > 0 {
        assert q[k] == p[k - 1] && q[k + 1] == p[k - 1 + 1];
      }
    }
    assert Path(mods, q) && q[0] == x && q[|q| - 1] == y;
  }

  lemma ReachTrans(mods: seq<Mod>, x: nat, y: nat, z: nat)
    requires Reach(mods, x, y) && Reach(mods, y, z)
    ensures Reach(mods, x, z)
  {
    var p :| Path(mods, p) && p[0] == x && p[|p| - 1] == y;
    var q :| Path(mods, q) && q[0] == y && q[|q| - 1] == z;
    var r := p + q[1..];
    forall k | 0 <= k < |r| - 1
      ensures On(r[k + 1]) in mods[r[k]].deps
    {
      if k < |p| - 1 {
        assert r[k] == p[k] && r[k + 1] == p[k + 1];
      } else {
        assert r[k] == q[k - (|p| - 1)] && r[k + 1] == q[k - (|p| - 1) + 1];
      }
    }
    assert Path(mods, r) && r[0] == x && r[|r| - 1] == z;
  }

  /** Whatever leads on in a leads on in b. */
  predicate DepsStay(a: seq<Mod>, b: seq<Mod>) {
    |a| == |b| && forall y :: 0 <= y < |a| && a[y].deps != [] ==> b[y].deps == a[y].deps
  }

  lemma ReachStays(a: seq<Mod>, b: seq<Mod>, x: nat, y: nat)
    requires DepsStay(a, b) && Reach(a, x, y)
    ensures Reach(b, x, y)
  {
    var p :| Path(a, p) && p[0] == x && p[|p| - 1] == y;
    forall k | 0 <= k < |p| - 1
      ensures On(p[k + 1]) in b[p[k]].deps
    {
      assert On(p[k + 1]) in a[p[k]].deps;
      assert a[p[k]].deps != [];
    }
    assert Path(b, p);
  }

  lemma OnlyFromTrans(a: seq<Mod>, b: seq<Mod>, c: seq<Mod>, x: nat)
    requires OnlyFrom(a, b, x) && OnlyFrom(b, c, x) && SameDeps(a, b)
    ensures OnlyFrom(a, c, x)
  {
    hide Reach;
    forall y | 0 <= y < |c| && c[y].enabled
      ensures a[y].enabled || Reach(a, x, y)
    {
      if !b[y].enabled {
        ReachStays(b, a, x, y);
      }
    }
  }

  /** What enabling a dependency enables is reached from the module that depends on it. */
  lemma OnlyFromDep(a: seq<Mod>, b: seq<Mod>, x: nat, d: nat)
    requires OnlyFrom(a, b, d) && x < |a| && On(d) in a[x].deps
    ensures OnlyFrom(a, b, x)
  {
    hide Reach;
    forall y | 0 <= y < |b| && b[y].enabled
      ensures a[y].enabled || Reach(a, x, y)
    {
      if !a[y].enabled {
        ReachDep(a, x, d, y);
      }
    }
  }

  lemma NothingEnabled(a: seq<Mod>, b: seq<Mod>, x: nat)
    requires SameEnabled(a, b)
    ensures OnlyFrom(a, b, x)
  {
  }

  lemma EnteredOnly(mods: seq<Mod>, x: nat)
    requires x < |mods|
    ensures OnlyFrom(mods, Entered(mods, x), x) && SameDeps(mods, Entered(mods, x))
  {
    ReachSelf(mods, x);
  }

  lemma LaterDeps(a: seq<Mod>, la: seq<nat>, b: seq<Mod>, lb: seq<nat>, x: nat)
    requires Later(a, la, b, lb, x)
    ensures SameDeps(a, b)
  {
    forall y | 0 <= y < |a|
      ensures b[y].deps == a[y].deps
    {
      assert Later1(a[y], b[y]);
    }
  }

  lemma ProgressEnables(a: seq<Mod>, la: seq<nat>, b: seq<Mod>, lb: seq<nat>)
    requires Progress(a, la, b, lb)
    ensures SameEnabled(a, b) && SameDeps(a, b)
  {
    hide Grounded, InOrder;
    forall y | 0 <= y < |a|
      ensures b[y].enabled == a[y].enabled && b[y].deps == a[y].deps
    {
      assert Advanced1(a[y], b[y]);
    }
  }

  lemma GrewEnables(a: seq<Mod>, la: seq<nat>, b: seq<Mod>, lb: seq<nat>)
    requires Grew(a, la, b, lb)
    ensures SameEnabled(a, b) && SameDeps(a, b)
  {
    forall y | 0 <= y < |a|
      ensures b[y].enabled == a[y].enabled && b[y].deps == a[y].deps
    {
      assert Grew1(a[y], b[y]);
    }
  }

  // ----- between calls from outside

  /** A call may give dependencies to modules that had none, and make requests; what it enables is reached from x, and
    x is a request, or was enabled before. */
  ghost predicate Demands(a: seq<Mod>, b: seq<Mod>, x: nat) {
    && DepsStay(a, b) && (forall y :: 0 <= y < |a| && a[y].request ==> b[y].request)
    && forall y :: 0 <= y < |b| && b[y].enabled && !a[y].enabled ==>
         x < |b| && Reach(b, x, y) && (b[x].request || a[x].enabled)
  }

  lemma DemandsNeeded(a: seq<Mod>, b: seq<Mod>, x: nat)
    requires Demands(a, b, x) && Needed(a)
    ensures Needed(b)
  {
    hide Reach;
    forall y | 0 <= y < |b| && b[y].enabled
      ensures Wanted(b, y)
    {
      if a[y].enabled {
        WantedStays(a, b, y);
      } else if b[x].request {
        assert Reach(b, x, y);
      } else {
        WantedStays(a, b, x);
        var r: nat :| r < |b| && b[r].request && Reach(b, r, x);
        ReachTrans(b, r, x, y);
      }
    }
  }

  lemma WantedStays(a: seq<Mod>, b: seq<Mod>, y: nat)
    requires DepsStay(a, b) && (forall k :: 0 <= k < |a| && a[k].request ==> b[k].request) && Wanted(a, y)
    ensures Wanted(b, y)
  {
    hide Reach;
    var r: nat :| r < |a| && a[r].request && Reach(a, r, y);
    ReachStays(a, b, r, y);
  }

  /** A module that has not arrived has no dependencies yet. */
  lemma FollowsDeps(a: seq<Mod>, la: seq<nat>, b: seq<Mod>, lb: seq<nat>)
    requires Consistent(a) && Follows(a, la, b, lb)
    ensures DepsStay(a, b) && forall y :: 0 <= y < |a| ==> b[y].request == a[y].request
  {
    forall y | 0 <= y < |a|
      ensures (a[y].deps != [] ==> b[y].deps == a[y].deps) && b[y].request == a[y].request
    {
      assert ModOk(a, y) && Follows1(a[y], b[y]);
    }
  }

  // ----- what the methods do

  lemma DepStays(a: seq<Mod>, b: seq<Mod>, x: nat, dep: Dep)
    requires SameDeps(a, b) && x < |a| && dep in a[x].deps
    ensures dep in b[x].deps
  {
  }

  lemma DepsTrans(a: seq<Mod>, b: seq<Mod>, c: seq<Mod>)
    requires SameDeps(a, b) && SameDeps(b, c)
    ensures SameDeps(a, c)
  {
  }

  /** At the end of enabling x only a mark is taken away, and notifications follow. */
  lemma OnlyFromEnds(a: seq<Mod>, b: seq<Mod>, c: seq<Mod>, d: seq<Mod>, x: nat)
    requires OnlyFrom(a, b, x) && x < |b| && c == b[x := b[x].(enabling := false)] && SameEnabled(c, d)
    ensures OnlyFrom(a, d, x)
  {
    hide Reach;
  }

  lemma ReachesLater(a: seq<Mod>, b: seq<Mod>, x: nat)
    requires OnlyFrom(a, b, x) && SameDeps(a, b)
    ensures forall y :: 0 <= y < |b| && b[y].enabled && !a[y].enabled ==> Reach(b, x, y)
  {
    hide Reach;
    forall y | 0 <= y < |b| && b[y].enabled && !a[y].enabled
      ensures Reach(b, x, y)
    {
      ReachStays(a, b, x, y);
    }
  }

  lemma DefineDemands(a: seq<Mod>, la: seq<nat>, b: seq<Mod>, lb: seq<nat>, x: nat)
    requires Steady(a, la) && Follows(a, la, b, lb) && x < |a|
    requires !a[x].enabled ==> SameEnabled(a, b)
    requires forall y :: 0 <= y < |b| && b[y].enabled && !a[y].enabled ==> Reach(b, x, y)
    ensures Needed(a) ==> Needed(b)
  {
    hide Reach, Needed;
    FollowsDeps(a, la, b, lb);
    if Needed(a) {
      DemandsNeeded(a, b, x);
    }
  }

  lemma SameSet(mods: seq<Mod>, x: nat, m: Mod)
    requires x < |mods| && m.enabled == mods[x].enabled
    ensures SameEnabled(mods, mods[x := m])
  {
  }

  lemma SameTrans(a: seq<Mod>, b: seq<Mod>, c: seq<Mod>)
    requires SameEnabled(a, b) && SameEnabled(b, c)
    ensures SameEnabled(a, c)
  {
  }

  lemma SameRefl(mods: seq<Mod>, x: nat)
    ensures SameEnabled(mods, mods) && OnlyArrives(mods, mods, x)
  {
  }

  lemma ArrivalFollows(mods: seq<Mod>, log: seq<nat>, x: nat, deps: seq<Dep>)
    requires x < |mods| && !mods[x].inited
    ensures var m := mods[x := Initialised(mods[x], deps)];
            Follows(mods, log, m, log) && OnlyArrives(mods, m, x) && SameEnabled(mods, m)
  {
  }

  lemma LaterFollows(a: seq<Mod>, b: seq<Mod>, lb: seq<nat>, c: seq<Mod>, lc: seq<nat>, x: nat)
    requires Later(b, lb, c, lc, x) && OnlyArrives(a, b, x)
    ensures Follows(b, lb, c, lc) && OnlyArrives(a, c, x)
    ensures (forall y :: 0 <= y < |b| ==> c[y].request == b[y].request && c[y].inited == b[y].inited)
  {
    hide Grounded, InOrder;
    forall y | 0 <= y < |b|
      ensures Follows1(b[y], c[y]) && c[y].inited == b[y].inited && c[y].request == b[y].request
    {
      assert Later1(b[y], c[y]);
    }
  }

  /** A define as a whole: a' is the state once the module is known. */
  lemma DefineEnds(a: seq<Mod>, a': seq<Mod>, la: seq<nat>, b: seq<Mod>, lb: seq<nat>, x: nat)
    requires Steady(a, la) && Follows(a, la, b, lb) && x < |a| && a' == a[x := a[x].(created := true)]
    requires OnlyArrives(a', b, x) && (!a'[x].enabled ==> SameEnabled(a', b))
    requires forall y :: 0 <= y < |b| && b[y].enabled && !a'[y].enabled ==> Reach(b, x, y)
    ensures (Needed(a) ==> Needed(b)) && (RequestsReady(a) ==> RequestsReady(b)) && OnlyArrives(a, b, x)
    ensures !a[x].enabled ==> SameEnabled(a, b)
  {
    hide Reach, Needed, Steady, Follows, RequestsReady;
    assert forall y :: 0 <= y < |a| ==> a'[y].enabled == a[y].enabled && a'[y].inited == a[y].inited;
    DefineDemands(a, la, b, lb, x);
    FollowsReady(a, la, b, lb);
  }

  lemma RequireDemands(a: seq<Mod>, a': seq<Mod>, la: seq<nat>, b: seq<Mod>, lb: seq<nat>, x: nat)
    requires Steady(a', la) && x < |a| && a' == a[x := Created(a[x], true)] && Follows(a', la, b, lb) && b[x].request
    requires forall y :: 0 <= y < |b| && b[y].enabled && !a'[y].enabled ==> Reach(b, x, y)
    ensures Needed(a) ==> Needed(b)
  {
    hide Reach, Needed;
    FollowsDeps(a', la, b, lb);
    assert forall y :: 0 <= y < |a| ==> a'[y].deps == a[y].deps && a'[y].enabled == a[y].enabled;
    if Needed(a) {
      DemandsNeeded(a, b, x);
    }
  }

  lemma SameNeeded(a: seq<Mod>, b: seq<Mod>)
    requires SameEnabled(a, b) && SameDeps(a, b) && forall y :: 0 <= y < |a| ==> b[y].request == a[y].request
    ensures Needed(a) ==> Needed(b)
  {
    hide Reach;
    if Needed(a) {
      DemandsNeeded(a, b, 0);
    }
  }
}
