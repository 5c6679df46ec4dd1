/** Breaking dependency cycles in html/njs/require.js: what is presented too early is defined before the break ends. */
module LoaderCycles {
  import opened Seqs
  import opened LoaderState
  import opened LoaderEnabling

  /** R holds initialised and enabled modules, and the dependencies of its modules. */
  ghost predicate Loaded(mods: seq<Mod>, R: set<nat>) {
    forall y :: y in R ==> LoadedAt(mods, R, y)
  }

  ghost predicate LoadedAt(mods: seq<Mod>, R: set<nat>, y: nat) {
    && y < |mods| && mods[y].inited && mods[y].enabled && !mods[y].enabling
    && forall i :: 0 <= i < |mods[y].deps| && mods[y].deps[i].On? ==> mods[y].deps[i].id in R
  }

  /** During a break: what has been processed is defined, and only traced modules have been presented too early. */
  ghost predicate Breaking(mods: seq<Mod>, log: seq<nat>, R: set<nat>, traced: set<nat>, processed: set<nat>) {
    && Consistent(mods) && LogOk(mods, log) && AllReady(mods) && Quiet(mods) && Loaded(mods, R)
    && processed <= traced <= R && (forall y :: y in processed ==> y < |mods| && mods[y].defined)
    && Grounded(mods, traced)
  }

  predicate Grew1(a: Mod, b: Mod) {
    && b == a.(fetched := b.fetched, defined := b.defined, emitted := b.emitted, complete := b.complete,
               matched := b.matched, depCount := b.depCount)
    && |b.matched| == |a.matched| && (forall i :: 0 <= i < |a.matched| && a.matched[i] ==> b.matched[i])
    && (a.defined ==> b.defined)
  }

  ghost predicate Grew(a: seq<Mod>, la: seq<nat>, b: seq<Mod>, lb: seq<nat>) {
    |a| == |b| && la <= lb && forall y :: 0 <= y < |a| ==> Grew1(a[y], b[y])
  }

  /** The first k dependencies are matched. */
  ghost predicate MatchedTo(m: Mod, k: nat) {
    |m.matched| == |m.deps| && forall i :: 0 <= i < k && i < |m.deps| && m.deps[i].On? ==> m.matched[i]
  }

  lemma GroundedMore(mods: seq<Mod>, early: set<nat>, early': set<nat>)
    requires Grounded(mods, early) && early <= early'
    ensures Grounded(mods, early')
  {
  }

  lemma ProgressGrew(a: seq<Mod>, la: seq<nat>, b: seq<Mod>, lb: seq<nat>)
    requires Progress(a, la, b, lb)
    ensures Grew(a, la, b, lb) && (Quiet(a) ==> Quiet(b))
  {
    hide Grounded, InOrder;
    forall y | 0 <= y < |a|
      ensures Grew1(a[y], b[y]) && (b[y].defined ==> a[y].defined || b[y].complete)
      ensures (a[y].complete && a[y].defined ==> b[y].complete)
    {
      assert Advanced1(a[y], b[y]);
    }
  }

  /** A dependency that is not matched is in the registry and not processed. */
  lemma UnmatchedDep(mods: seq<Mod>, log: seq<nat>, R: set<nat>, traced: set<nat>, processed: set<nat>, x: nat, i: nat)
    requires Breaking(mods, log, R, traced, processed) && x in R && i < |mods[x].deps|
    ensures |mods[x].matched| == |mods[x].deps| == mods[x].wired
    ensures mods[x].deps[i].On? ==> mods[x].deps[i].id in R && mods[x].deps[i].id < |mods|
    ensures mods[x].deps[i].On? && !mods[x].matched[i] ==>
      mods[mods[x].deps[i].id].InRegistry() && mods[x].deps[i].id !in processed
  {
    assert LoadedAt(mods, R, x);
    assert ModOk(mods, x);
    assert Linked(mods, x, i);
    if mods[x].deps[i].On? {
      assert LoadedAt(mods, R, mods[x].deps[i].id);
      assert ModOk(mods, mods[x].deps[i].id);
    }
  }

  /** Presenting a traced module too early. */
  lemma ForceStep(mods: seq<Mod>, log: seq<nat>, R: set<nat>, traced: set<nat>, processed: set<nat>, x: nat, i: nat)
    requires Breaking(mods, log, R, traced, processed) && x in R
    requires i < |mods[x].deps| == |mods[x].matched| == mods[x].wired
    requires mods[x].deps[i].On? && mods[x].deps[i].id in traced
    ensures var m2 := mods[x := mods[x].Matching(i)];
            && Consistent(m2) && LogOk(m2, log) && ReadyBut(m2, x) && Quiet(m2) && Grounded(m2, traced)
            && Grew(mods, log, m2, log) && m2[x].matched[i]
  {
    hide Consistent, LogOk;
    MatchKeeps(mods, x, i);
    MatchLog(mods, log, x, i);
  }

  lemma ForcedStep(m1: seq<Mod>, m2: seq<Mod>, l2: seq<nat>, m3: seq<Mod>, l3: seq<nat>, R: set<nat>, traced: set<nat>,
      processed: set<nat>, x: nat, i: nat)
    requires Breaking(m1, l2, R, traced, processed) && Grew(m1, l2, m2, l2) && Progress(m2, l2, m3, l3)
    requires Quiet(m2) && Grounded(m2, traced) && x in R && x < |m1| && i < |m1[x].deps|
    requires MatchedTo(m1[x], i) && m2[x].matched == m1[x].matched[i := true]
    requires Consistent(m3) && LogOk(m3, l3) && AllReady(m3)
    ensures Breaking(m3, l3, R, traced, processed) && Grew(m1, l2, m3, l3) && MatchedTo(m3[x], i + 1)
    ensures m3[x].deps == m1[x].deps
  {
    hide Consistent, LogOk, AllReady, Quiet, Grounded, InOrder, Advanced;
    ProgressGrew(m2, l2, m3, l3);
    AdvancedGrounded(m2, m3, traced);
    assert Grew1(m1[x], m3[x]) && Grew1(m2[x], m3[x]);
    forall y | y in processed
      ensures y < |m3| && m3[y].defined
    {
      assert Grew1(m1[y], m3[y]);
    }
  }

  /** After the dependency itself has been processed, it is defined, so it is matched. */
  lemma MatchedStep(m1: seq<Mod>, l1: seq<nat>, m2: seq<Mod>, l2: seq<nat>, R: set<nat>, traced: set<nat>,
      processed: set<nat>,
      x: nat, i: nat)
    requires Grew(m1, l1, m2, l2) && Breaking(m2, l2, R, traced, processed) && x in R && x < |m1| && i < |m1[x].deps|
    requires MatchedTo(m1[x], i) && m1[x].deps[i].On? && m1[x].deps[i].id in processed
    ensures MatchedTo(m2[x], i + 1) && m2[x].deps == m1[x].deps
  {
    assert Grew1(m1[x], m2[x]);
    UnmatchedDep(m2, l2, R, traced, processed, x, i);
  }

  lemma AllMatched(mods: seq<Mod>, log: seq<nat>, R: set<nat>, traced: set<nat>, processed: set<nat>, x: nat)
    requires Breaking(mods, log, R, traced, processed) && x in R && x < |mods| && MatchedTo(mods[x], |mods[x].deps|)
    ensures mods[x].defined
  {
    assert LoadedAt(mods, R, x);
    assert ModOk(mods, x);
    OpenZero(mods[x], mods[x].wired);
    assert mods[x].Ready();
  }

  // ----- the whole break

  ghost function EnabledSet(mods: seq<Mod>): (r: set<nat>)
    ensures forall y: nat :: y in r <==> y < |mods| && mods[y].enabled
  {
    set y: nat | y < |mods| && mods[y].enabled
  }

  /** A require call has its dependencies from the start. */
  ghost predicate RequestsReady(mods: seq<Mod>) {
    forall y :: 0 <= y < |mods| && mods[y].request ==> mods[y].inited && mods[y].enabled
  }

  lemma FollowsRequests(a: seq<Mod>, la: seq<nat>, b: seq<Mod>, lb: seq<nat>, but: set<nat>)
    requires Follows(a, la, b, lb)
    requires forall y :: 0 <= y < |a| && a[y].request && y !in but ==> a[y].inited && a[y].enabled
    requires forall y :: y in but ==> y < |b| && b[y].inited && b[y].enabled
    ensures RequestsReady(b)
  {
    forall y | 0 <= y < |b| && b[y].request
      ensures b[y].inited && b[y].enabled
    {
      assert Follows1(a[y], b[y]);
    }
  }

  lemma FollowsReady(a: seq<Mod>, la: seq<nat>, b: seq<Mod>, lb: seq<nat>)
    requires Follows(a, la, b, lb)
    ensures RequestsReady(a) ==> RequestsReady(b)
  {
    if RequestsReady(a) {
      FollowsRequests(a, la, b, lb, {});
    }
  }

  /** With nothing left to load, the enabled modules and their dependencies are all there. */
  lemma NothingLoading(mods: seq<Mod>, log: seq<nat>)
    requires Steady(mods, log) && forall y :: 0 <= y < |mods| && mods[y].enabled ==> mods[y].inited
    ensures Breaking(mods, log, EnabledSet(mods), {}, {})
  {
    forall y | y in EnabledSet(mods)
      ensures LoadedAt(mods, EnabledSet(mods), y)
    {
      assert ModOk(mods, y);
      forall i | 0 <= i < |mods[y].deps| && mods[y].deps[i].On?
        ensures mods[y].deps[i].id in EnabledSet(mods)
      {
        assert SpreadAt(mods, y, i);
      }
    }
  }

  /** An enabled module that is not initialised is being loaded. */
  lemma StillLoading(mods: seq<Mod>, log: seq<nat>, y: nat)
    requires Steady(mods, log) && RequestsReady(mods) && y < |mods| && mods[y].enabled
    ensures !mods[y].inited ==> mods[y].InRegistry() && mods[y].fetched && !mods[y].request
    ensures mods[y].InRegistry() || mods[y].defined
  {
    assert ModOk(mods, y);
    assert mods[y].Ready();
  }

  /** A break that is over has defined everything it presented early. */
  lemma BreakDone(a: seq<Mod>, la: seq<nat>, b: seq<Mod>, lb: seq<nat>, R: set<nat>, traced: set<nat>,
      processed: set<nat>)
    requires Steady(a, la) && Grew(a, la, b, lb) && Breaking(b, lb, R, traced, processed) && traced <= processed
    ensures Steady(b, lb) && Follows(a, la, b, lb) && Breaking(b, lb, R, {}, {}) && OnlyArrives(a, b, -1)
  {
    hide Consistent, LogOk, AllReady, Quiet, InOrder;
    forall y | 0 <= y < |b|
      ensures Follows1(a[y], b[y]) && !b[y].enabling && b[y].wired == a[y].wired && b[y].deps == a[y].deps
      ensures b[y].enabled == a[y].enabled
    {
      assert Grew1(a[y], b[y]);
    }
    forall y, i | 0 <= y < |b| && 0 <= i < b[y].wired
      ensures SpreadAt(b, y, i)
    {
      assert SpreadAt(a, y, i);
    }
  }

  // ----- what a defined module stands for

  /** A walk along dependencies. */
  ghost predicate Path(mods: seq<Mod>, p: seq<nat>) {
    && |p| > 0 && (forall k :: 0 <= k < |p| ==> p[k] < |mods|)
    && forall k :: 0 <= k < |p| - 1 ==> On(p[k + 1]) in mods[p[k]].deps
  }

  /** Everything a defined module depends on, at any distance, is defined, whether or not cycles have been broken. */
  lemma {:induction false} DefinedReach(mods: seq<Mod>, log: seq<nat>, p: seq<nat>)
    requires Steady(mods, log) && Path(mods, p) && mods[p[0]].defined
    ensures forall k :: 0 <= k < |p| ==> mods[p[k]].defined
    decreases |p|
  {
    if |p| > 1 {
      var q := p[..|p| - 1];
      DefinedReach(mods, log, q);
      var y, z := q[|q| - 1], p[|p| - 1];
      assert On(p[|q| - 1 + 1]) in mods[p[|q| - 1]].deps;
      var i :| 0 <= i < |mods[y].deps| && mods[y].deps[i] == On(z);
      DefinedMatched(mods, y, i);
      forall k | 0 <= k < |p|
        ensures mods[p[k]].defined
      {
        if k < |q| {
          assert p[k] == q[k];
        }
      }
    }
  }

  lemma DefinedMatched(mods: seq<Mod>, y: nat, i: nat)
    requires Consistent(mods) && y < |mods| && mods[y].defined && i < |mods[y].deps| && mods[y].deps[i].On?
    ensures i < |mods[y].matched| && mods[y].matched[i]
  {
    assert ModOk(mods, y);
    OpenZero(mods[y], mods[y].wired);
  }

  /** Every factory has run at most once, and has run exactly when its module is defined. */
  lemma FactoriesRunOnce(mods: seq<Mod>, log: seq<nat>, x: nat)
    requires Steady(mods, log) && x < |mods|
    ensures multiset(log)[x] == if mods[x].defined then 1 else 0
  {
    hide Consistent, AllReady, Quiet, Spread, Grounded;
    CountDistinct(log, x);
  }

  /** No dependency has a rank as high as its dependent's: there is no cycle. */
  ghost predicate Ranked(mods: seq<Mod>, R: set<nat>, rank: nat -> nat) {
    forall y, i :: y in R && y < |mods| && 0 <= i < |mods[y].deps| && mods[y].deps[i].On? ==>
        rank(mods[y].deps[i].id) < rank(y)
  }

  /** Without cycles, modules that have arrived with all they depend on have been defined already: nothing is left to
    break. */
  lemma {:induction false} AcyclicDefined(mods: seq<Mod>, log: seq<nat>, R: set<nat>, rank: nat -> nat, y: nat)
    requires Steady(mods, log) && Loaded(mods, R) && Ranked(mods, R, rank) && y in R
    ensures y < |mods| && mods[y].defined
    decreases rank(y)
  {
    assert LoadedAt(mods, R, y);
    assert ModOk(mods, y);
    forall i | 0 <= i < |mods[y].deps| && mods[y].deps[i].On?
      ensures mods[y].matched[i]
    {
      AcyclicDefined(mods, log, R, rank, mods[y].deps[i].id);
      assert Linked(mods, y, i);
    }
    OpenZero(mods[y], mods[y].wired);
    assert mods[y].Ready();
  }

  lemma FollowsRefl(mods: seq<Mod>, log: seq<nat>)
    ensures Follows(mods, log, mods, log)
  {
  }

  lemma FollowsDefined(a: seq<Mod>, la: seq<nat>, b: seq<Mod>, lb: seq<nat>)
    requires Follows(a, la, b, lb)
    ensures |a| == |b| && forall y :: 0 <= y < |a| ==> (a[y].defined ==> b[y].defined) && b[y].request == a[y].request
  {
    forall y | 0 <= y < |a|
      ensures (a[y].defined ==> b[y].defined) && b[y].request == a[y].request
    {
      assert Follows1(a[y], b[y]);
    }
  }

  lemma ProcessedDefined(mods: seq<Mod>, log: seq<nat>, R: set<nat>, traced: set<nat>, processed: set<nat>, x: nat)
    requires Breaking(mods, log, R, traced, processed) && x in processed
    ensures x < |mods| && mods[x].defined
  {
  }
}
