/** Enabling a module in html/njs/require.js: wiring its dependencies one by one, which may define modules and enable
  others on the way.
 */
module LoaderEnabling {
  import opened LoaderState

  /** The dependencies an enabled module has wired are enabled. */
  ghost predicate Spread(mods: seq<Mod>) {
    forall x, i :: 0 <= x < |mods| && 0 <= i < mods[x].wired ==> SpreadAt(mods, x, i)
  }

  predicate SpreadAt(mods: seq<Mod>, x: nat, i: nat)
    requires x < |mods|
  {
    i < |mods[x].deps| && mods[x].deps[i].On? && mods[x].deps[i].id < |mods| ==> mods[mods[x].deps[i].id].enabled
  }

  ghost predicate NoneEnabling(mods: seq<Mod>) {
    forall x :: 0 <= x < |mods| ==> !mods[x].enabling
  }

  /** What holds between two calls from outside. */
  ghost predicate Steady(mods: seq<Mod>, log: seq<nat>) {
    && Consistent(mods) && LogOk(mods, log) && AllReady(mods) && Quiet(mods) && Spread(mods) && NoneEnabling(mods)
    && Grounded(mods, {})
  }

  /** What holds between two calls into the modules, while some of them may be in the middle of enabling. */
  ghost predicate Calm(mods: seq<Mod>, log: seq<nat>) {
    Consistent(mods) && LogOk(mods, log) && AllReady(mods) && Quiet(mods) && Spread(mods)
  }

  /** The modules once x has started enabling. */
  function Entered(mods: seq<Mod>, x: nat): (r: seq<Mod>)
    requires x < |mods|
  {
    mods[x := mods[x].(enabled := true, enabling := true)]
  }

  // ----- what enabling does to the modules

  predicate Later1(a: Mod, b: Mod) {
    && b.deps == a.deps && b.inited == a.inited && b.enabling == a.enabling && b.request == a.request
    && (a.created ==> b.created) && (a.enabled ==> b.enabled) && (a.defined ==> b.defined)
    && |b.matched| == |a.matched| && (forall i :: 0 <= i < |a.matched| && a.matched[i] ==> b.matched[i])
    && (b.created ==> a.created || b.listeners != []) && (a.listeners != [] ==> b.listeners != [])
  }

  predicate SameWired(a: Mod, b: Mod) {
    a.wired > 0 ==> b.wired == a.wired
  }

  /** Between a and b only x and modules not enabled before wired dependencies; the factories ran in order. */
  ghost predicate Later(a: seq<Mod>, la: seq<nat>, b: seq<Mod>, lb: seq<nat>, x: nat) {
    && |a| == |b| && la <= lb
    && (forall y :: 0 <= y < |a| ==> Later1(a[y], b[y]))
    && (forall y :: 0 <= y < |a| && y != x ==> SameWired(a[y], b[y]))
    && (Grounded(a, {}) ==> Grounded(b, {}) && (InOrder(a, la) ==> InOrder(b, lb)))
  }

  lemma LaterTrans(a: seq<Mod>, la: seq<nat>, b: seq<Mod>, lb: seq<nat>, c: seq<Mod>, lc: seq<nat>, x: nat)
    requires Later(a, la, b, lb, x) && Later(b, lb, c, lc, x)
    ensures Later(a, la, c, lc, x)
  {
    hide Grounded, InOrder;
    forall y | 0 <= y < |a|
      ensures Later1(a[y], c[y]) && (y != x ==> SameWired(a[y], c[y]))
    {
      assert Later1(a[y], b[y]) && Later1(b[y], c[y]);
      if y != x {
        assert SameWired(a[y], b[y]) && SameWired(b[y], c[y]);
      }
    }
  }

  /** Enabling a module that had wired nothing, as seen by the module whose dependency it is. */
  lemma LaterInner(a: seq<Mod>, la: seq<nat>, b: seq<Mod>, lb: seq<nat>, d: nat, x: nat)
    requires Later(a, la, b, lb, d) && d < |a| && a[d].wired == 0
    ensures Later(a, la, b, lb, x) && (x < |a| && x != d ==> SameWired(a[x], b[x]))
  {
    hide Grounded, InOrder;
    forall y | 0 <= y < |a|
      ensures SameWired(a[y], b[y])
    {
    }
  }

  lemma ProgressLater(a: seq<Mod>, la: seq<nat>, b: seq<Mod>, lb: seq<nat>, x: nat)
    requires Progress(a, la, b, lb)
    ensures Later(a, la, b, lb, x)
    ensures forall y :: 0 <= y < |a| ==> b[y].wired == a[y].wired
  {
    hide Grounded, InOrder;
    if Grounded(a, {}) {
      AdvancedGrounded(a, b, {});
    }
    forall y | 0 <= y < |a|
      ensures Later1(a[y], b[y]) && b[y].wired == a[y].wired
    {
      assert Advanced1(a[y], b[y]);
    }
  }

  /** Notifications leave no event half emitted and enable nothing. */
  lemma ProgressCalm(a: seq<Mod>, la: seq<nat>, b: seq<Mod>, lb: seq<nat>)
    requires Progress(a, la, b, lb) && Quiet(a) && Spread(a)
    ensures Quiet(b) && Spread(b)
  {
    hide Grounded, InOrder;
    forall y | 0 <= y < |b|
      ensures b[y].defined ==> b[y].complete
      ensures b[y].enabled == a[y].enabled && b[y].deps == a[y].deps && b[y].wired == a[y].wired
    {
      assert Advanced1(a[y], b[y]);
    }
    forall y, i | 0 <= y < |b| && 0 <= i < b[y].wired
      ensures SpreadAt(b, y, i)
    {
      assert SpreadAt(a, y, i);
    }
  }

  /** Notifications that follow some enabling. */
  lemma AfterCheck(a: seq<Mod>, la: seq<nat>, b: seq<Mod>, lb: seq<nat>, c: seq<Mod>, lc: seq<nat>, x: nat)
    requires Later(a, la, b, lb, x) && Quiet(b) && Spread(b) && Progress(b, lb, c, lc) && Consistent(c) && LogOk(c, lc)
    requires AllReady(c)
    requires x < |a|
    ensures Calm(c, lc) && Later(a, la, c, lc, x) && c[x].wired == b[x].wired && c[x].enabled == b[x].enabled
    ensures forall y :: 0 <= y < |a| ==> Later1(b[y], c[y])
  {
    hide Grounded, InOrder, Consistent, LogOk, AllReady, Quiet, Spread;
    ProgressLater(b, lb, c, lc, x);
    ProgressCalm(b, lb, c, lc);
    LaterTrans(a, la, b, lb, c, lc, x);
    assert Advanced1(b[x], c[x]);
  }

  // ----- termination: the modules not yet enabled

  function Idle(mods: seq<Mod>): nat {
    if mods == [] then 0
    else Idle(mods[..|mods| - 1]) + if mods[|mods| - 1].enabled then 0 else 1
  }

  lemma {:induction false} IdleDrops(a: seq<Mod>, b: seq<Mod>)
    requires |a| == |b| && forall x :: 0 <= x < |a| ==> a[x].enabled ==> b[x].enabled
    ensures Idle(b) <= Idle(a)
    ensures (exists x :: 0 <= x < |a| && !a[x].enabled && b[x].enabled) ==> Idle(b) < Idle(a)
    decreases |a|
  {
    if a != [] {
      IdleDrops(a[..|a| - 1], b[..|b| - 1]);
      if x :| 0 <= x < |a| && !a[x].enabled && b[x].enabled {
        if x < |a| - 1 {
          assert !a[..|a| - 1][x].enabled && b[..|b| - 1][x].enabled;
        }
      }
    }
  }

  lemma IdleLater(a: seq<Mod>, la: seq<nat>, b: seq<Mod>, lb: seq<nat>, x: nat)
    requires Later(a, la, b, lb, x)
    ensures Idle(b) <= Idle(a)
  {
    hide Grounded, InOrder;
    forall y | 0 <= y < |a|
      ensures a[y].enabled ==> b[y].enabled
    {
      assert Later1(a[y], b[y]);
    }
    IdleDrops(a, b);
  }

  lemma IdleEntered(mods: seq<Mod>, x: nat)
    requires x < |mods|
    ensures Idle(Entered(mods, x)) <= Idle(mods) && (!mods[x].enabled ==> Idle(Entered(mods, x)) < Idle(mods))
  {
    if !mods[x].enabled {
      assert Entered(mods, x)[x].enabled;
    }
    IdleDrops(mods, Entered(mods, x));
  }

  // ----- wiring one dependency

  /** Taking up dependency number i of x, before anything is done about it. */
  function Wire(m: Mod): (r: Mod)
    requires m.wired < |m.deps|
  {
    m.(wired := m.wired + 1, depCount := m.depCount + if m.deps[m.wired].On? then 1 else 0)
  }

  /** Module d with a listener added. */
  function Listen(mods: seq<Mod>, d: nat, l: (nat, nat)): (r: seq<Mod>)
    requires d < |mods|
  {
    mods[d := mods[d].(created := true, listeners := mods[d].listeners + [l])]
  }

  lemma {:induction false} OpenWired(a: Mod, b: Mod, k: nat)
    requires k <= |a.deps| == |a.matched| && b.deps == a.deps && |b.matched| == |a.matched|
    requires forall i :: 0 <= i < k ==> b.matched[i] == a.matched[i]
    ensures b.Open(k) == a.Open(k)
    decreases k
  {
    if k > 0 {
      OpenWired(a, b, k - 1);
    }
  }

  ghost predicate Wiring(mods: seq<Mod>, log: seq<nat>, x: nat) {
    && Calm(mods, log) && x < |mods| && mods[x].enabling && mods[x].enabled && mods[x].inited
    && mods[x].wired < |mods[x].deps|
  }

  lemma DepInTable(mods: seq<Mod>, x: nat, i: nat)
    requires Consistent(mods) && x < |mods| && i < |mods[x].deps|
    ensures mods[x].deps[i].On? ==> mods[x].deps[i].id < |mods|
    ensures |mods[x].matched| == |mods[x].deps|
  {
    assert ModOk(mods, x);
  }

  /** A dependency served at once, or one already defined: it is matched on the spot. */
  function Served(m: Mod): (r: Mod)
    requires m.wired < |m.deps| == |m.matched|
  {
    if m.deps[m.wired].On? then Wire(m).Matching(m.wired) else Wire(m)
  }

  lemma ServedOpen(mods: seq<Mod>, x: nat)
    requires Consistent(mods) && x < |mods| && mods[x].wired < |mods[x].deps| == |mods[x].matched|
    ensures var r := Served(mods[x]);
            && r.wired == mods[x].wired + 1 && r.depCount == mods[x].depCount == r.Open(r.wired)
            && |r.matched| == |r.deps| && (forall i :: r.wired <= i < |r.deps| ==> !r.matched[i])
            && (mods[x].deps[mods[x].wired].On? ==> r.matched[mods[x].wired])
            && (forall i :: 0 <= i < |r.matched| && i != mods[x].wired ==> r.matched[i] == mods[x].matched[i])
            && r == mods[x].(wired := r.wired, matched := r.matched)
  {
    assert ModOk(mods, x);
    OpenWired(mods[x], Served(mods[x]), mods[x].wired);
  }

  lemma ServedKeeps(mods: seq<Mod>, x: nat)
    requires Consistent(mods) && x < |mods| && mods[x].wired < |mods[x].deps| == |mods[x].matched|
    requires mods[x].enabling && mods[x].enabled && mods[x].inited
    ensures Consistent(mods[x := Served(mods[x])])
  {
    ServedOpen(mods, x);
    var r := Served(mods[x]);
    var mods' := mods[x := r];
    assert ModOk(mods, x);
    forall y | 0 <= y < |mods'|
      ensures ModOk(mods', y)
    {
      assert ModOk(mods, y);
    }
    forall y, i | 0 <= y < |mods'| && 0 <= i < |mods'[y].deps|
      ensures Linked(mods', y, i)
    {
      assert Linked(mods, y, i);
    }
  }

  /** What a served dependency changes, for the other invariants. */
  lemma ServedCalm(mods: seq<Mod>, log: seq<nat>, x: nat)
    requires Wiring(mods, log, x) && |mods[x].deps| == |mods[x].matched|
    requires mods[x].deps[mods[x].wired].On? ==>
        mods[x].deps[mods[x].wired].id < |mods| && mods[mods[x].deps[mods[x].wired].id].defined
    ensures var m2 := mods[x := Served(mods[x])];
            && Calm(m2, log) && ReadyBut(m2, x) && Later(mods, log, m2, log, x) && m2[x].wired == mods[x].wired + 1
            && (mods[x].deps[mods[x].wired].On? ==> mods[mods[x].deps[mods[x].wired].id].enabled)
  {
    hide Consistent, LogOk, Quiet, Spread, Later;
    if mods[x].deps[mods[x].wired].On? {
      DefinedEnabled(mods, mods[x].deps[mods[x].wired].id);
    }
    ServedOpen(mods, x);
    ServedKeeps(mods, x);
    ServedFrame(mods, log, x, Served(mods[x]));
  }

  lemma ServedFrame(mods: seq<Mod>, log: seq<nat>, x: nat, r: Mod)
    requires Wiring(mods, log, x) && |mods[x].deps| == |mods[x].matched|
    requires mods[x].deps[mods[x].wired].On? ==>
        mods[x].deps[mods[x].wired].id < |mods| && mods[mods[x].deps[mods[x].wired].id].defined
    requires r == mods[x].(wired := r.wired, matched := r.matched) && r.wired == mods[x].wired + 1
    requires |r.matched| == |r.deps|
    requires forall i :: 0 <= i < |r.matched| && i != mods[x].wired ==> r.matched[i] == mods[x].matched[i]
    requires r.matched[mods[x].wired] || !mods[x].matched[mods[x].wired]
    ensures var m2 := mods[x := r];
            LogOk(m2, log) && AllReady(m2) && Quiet(m2) && Spread(m2) && Later(mods, log, m2, log, x)
  {
    hide InOrder, Grounded, Consistent, Spread;
    var m2 := mods[x := r];
    if Grounded(mods, {}) {
      ServedGrounded(mods, x, r);
    }
    ServedSpread(mods, x, r);
    if InOrder(mods, log) {
      SameOrder(mods, m2, log);
    }
  }

  lemma ServedSpread(mods: seq<Mod>, x: nat, r: Mod)
    requires Consistent(mods) && Spread(mods) && x < |mods| && mods[x].wired < |mods[x].deps|
    requires mods[x].deps[mods[x].wired].On? ==>
        mods[x].deps[mods[x].wired].id < |mods| && mods[mods[x].deps[mods[x].wired].id].defined
    requires r == mods[x].(wired := r.wired, matched := r.matched) && r.wired == mods[x].wired + 1
    ensures Spread(mods[x := r])
  {
    hide Consistent;
    var m2, w := mods[x := r], mods[x].wired;
    if r.deps[w].On? {
      DefinedEnabled(mods, r.deps[w].id);
    }
    forall y, i | 0 <= y < |m2| && 0 <= i < m2[y].wired
      ensures SpreadAt(m2, y, i)
    {
      if y != x || i != w {
        assert SpreadAt(mods, y, i);
      }
    }
  }

  lemma DefinedEnabled(mods: seq<Mod>, d: nat)
    requires Consistent(mods) && d < |mods| && mods[d].defined
    ensures mods[d].enabled
  {
    assert ModOk(mods, d);
  }

  lemma ServedGrounded(mods: seq<Mod>, x: nat, r: Mod)
    requires Grounded(mods, {}) && x < |mods| && mods[x].wired < |mods[x].deps| == |mods[x].matched|
    requires mods[x].deps[mods[x].wired].On? ==>
        mods[x].deps[mods[x].wired].id < |mods| && mods[mods[x].deps[mods[x].wired].id].defined
    requires r.deps == mods[x].deps && r.defined == mods[x].defined && |r.matched| == |r.deps|
    requires forall i :: 0 <= i < |r.matched| && i != mods[x].wired ==> r.matched[i] == mods[x].matched[i]
    ensures Grounded(mods[x := r], {})
  {
  }

  lemma SameOrder(a: seq<Mod>, b: seq<Mod>, log: seq<nat>)
    requires |a| == |b| && InOrder(a, log) && forall y :: 0 <= y < |a| ==> b[y].deps == a[y].deps
    ensures InOrder(b, log)
  {
    forall k, i | 0 <= k < |log| && log[k] < |b| && 0 <= i < |b[log[k]].deps| && b[log[k]].deps[i].On?
      ensures b[log[k]].deps[i].id in log[..k]
    {
      assert b[log[k]].deps == a[log[k]].deps;
    }
  }

  /** Taking up a dependency that is not defined yet: it is counted, and x listens to it. */
  function Awaited(mods: seq<Mod>, x: nat): (r: seq<Mod>)
    requires x < |mods| && mods[x].wired < |mods[x].deps|
    requires mods[x].deps[mods[x].wired].On? && mods[x].deps[mods[x].wired].id < |mods|
  {
    Listen(mods[x := Wire(mods[x])], mods[x].deps[mods[x].wired].id, (x, mods[x].wired))
  }

  lemma AwaitedLength(mods: seq<Mod>, x: nat)
    requires x < |mods| && mods[x].wired < |mods[x].deps|
    requires mods[x].deps[mods[x].wired].On? && mods[x].deps[mods[x].wired].id < |mods|
    ensures |Awaited(mods, x)| == |mods|
  {
  }

  lemma EnteredAt(mods: seq<Mod>, d: nat)
    requires d < |mods|
    ensures var e := Entered(mods, d);
            |e| == |mods| && forall y :: 0 <= y < |mods| ==>
              e[y].deps == mods[y].deps && e[y].wired == mods[y].wired && e[y].enabled == (mods[y].enabled || y == d)
  {
  }

  /** The three ways in which a dependency is taken up, as the assignments that do it. */
  lemma TakingUp(mods: seq<Mod>, x: nat)
    requires x < |mods| && mods[x].wired < |mods[x].deps| == |mods[x].matched|
    ensures var i, m := mods[x].wired, mods[x];
            && (m.deps[i].Special? ==> mods[x := m.(wired := i + 1)] == mods[x := Served(m)])
            && (m.deps[i].On? ==>
                  var wired := mods[x := m.(wired := i + 1, depCount := m.depCount + 1)];
                  var d := m.deps[i].id;
                  && wired[x := wired[x].Matching(i)] == mods[x := Served(m)]
                  && (d < |mods| ==>
                        wired[d := wired[d].(created := true, listeners := wired[d].listeners + [(x, i)])] ==
                            Awaited(mods, x)))
  {
  }

  lemma AllReadyBut(mods: seq<Mod>, x: nat)
    requires AllReady(mods)
    ensures ReadyBut(mods, x)
  {
  }

  lemma AwaitedAt(mods: seq<Mod>, x: nat, y: nat)
    requires x < |mods| && mods[x].wired < |mods[x].deps| && y < |mods|
    requires mods[x].deps[mods[x].wired].On? && mods[x].deps[mods[x].wired].id < |mods|
    ensures var r, d := Awaited(mods, x)[y], mods[x].deps[mods[x].wired].id;
            && r == mods[y].(wired := r.wired, depCount := r.depCount, created := r.created, listeners := r.listeners)
            && r.wired == mods[y].wired + (if y == x then 1 else 0)
            && r.depCount == mods[y].depCount + (if y == x then 1 else 0)
            && r.created == (mods[y].created || y == d)
            && r.listeners == mods[y].listeners + (if y == d then [(x, mods[x].wired)] else [])
  {
    var d := mods[x].deps[mods[x].wired].id;
    var mods1 := mods[x := Wire(mods[x])];
    assert mods[y].listeners + [] == mods[y].listeners;
    assert mods1[y] == if y == x then Wire(mods[x]) else mods[y];
    assert Awaited(mods, x)[y] == if y ==
        d then mods1[y].(created := true, listeners := mods1[y].listeners + [(x, mods[x].wired)])
                                  else mods1[y];
  }

  lemma AwaitedKeeps(mods: seq<Mod>, x: nat)
    requires Consistent(mods) && x < |mods| && mods[x].wired < |mods[x].deps|
    requires mods[x].deps[mods[x].wired].On? && mods[x].deps[mods[x].wired].id < |mods|
    requires mods[x].enabling && mods[x].enabled && mods[x].inited && !mods[mods[x].deps[mods[x].wired].id].defined
    ensures Consistent(Awaited(mods, x))
  {
    hide Awaited;
    var mods' := Awaited(mods, x);
    AwaitedLength(mods, x);
    var d, w := mods[x].deps[mods[x].wired].id, mods[x].wired;
    forall y | 0 <= y < |mods'|
      ensures ModOk(mods', y)
    {
      AwaitedModOk(mods, mods', x, y);
    }
    assert ModOk(mods, d);
    forall y, i | 0 <= y < |mods'| && 0 <= i < |mods'[y].deps|
      ensures Linked(mods', y, i)
    {
      AwaitedAt(mods, x, y);
      AwaitedAt(mods, x, d);
      assert Linked(mods, y, i);
      assert ModOk(mods, y);
      if mods[y].deps[i].On? {
        AwaitedAt(mods, x, mods[y].deps[i].id);
      }
    }
  }

  lemma AwaitedModOk(mods: seq<Mod>, mods': seq<Mod>, x: nat, y: nat)
    requires Consistent(mods) && x < |mods| && mods[x].wired < |mods[x].deps| && y < |mods|
    requires mods[x].deps[mods[x].wired].On? && mods[x].deps[mods[x].wired].id < |mods|
    requires mods[x].enabling && mods[x].enabled && mods[x].inited && mods' == Awaited(mods, x) && |mods'| == |mods|
    ensures ModOk(mods', y)
  {
    hide Awaited;
    AwaitedAt(mods, x, y);
    assert ModOk(mods, y);
    OpenWired(mods[y], mods'[y], mods[y].wired);
    AwaitedAt(mods, x, x);
    forall k | 0 <= k < |mods'[y].listeners|
      ensures ListenerOk(mods', y, mods'[y].listeners[k])
    {
      if k < |mods[y].listeners| {
        assert ListenerOk(mods, y, mods[y].listeners[k]);
        AwaitedAt(mods, x, mods[y].listeners[k].0);
      }
    }
  }

  /** Enabling module x may begin. */
  ghost predicate MayEnable(mods: seq<Mod>, log: seq<nat>, x: nat) {
    x < |mods| && !mods[x].enabling && mods[x].wired == 0 && !mods[x].defined && Calm(Entered(mods, x), log)
  }

  ghost predicate Awaiting(mods: seq<Mod>, log: seq<nat>, x: nat) {
    && Wiring(mods, log, x) && mods[x].deps[mods[x].wired].On?
    && mods[x].deps[mods[x].wired].id < |mods| && !mods[mods[x].deps[mods[x].wired].id].defined
  }

  /** Once a dependency has been taken up, all is calm, unless it is still to be enabled. */
  ghost predicate TakenUp(mods0: seq<Mod>, log0: seq<nat>, mods: seq<Mod>, log: seq<nat>, x: nat) {
    && x < |mods0| == |mods| && mods0[x].wired < |mods0[x].deps| && Later(mods0, log0, mods, log, x)
    && mods[x].wired == mods0[x].wired + 1
    && var dep := mods0[x].deps[mods0[x].wired];
       (dep.On? ==> dep.id < |mods|)
       && if dep.On? && mods[dep.id].InRegistry() && !mods[dep.id].enabled then dep.id != x
            && MayEnable(mods, log, dep.id)
          else Calm(mods, log)
  }

  lemma AwaitedFrame(mods: seq<Mod>, log: seq<nat>, x: nat)
    requires Awaiting(mods, log, x)
    ensures var m2 := Awaited(mods, x);
            |m2| == |mods| && LogOk(m2, log) && AllReady(m2) && Quiet(m2) && Later(mods, log, m2, log, x)
  {
    hide Awaited, InOrder, Grounded;
    var m2 := Awaited(mods, x);
    AwaitedLength(mods, x);
    forall y | 0 <= y < |mods|
      ensures m2[y].defined == mods[y].defined && m2[y].deps == mods[y].deps && m2[y].matched == mods[y].matched
      ensures m2[y].Ready() && (m2[y].defined ==> m2[y].complete)
      ensures Later1(mods[y], m2[y]) && (y != x ==> SameWired(mods[y], m2[y]))
    {
      AwaitedAt(mods, x, y);
      AwaitedAt(mods, x, x);
    }
    if InOrder(mods, log) {
      SameOrder(mods, m2, log);
    }
    if Grounded(mods, {}) {
      SameGrounded(mods, m2, {});
    }
  }

  lemma SameGrounded(a: seq<Mod>, b: seq<Mod>, early: set<nat>)
    requires |a| == |b| && Grounded(a, early)
    requires forall y :: 0 <= y < |a| ==>
        b[y].deps == a[y].deps && b[y].matched == a[y].matched && (a[y].defined ==> b[y].defined)
    ensures Grounded(b, early)
  {
    forall x, i | 0 <= x < |b| && 0 <= i < |b[x].deps| && i < |b[x].matched| && b[x].matched[i] && b[x].deps[i].On?
        && b[x].deps[i].id < |b| && b[x].deps[i].id !in early
      ensures b[b[x].deps[i].id].defined
    {
      assert b[x].deps == a[x].deps && b[x].matched == a[x].matched;
    }
  }

  /** Once the awaited dependency is enabled, everything wired is enabled again. */
  lemma AwaitedSpread(mods: seq<Mod>, log: seq<nat>, x: nat, m3: seq<Mod>)
    requires Awaiting(mods, log, x) && |m3| == |mods|
    requires forall y :: 0 <= y < |mods| ==>
      m3[y].deps == mods[y].deps && (mods[y].enabled ==>
          m3[y].enabled) && m3[y].wired == mods[y].wired + (if y == x then 1 else 0)
    requires m3[mods[x].deps[mods[x].wired].id].enabled
    ensures Spread(m3)
  {
    forall y, i | 0 <= y < |m3| && 0 <= i < m3[y].wired
      ensures SpreadAt(m3, y, i)
    {
      if y != x || i != mods[x].wired {
        assert SpreadAt(mods, y, i);
      }
    }
  }

  /** After the listener is placed: all is calm if the dependency was enabled already, otherwise it may be enabled. */
  lemma AwaitedCalm(mods: seq<Mod>, log: seq<nat>, x: nat)
    requires Awaiting(mods, log, x)
    ensures var m2, d := Awaited(mods, x), mods[x].deps[mods[x].wired].id;
            && |m2| == |mods| && Later(mods, log, m2, log, x) && m2[d].InRegistry() && m2[x].wired == mods[x].wired + 1
            && Later1(mods[x], m2[x]) && !m2[d].defined
            && (if mods[d].enabled then m2[d].enabled && Calm(m2, log)
                 else !m2[d].enabled && d != x && MayEnable(m2, log, d))
  {
    hide Awaited, InOrder, Grounded, Consistent, LogOk, AllReady, Quiet, Spread, Entered;
    var m2, d := Awaited(mods, x), mods[x].deps[mods[x].wired].id;
    AwaitedFrame(mods, log, x);
    AwaitedKeeps(mods, x);
    forall y | 0 <= y < |mods|
      ensures m2[y].deps == mods[y].deps && m2[y].enabled == mods[y].enabled
      ensures m2[y].wired == mods[y].wired + (if y == x then 1 else 0)
      ensures m2[y].created == (mods[y].created || y == d) && m2[y].defined == mods[y].defined
      ensures m2[y].enabling == mods[y].enabling
    {
      AwaitedAt(mods, x, y);
    }
    assert Later1(mods[x], m2[x]);
    if mods[d].enabled {
      AwaitedSpread(mods, log, x, m2);
    } else {
      IdleFacts(mods, d);
      EnteredAt(m2, d);
      AwaitedSpread(mods, log, x, Entered(m2, d));
      EnterKeeps(m2, log, d);
    }
  }

  lemma IdleFacts(mods: seq<Mod>, d: nat)
    requires Consistent(mods) && d < |mods| && !mods[d].enabled
    ensures mods[d].wired == 0 && !mods[d].enabling && !mods[d].defined
  {
    assert ModOk(mods, d);
  }

  lemma EnterKeeps(mods: seq<Mod>, log: seq<nat>, d: nat)
    requires Consistent(mods) && LogOk(mods, log) && AllReady(mods) && Quiet(mods) && d < |mods| && !mods[d].enabled
    requires mods[d].created
    ensures Consistent(Entered(mods, d)) && LogOk(Entered(mods, d), log) && AllReady(Entered(mods, d))
    ensures Quiet(Entered(mods, d))
    ensures mods[d].wired == 0 && !mods[d].enabling && !mods[d].defined
  {
    IdleFacts(mods, d);
    var mods' := Entered(mods, d);
    assert ModOk(mods, d);
    OpenSame(mods[d], mods'[d], 0);
    forall y | 0 <= y < |mods'|
      ensures ModOk(mods', y)
    {
      assert ModOk(mods, y);
    }
    forall y, i | 0 <= y < |mods'| && 0 <= i < |mods'[y].deps|
      ensures Linked(mods', y, i)
    {
      assert Linked(mods, y, i);
    }
  }

  /** Enabling ends: x is no longer enabling, and may now be ready. */
  lemma ExitStep(mods0: seq<Mod>, log0: seq<nat>, mods: seq<Mod>, log: seq<nat>, x: nat)
    requires MayEnable(mods0, log0, x) && Calm(mods, log) && Later(Entered(mods0, x), log0, mods, log, x)
    requires mods[x].wired == |mods[x].deps|
    ensures var m := mods[x := mods[x].(enabling := false)];
            && Consistent(m) && LogOk(m, log) && ReadyBut(m, x) && Quiet(m) && Spread(m) && m[x].enabled
            && Later(mods0, log0, m, log, x)
  {
    hide InOrder, Grounded, Consistent, LogOk;
    var m := mods[x := mods[x].(enabling := false)];
    assert Later1(Entered(mods0, x)[x], mods[x]);
    ExitKeeps(mods, log, x);
    forall y | 0 <= y < |m|
      ensures Later1(mods0[y], m[y]) && (y != x ==> SameWired(mods0[y], m[y]))
    {
      assert Later1(Entered(mods0, x)[y], mods[y]);
    }
    if Grounded(mods0, {}) {
      SameGrounded(mods0, Entered(mods0, x), {});
      SameGrounded(mods, m, {});
      if InOrder(mods0, log0) {
        SameOrder(mods0, Entered(mods0, x), log0);
        SameOrder(mods, m, log);
      }
    }
  }

  lemma ExitKeeps(mods: seq<Mod>, log: seq<nat>, x: nat)
    requires Calm(mods, log) && x < |mods| && mods[x].wired == |mods[x].deps| && mods[x].enabled
    ensures var m := mods[x := mods[x].(enabling := false)];
            Consistent(m) && LogOk(m, log) && Spread(m)
  {
    var m := mods[x := mods[x].(enabling := false)];
    assert ModOk(mods, x);
    OpenSame(mods[x], m[x], m[x].wired);
    forall y | 0 <= y < |m|
      ensures ModOk(m, y)
    {
      assert ModOk(mods, y);
    }
    forall y, i | 0 <= y < |m| && 0 <= i < |m[y].deps|
      ensures Linked(m, y, i)
    {
      assert Linked(mods, y, i);
    }
    forall y, i | 0 <= y < |m| && 0 <= i < m[y].wired
      ensures SpreadAt(m, y, i)
    {
      assert SpreadAt(mods, y, i);
    }
  }

  // ----- a module becomes known, and its define arrives

  /** What any call from outside keeps: nothing is undone, an initialised module keeps its dependencies, and a module
    that becomes known has arrived or has a listener. */
  ghost predicate Follows(a: seq<Mod>, la: seq<nat>, b: seq<Mod>, lb: seq<nat>) {
    && |a| == |b| && la <= lb && forall y :: 0 <= y < |a| ==> Follows1(a[y], b[y])
  }

  predicate Follows1(a: Mod, b: Mod) {
    && b.request == a.request && (a.created ==> b.created) && (a.enabled ==> b.enabled) && (a.defined ==> b.defined)
    && (a.inited ==> b.inited && b.deps == a.deps)
    && (b.created ==> a.created || b.inited || b.listeners != []) && (a.listeners != [] ==> b.listeners != [])
  }

  /** No module but x has arrived. */
  ghost predicate OnlyArrives(a: seq<Mod>, b: seq<Mod>, x: int) {
    |a| == |b| && forall y :: 0 <= y < |a| && y != x ==> b[y].inited == a[y].inited
  }

  lemma FollowsTrans(a: seq<Mod>, la: seq<nat>, b: seq<Mod>, lb: seq<nat>, c: seq<Mod>, lc: seq<nat>)
    requires Follows(a, la, b, lb) && Follows(b, lb, c, lc)
    ensures Follows(a, la, c, lc)
  {
    forall y | 0 <= y < |a|
      ensures Follows1(a[y], c[y])
    {
      assert Follows1(a[y], b[y]) && Follows1(b[y], c[y]);
    }
  }

  /** A module becomes known and arrives in one call. */
  lemma FollowsArrival(a: seq<Mod>, la: seq<nat>, b: seq<Mod>, lb: seq<nat>, x: nat)
    requires x < |a| && Follows(a[x := a[x].(created := true)], la, b, lb) && b[x].inited
    ensures Follows(a, la, b, lb)
  {
    forall y | 0 <= y < |a|
      ensures Follows1(a[y], b[y])
    {
      assert Follows1(a[x := a[x].(created := true)][y], b[y]);
    }
  }

  function Created(m: Mod, request: bool): (r: Mod) {
    m.(created := true, request := request)
  }

  function Initialised(m: Mod, deps: seq<Dep>): (r: Mod) {
    m.(deps := deps, matched := seq(|deps|, _ => false), inited := true)
  }

  lemma CreateStep(mods: seq<Mod>, log: seq<nat>, x: nat, request: bool)
    requires Steady(mods, log) && x < |mods|
    ensures var m := mods[x := Created(mods[x], request)];
            Steady(m, log) && (InOrder(mods, log) ==> InOrder(m, log))
  {
    hide Grounded, InOrder;
    var m := mods[x := Created(mods[x], request)];
    OpenSame(mods[x], m[x], mods[x].wired) by { assert ModOk(mods, x); }
    forall y | 0 <= y < |m|
      ensures ModOk(m, y)
    {
      assert ModOk(mods, y);
    }
    forall y, i | 0 <= y < |m| && 0 <= i < |m[y].deps|
      ensures Linked(m, y, i)
    {
      assert Linked(mods, y, i);
    }
    forall y, i | 0 <= y < |m| && 0 <= i < m[y].wired
      ensures SpreadAt(m, y, i)
    {
      assert SpreadAt(mods, y, i);
    }
    SameGrounded(mods, m, {});
    if InOrder(mods, log) {
      SameOrder(mods, m, log);
    }
  }

  ghost predicate Arrives(mods: seq<Mod>, log: seq<nat>, x: nat, deps: seq<Dep>) {
    && Steady(mods, log) && x < |mods| && mods[x].created && !mods[x].inited
    && forall i :: 0 <= i < |deps| && deps[i].On? ==> deps[i].id < |mods|
  }

  lemma InitFrame(mods: seq<Mod>, log: seq<nat>, x: nat, deps: seq<Dep>)
    requires Arrives(mods, log, x, deps)
    ensures var m := mods[x := Initialised(mods[x], deps)];
            && !mods[x].defined && !mods[x].enabling && mods[x].wired == 0
            && Grounded(m, {}) && (InOrder(mods, log) ==> InOrder(m, log))
  {
    var m := mods[x := Initialised(mods[x], deps)];
    assert ModOk(mods, x);
    forall k, i | InOrder(mods, log) && 0 <= k < |log| && log[k] < |m| && 0 <= i < |m[log[k]].deps|
        && m[log[k]].deps[i].On?
      ensures m[log[k]].deps[i].id in log[..k]
    {
      assert m[log[k]].deps == mods[log[k]].deps;
    }
  }

  /** After init the module may be enabled; if it is not, nothing is left to do. */
  lemma InitStep(mods: seq<Mod>, log: seq<nat>, x: nat, deps: seq<Dep>, entered: bool)
    requires Arrives(mods, log, x, deps) && (mods[x].enabled ==> entered)
    ensures var m := mods[x := Initialised(mods[x], deps)];
            Calm(if entered then Entered(m, x) else m, log)
  {
    hide InOrder, Grounded;
    var m := mods[x := Initialised(mods[x], deps)];
    var e := if entered then Entered(m, x) else m;
    assert ModOk(mods, x);
    forall y | 0 <= y < |e|
      ensures ModOk(e, y)
    {
      assert ModOk(mods, y);
    }
    forall y, i | 0 <= y < |e| && 0 <= i < |e[y].deps|
      ensures Linked(e, y, i)
    {
      if y != x {
        assert Linked(mods, y, i);
      }
    }
    forall y, i | 0 <= y < |e| && 0 <= i < e[y].wired
      ensures SpreadAt(e, y, i)
    {
      assert SpreadAt(mods, y, i);
    }
  }

  lemma DefinedInited(mods: seq<Mod>, log: seq<nat>, x: nat)
    requires Steady(mods, log) && x < |mods|
    ensures (mods[x].defined ==> mods[x].inited) && (mods[x].inited ==> mods[x].created)
  {
    assert ModOk(mods, x);
  }
}
