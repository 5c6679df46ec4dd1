/** The module state machine of html/njs/require.js: enabling, dependency counting, the defined event, and breaking
  dependency cycles. Plugins, shims, errors and script fetching are not part of the model; a factory is a call that
  is recorded in a log.

  The context keeps one record per module id. A module is in the registry when it has been created and not yet
  defined. A listener (x, i) on a module is the callback that tells module x that its dependency number i is defined.
 */
module LoaderState {

  /** A dependency: one of the names require, exports and module, which is served at once, or another module. */
  datatype Dep = Special | On(id: nat)

  datatype Mod = Mod(
    request: bool,       // made by a require call, not by a define
    deps: seq<Dep>,
    created: bool,
    inited: bool,
    fetched: bool,
    enabled: bool,
    enabling: bool,
    defining: bool,
    defined: bool,
    emitted: bool,       // defineEmitted
    complete: bool,      // defineEmitComplete
    wired: nat,          // how many entries of deps have been turned into maps and wired up
    matched: seq<bool>,  // depMatched
    depCount: int,
    listeners: seq<(nat, nat)>)
  {
    predicate InRegistry() { created && !defined }

    /** A wired, counted dependency that has not been matched. */
    predicate Waits(i: nat) {
      i < wired <= |deps| && |matched| == |deps| && deps[i].On? && !matched[i]
    }

    /** The module once dependency number i has been matched: the callback may come twice, and counts once. */
    function Matching(i: nat): (m: Mod)
      requires i < |matched|
    {
      this.(matched := matched[i := true], depCount := depCount - if matched[i] then 0 else 1)
    }

    /** The number of unmatched counted dependencies among the first k. */
    function Open(k: nat): nat
      requires k <= |deps| == |matched|
    {
      if k == 0 then 0 else Open(k - 1) + if deps[k - 1].On? && !matched[k - 1] then 1 else 0
    }

    /** An enabled module is being fetched, waits for a dependency, or has been defined. */
    predicate Ready() {
      enabled && !enabling ==> if inited then depCount < 1 ==> defined else fetched
    }
  }

  lemma {:induction false} OpenZero(m: Mod, k: nat)
    requires k <= |m.deps| == |m.matched|
    ensures m.Open(k) == 0 <==> forall i :: 0 <= i < k && m.deps[i].On? ==> m.matched[i]
    decreases k
  {
    if k > 0 {
      OpenZero(m, k - 1);
    }
  }

  /** Matching one waiting dependency lowers the count by one. */
  lemma {:induction false} OpenMatch(m: Mod, k: nat, i: nat)
    requires k <= |m.deps| == |m.matched| && i < |m.deps| && m.deps[i].On? && !m.matched[i]
    ensures m.(matched := m.matched[i := true]).Open(k) == m.Open(k) - if i < k then 1 else 0
    decreases k
  {
    if k > 0 {
      OpenMatch(m, k - 1, i);
    }
  }

  lemma {:induction false} OpenSame(m: Mod, m': Mod, k: nat)
    requires k <= |m.deps| == |m.matched| && m'.deps == m.deps && m'.matched == m.matched
    ensures m'.Open(k) == m.Open(k)
    decreases k
  {
    if k > 0 {
      OpenSame(m, m', k - 1);
    }
  }

  // ----- the invariants

  /** The fields of one module fit together; depCount is the number of unmatched counted dependencies. */
  ghost predicate ModOk(mods: seq<Mod>, x: nat)
    requires x < |mods|
  {
    var m := mods[x];
    && |m.matched| == |m.deps| && m.wired <= |m.deps|
    && (forall i :: 0 <= i < |m.deps| && m.deps[i].On? ==> m.deps[i].id < |mods|)
    && (forall i :: m.wired <= i < |m.deps| ==> !m.matched[i])
    && m.depCount == m.Open(m.wired)
    && (!m.inited ==> m.deps == []) && (m.inited ==> m.created)
    && (m.wired > 0 ==> m.inited && m.enabled) && (m.enabling ==> m.enabled) && (m.enabled ==> m.created)
    && (m.enabled && m.inited && !m.enabling ==> m.wired == |m.deps|)
    && (m.defined ==> m.inited && m.enabled && !m.enabling && m.depCount == 0)
    && (m.emitted <==> m.defined) && (m.complete ==> m.emitted) && !m.defining && (m.fetched ==> m.enabled)
    && (forall k :: 0 <= k < |m.listeners| ==> ListenerOk(mods, x, m.listeners[k]))
  }

  predicate ListenerOk(mods: seq<Mod>, d: nat, l: (nat, nat)) {
    l.0 < |mods| && l.1 < mods[l.0].wired <= |mods[l.0].deps| && mods[l.0].deps[l.1] == On(d)
  }

  /** A module that waits for another is among its listeners, and will still be told. */
  ghost predicate Linked(mods: seq<Mod>, x: nat, i: nat)
    requires x < |mods|
  {
    mods[x].Waits(i) ==>
      var d := mods[x].deps[i].id;
      d < |mods| && (x, i) in mods[d].listeners && !mods[d].complete
  }

  ghost predicate Consistent(mods: seq<Mod>) {
    && (forall x :: 0 <= x < |mods| ==> ModOk(mods, x))
    && (forall x, i :: 0 <= x < |mods| && 0 <= i < |mods[x].deps| ==> Linked(mods, x, i))
  }

  ghost predicate AllReady(mods: seq<Mod>) {
    forall x :: 0 <= x < |mods| ==> mods[x].Ready()
  }

  ghost predicate ReadyBut(mods: seq<Mod>, y: nat) {
    forall x :: 0 <= x < |mods| && x != y ==> mods[x].Ready()
  }

  /** No defined event is being emitted. */
  ghost predicate Quiet(mods: seq<Mod>) {
    forall x :: 0 <= x < |mods| && mods[x].defined ==> mods[x].complete
  }

  /** A matched dependency is defined, or in a set of modules that a cycle break has presented too early. */
  ghost predicate Grounded(mods: seq<Mod>, early: set<nat>) {
    forall x, i :: 0 <= x < |mods| && 0 <= i < |mods[x].deps| && i < |mods[x].matched| && mods[x].matched[i]
        && mods[x].deps[i].On?
        && mods[x].deps[i].id < |mods| && mods[x].deps[i].id !in early
      ==> mods[mods[x].deps[i].id].defined
  }

  /** The log of factory calls: each defined module once. */
  ghost predicate LogOk(mods: seq<Mod>, log: seq<nat>) {
    && (forall k :: 0 <= k < |log| ==> log[k] < |mods| && mods[log[k]].defined)
    && (forall x :: 0 <= x < |mods| && mods[x].defined ==> x in log)
    && (forall j, k :: 0 <= j < k < |log| ==> log[j] != log[k])
  }

  /** Each factory ran after those of all its dependencies. */
  ghost predicate InOrder(mods: seq<Mod>, log: seq<nat>) {
    forall k, i :: 0 <= k < |log| && log[k] < |mods| && 0 <= i < |mods[log[k]].deps| && mods[log[k]].deps[i].On? ==>
      mods[log[k]].deps[i].id in log[..k]
  }

  // ----- how notifying changes the modules

  /** One module before and after some notifications: only marks are added. */
  predicate Advanced1(a: Mod, b: Mod) {
    && b == a.(fetched := b.fetched, defined := b.defined, emitted := b.emitted, complete := b.complete,
               matched := b.matched, depCount := b.depCount)
    && |b.matched| == |a.matched|
    && (forall i :: 0 <= i < |a.matched| ==> a.matched[i] ==> b.matched[i])
    && (a.defined ==> b.defined && b.emitted == a.emitted && b.complete == a.complete)
    && (!a.defined && b.defined ==> b.complete)
  }

  ghost predicate Advanced(a: seq<Mod>, b: seq<Mod>) {
    && |a| == |b|
    && (forall x :: 0 <= x < |a| ==> Advanced1(a[x], b[x]))
    && (forall x, i :: 0 <= x < |a| && 0 <= i < |a[x].deps| ==> NewMatch(a, b, x, i))
  }

  /** A dependency matched in between has been defined. */
  predicate NewMatch(a: seq<Mod>, b: seq<Mod>, x: nat, i: nat)
    requires x < |a| == |b| && i < |a[x].deps|
  {
    (i < |a[x].matched| && i < |b[x].matched| && !a[x].matched[i] && b[x].matched[i] && a[x].deps[i].On?
        && a[x].deps[i].id < |b|)
    ==> b[a[x].deps[i].id].defined
  }

  lemma AdvancedTrans(a: seq<Mod>, b: seq<Mod>, c: seq<Mod>)
    requires Advanced(a, b) && Advanced(b, c)
    ensures Advanced(a, c)
  {
    forall x | 0 <= x < |a|
      ensures Advanced1(a[x], c[x])
    {
      assert Advanced1(a[x], b[x]) && Advanced1(b[x], c[x]);
    }
    forall x, i | 0 <= x < |a| && 0 <= i < |a[x].deps|
      ensures NewMatch(a, c, x, i)
    {
      assert Advanced1(a[x], b[x]) && Advanced1(b[x], c[x]);
      assert NewMatch(a, b, x, i) && NewMatch(b, c, x, i);
      if a[x].deps[i].On? && a[x].deps[i].id < |b| {
        assert Advanced1(b[a[x].deps[i].id], c[a[x].deps[i].id]);
      }
    }
  }

  lemma AdvancedGrounded(a: seq<Mod>, b: seq<Mod>, early: set<nat>)
    requires Advanced(a, b) && Grounded(a, early)
    ensures Grounded(b, early)
  {
    forall x, i | 0 <= x < |b| && 0 <= i < |b[x].deps| && i < |b[x].matched| && b[x].matched[i] && b[x].deps[i].On?
        && b[x].deps[i].id < |b| && b[x].deps[i].id !in early
      ensures b[b[x].deps[i].id].defined
    {
      assert Advanced1(a[x], b[x]);
      assert NewMatch(a, b, x, i);
      assert Advanced1(a[b[x].deps[i].id], b[b[x].deps[i].id]);
    }
  }

  /** How many modules are not defined. */
  function Undefined(mods: seq<Mod>): nat {
    if mods == [] then 0
    else Undefined(mods[..|mods| - 1]) + if mods[|mods| - 1].defined then 0 else 1
  }

  lemma {:induction false} UndefinedDrops(a: seq<Mod>, b: seq<Mod>)
    requires |a| == |b| && forall x :: 0 <= x < |a| ==> a[x].defined ==> b[x].defined
    ensures Undefined(b) <= Undefined(a)
    ensures (exists x :: 0 <= x < |a| && !a[x].defined && b[x].defined) ==> Undefined(b) < Undefined(a)
    decreases |a|
  {
    if a != [] {
      UndefinedDrops(a[..|a| - 1], b[..|b| - 1]);
      if x :| 0 <= x < |a| && !a[x].defined && b[x].defined {
        if x < |a| - 1 {
          assert !a[..|a| - 1][x].defined && b[..|b| - 1][x].defined;
        }
      }
    }
  }

  lemma WiredInited(mods: seq<Mod>, x: nat)
    requires Consistent(mods) && x < |mods|
    ensures |mods[x].deps| > 0 ==> mods[x].inited
  {
    assert ModOk(mods, x);
  }

  lemma MatchedWidth(mods: seq<Mod>, x: nat)
    requires Consistent(mods) && x < |mods|
    ensures |mods[x].matched| == |mods[x].deps|
  {
    assert ModOk(mods, x);
  }

  // ----- single changes

  /** A change of one module that leaves its dependencies and listeners alone. */
  lemma SetMarks(mods: seq<Mod>, x: nat, m: Mod)
    requires Consistent(mods) && x < |mods|
    requires m == mods[x].(fetched := m.fetched, defined := m.defined, emitted := m.emitted, complete := m.complete)
    requires m.defined ==> m.inited && m.enabled && !m.enabling && m.depCount == 0
    requires (m.emitted <==> m.defined) && (m.complete ==> m.emitted) && (m.fetched ==> m.enabled)
    requires m.complete && !mods[x].complete ==> forall l :: l in m.listeners ==> l.0 < |mods| && !mods[l.0].Waits(l.1)
    ensures Consistent(mods[x := m])
  {
    var mods' := mods[x := m];
    assert ModOk(mods, x);
    OpenSame(mods[x], m, m.wired);
    forall y | 0 <= y < |mods|
      ensures ModOk(mods', y)
    {
      assert ModOk(mods, y);
    }
    forall y, i | 0 <= y < |mods| && 0 <= i < |mods'[y].deps|
      ensures Linked(mods', y, i)
    {
      assert Linked(mods, y, i);
    }
  }

  lemma MatchKeeps(mods: seq<Mod>, x: nat, i: nat)
    requires Consistent(mods) && x < |mods| && i < mods[x].wired && i < |mods[x].matched| && i < |mods[x].deps|
    requires mods[x].deps[i].On?
    ensures Consistent(mods[x := mods[x].Matching(i)])
  {
    var m := mods[x];
    var m' := m.Matching(i);
    var mods' := mods[x := m'];
    assert ModOk(mods, x);
    if m.matched[i] {
      assert m'.matched == m.matched && mods' == mods;
      return;
    }
    OpenMatch(m, m.wired, i);
    OpenSame(m.(matched := m.matched[i := true]), m', m.wired);
    WaitingIsUndefined(mods, x, i);
    forall y | 0 <= y < |mods|
      ensures ModOk(mods', y)
    {
      assert ModOk(mods, y);
    }
    forall y, k | 0 <= y < |mods| && 0 <= k < |mods'[y].deps|
      ensures Linked(mods', y, k)
    {
      assert Linked(mods, y, k);
    }
  }

  /** A defined module has all its dependencies matched. */
  lemma DefinedWaitsForNothing(mods: seq<Mod>, x: nat)
    requires Consistent(mods) && x < |mods| && mods[x].depCount < 1
    ensures forall i :: !mods[x].Waits(i)
  {
    assert ModOk(mods, x);
    OpenZero(mods[x], mods[x].wired);
  }

  lemma WaitingIsUndefined(mods: seq<Mod>, x: nat, i: nat)
    requires Consistent(mods) && x < |mods| && mods[x].Waits(i)
    ensures !mods[x].defined && mods[x].depCount >= 1
  {
    assert ModOk(mods, x);
    OpenZero(mods[x], mods[x].wired);
  }

  lemma AdvancedUndefined(a: seq<Mod>, b: seq<Mod>)
    requires Advanced(a, b)
    ensures Undefined(b) <= Undefined(a)
  {
    forall x | 0 <= x < |a|
      ensures a[x].defined ==> b[x].defined
    {
      assert Advanced1(a[x], b[x]);
    }
    UndefinedDrops(a, b);
  }

  // ----- progress: what a call into the modules does

  /** Marks are added, the log grows, and it stays in dependency order as long as nothing was presented early. */
  ghost predicate Progress(a: seq<Mod>, la: seq<nat>, b: seq<Mod>, lb: seq<nat>) {
    && Advanced(a, b) && la <= lb
    && (Grounded(a, {}) && InOrder(a, la) ==> InOrder(b, lb))
  }

  lemma ProgressRefl(a: seq<Mod>, la: seq<nat>)
    ensures Progress(a, la, a, la)
  {
  }

  lemma ProgressTrans(a: seq<Mod>, la: seq<nat>, b: seq<Mod>, lb: seq<nat>, c: seq<Mod>, lc: seq<nat>)
    requires Progress(a, la, b, lb) && Progress(b, lb, c, lc)
    ensures Progress(a, la, c, lc)
  {
    hide InOrder, Advanced, Grounded;
    AdvancedTrans(a, b, c);
    if Grounded(a, {}) {
      AdvancedGrounded(a, b, {});
    }
  }

  lemma ProgressKeeps(a: seq<Mod>, la: seq<nat>, b: seq<Mod>, lb: seq<nat>, x: nat)
    requires Progress(a, la, b, lb) && x < |a|
    ensures |b| == |a| && Advanced1(a[x], b[x]) && Undefined(b) <= Undefined(a)
  {
    AdvancedUndefined(a, b);
  }

  lemma InOrderSame(a: seq<Mod>, b: seq<Mod>, log: seq<nat>)
    requires Advanced(a, b) && InOrder(a, log)
    ensures InOrder(b, log)
  {
    forall k, i | 0 <= k < |log| && log[k] < |b| && 0 <= i < |b[log[k]].deps| && b[log[k]].deps[i].On?
      ensures b[log[k]].deps[i].id in log[..k]
    {
      assert Advanced1(a[log[k]], b[log[k]]);
    }
  }

  /** The first k listeners have been told. */
  ghost predicate Told(mods: seq<Mod>, listeners: seq<(nat, nat)>, k: nat) {
    k <= |listeners| && forall j :: 0 <= j < k ==>
        listeners[j].0 < |mods| && !mods[listeners[j].0].Waits(listeners[j].1)
  }

  lemma NotDefining(mods: seq<Mod>, x: nat)
    requires Consistent(mods) && x < |mods|
    ensures !mods[x].defining && (mods[x].emitted <==> mods[x].defined) && (mods[x].complete ==> mods[x].emitted)
    ensures mods[x].defined ==> mods[x].depCount < 1
  {
    assert ModOk(mods, x);
  }

  lemma ListenerFacts(mods: seq<Mod>, x: nat, k: nat)
    requires Consistent(mods) && x < |mods| && k < |mods[x].listeners|
    ensures var l := mods[x].listeners[k];
            && l.0 < |mods| && l.1 < mods[l.0].wired <= |mods[l.0].deps| == |mods[l.0].matched|
            && mods[l.0].deps[l.1] == On(x)
  {
    assert ModOk(mods, x);
    assert ListenerOk(mods, x, mods[x].listeners[k]);
    assert ModOk(mods, mods[x].listeners[k].0);
  }

  lemma FetchStep(mods: seq<Mod>, log: seq<nat>, x: nat)
    requires Consistent(mods) && LogOk(mods, log) && x < |mods| && ReadyBut(mods, x)
    requires mods[x].enabled && !mods[x].inited
    ensures var mods' := mods[x := mods[x].(fetched := true)];
            Consistent(mods') && LogOk(mods', log) && AllReady(mods') && Progress(mods, log, mods', log)
  {
    hide InOrder, Grounded;
    var m := mods[x].(fetched := true);
    assert ModOk(mods, x);
    SetMarks(mods, x, m);
    if InOrder(mods, log) {
      InOrderSame(mods, mods[x := m], log);
    }
  }

  /** Running the factory of a ready module. */
  lemma DefineStep(mods: seq<Mod>, log: seq<nat>, x: nat)
    requires Consistent(mods) && LogOk(mods, log) && x < |mods| && ReadyBut(mods, x)
    requires mods[x].inited && mods[x].enabled && !mods[x].enabling && mods[x].depCount < 1 && !mods[x].defined
    ensures var mods' := mods[x := mods[x].(defining := false, defined := true, emitted := true)];
            && Consistent(mods') && LogOk(mods', log + [x]) && AllReady(mods') && Undefined(mods') < Undefined(mods)
            && !mods'[x].complete
            && (Grounded(mods, {}) ==> Grounded(mods', {}))
            && (Grounded(mods, {}) && InOrder(mods, log) ==> InOrder(mods', log + [x]))
  {
    hide InOrder, Grounded, LogOk;
    var d := mods[x].(defining := false, defined := true, emitted := true);
    assert ModOk(mods, x);
    SetMarks(mods, x, d);
    assert !mods[x].defined && mods[x := d][x].defined;
    UndefinedDrops(mods, mods[x := d]);
    LogGrows(mods, log, x, d);
    if Grounded(mods, {}) {
      DefinedGrounded(mods, x, d, {});
    }
    if Grounded(mods, {}) && InOrder(mods, log) {
      OrderGrows(mods, log, x, d);
    }
  }

  lemma DefinedGrounded(mods: seq<Mod>, x: nat, d: Mod, early: set<nat>)
    requires Grounded(mods, early) && x < |mods| && d.deps == mods[x].deps && d.matched == mods[x].matched && d.defined
    ensures Grounded(mods[x := d], early)
  {
  }

  lemma LogGrows(mods: seq<Mod>, log: seq<nat>, x: nat, d: Mod)
    requires LogOk(mods, log) && x < |mods| && !mods[x].defined && d.defined
    ensures LogOk(mods[x := d], log + [x])
  {
    var log' := log + [x];
    var mods' := mods[x := d];
    forall y | 0 <= y < |mods'| && mods'[y].defined
      ensures y in log'
    {
      assert y == x || y in log;
    }
    forall k | 0 <= k < |log|
      ensures log[k] != x
    {
    }
  }

  /** All dependencies of a module that is ready are matched, hence defined, hence in the log. */
  lemma OrderGrows(mods: seq<Mod>, log: seq<nat>, x: nat, d: Mod)
    requires Consistent(mods) && LogOk(mods, log) && x < |mods| && mods[x].depCount < 1
    requires mods[x].wired == |mods[x].deps|
    requires Grounded(mods, {}) && InOrder(mods, log) && d.deps == mods[x].deps
    ensures InOrder(mods[x := d], log + [x])
  {
    var log' := log + [x];
    var mods' := mods[x := d];
    DefinedWaitsForNothing(mods, x);
    assert ModOk(mods, x);
    forall k, i | 0 <= k < |log'| && log'[k] < |mods'| && 0 <= i < |mods'[log'[k]].deps| && mods'[log'[k]].deps[i].On?
      ensures mods'[log'[k]].deps[i].id in log'[..k]
    {
      assert mods'[log'[k]].deps == mods[log'[k]].deps;
      assert log'[..k] == log[..k];
      if k == |log| {
        assert !mods[x].Waits(i);
        assert mods[mods[x].deps[i].id].defined;
      }
    }
  }

  /** After the event: every listener has been told, so the event is complete. */
  lemma CloseStep(m0: seq<Mod>, l0: seq<nat>, m1: seq<Mod>, l1: seq<nat>, m2: seq<Mod>, l2: seq<nat>, x: nat)
    requires x < |m0| && !m0[x].defined && !m0[x].complete
    requires m1 == m0[x := m0[x].(defining := false, defined := true, emitted := true)]
    requires !m0[x].defining && l1 == l0 + [x]
    requires Consistent(m2) && LogOk(m2, l2) && AllReady(m2) && Progress(m1, l1, m2, l2)
    requires x < |m2| && Told(m2, m2[x].listeners, |m2[x].listeners|)
    requires Grounded(m0, {}) && InOrder(m0, l0) ==> InOrder(m1, l1)
    requires Grounded(m0, {}) ==> Grounded(m1, {})
    ensures var m3 := m2[x := m2[x].(complete := true)];
            Consistent(m3) && LogOk(m3, l2) && AllReady(m3) && Progress(m0, l0, m3, l2)
  {
    hide InOrder, Grounded, LogOk, Consistent;
    var c := m2[x].(complete := true);
    var m3 := m2[x := c];
    ClosedConsistent(m2, x, m1[x]);
    ClosedLog(m2, l2, x, c);
    assert Advanced1(m1[x], m2[x]);
    assert m3[x := m3[x].(complete := m1[x].complete)] == m2;
    DefinedAdvanced(m0, m1, m3, x);
    if InOrder(m2, l2) {
      ClosedOrder(m2, l2, x, c);
    }
  }

  lemma ClosedConsistent(m2: seq<Mod>, x: nat, before: Mod)
    requires Consistent(m2) && x < |m2| && Told(m2, m2[x].listeners, |m2[x].listeners|)
    requires before.defined && before.emitted && Advanced1(before, m2[x])
    ensures Consistent(m2[x := m2[x].(complete := true)])
  {
    assert ModOk(m2, x);
    forall l | l in m2[x].listeners
      ensures l.0 < |m2| && !m2[l.0].Waits(l.1)
    {
    }
    SetMarks(m2, x, m2[x].(complete := true));
  }

  lemma ClosedLog(mods: seq<Mod>, log: seq<nat>, x: nat, c: Mod)
    requires LogOk(mods, log) && x < |mods| && c.defined == mods[x].defined
    ensures LogOk(mods[x := c], log)
  {
  }

  lemma MatchLog(mods: seq<Mod>, log: seq<nat>, x: nat, i: nat)
    requires LogOk(mods, log) && x < |mods| && i < |mods[x].matched|
    ensures LogOk(mods[x := mods[x].Matching(i)], log)
  {
  }

  lemma ClosedOrder(mods: seq<Mod>, log: seq<nat>, x: nat, c: Mod)
    requires InOrder(mods, log) && x < |mods| && c.deps == mods[x].deps
    ensures InOrder(mods[x := c], log)
  {
    var mods' := mods[x := c];
    forall k, i | 0 <= k < |log| && log[k] < |mods'| && 0 <= i < |mods'[log[k]].deps| && mods'[log[k]].deps[i].On?
      ensures mods'[log[k]].deps[i].id in log[..k]
    {
      assert mods'[log[k]].deps == mods[log[k]].deps;
    }
  }

  /** Telling one listener: its dependency is matched, and only that listener may now be ready. */
  lemma NotifyStep(m0: seq<Mod>, l0: seq<nat>, m1: seq<Mod>, log: seq<nat>, x: nat, l: (nat, nat))
    requires Consistent(m1) && LogOk(m1, log) && AllReady(m1) && Progress(m0, l0, m1, log) && x < |m1| && m1[x].defined
    requires l.0 < |m1| && l.1 < |m1[l.0].matched| && l.1 < |m1[l.0].deps| && m1[l.0].deps[l.1] == On(x)
    requires l.1 < m1[l.0].wired
    ensures var m2 := m1[l.0 := m1[l.0].Matching(l.1)];
            && Consistent(m2) && LogOk(m2, log) && ReadyBut(m2, l.0) && Progress(m1, log, m2, log)
            && m2[l.0].matched[l.1]
            && Undefined(m2) <= Undefined(m0)
  {
    hide InOrder, Grounded, Consistent;
    var m2 := m1[l.0 := m1[l.0].Matching(l.1)];
    MatchKeeps(m1, l.0, l.1);
    MatchLog(m1, log, l.0, l.1);
    MatchAdvanced(m1, m2, l.0, l.1);
    AdvancedUndefined(m0, m1);
    AdvancedUndefined(m1, m2);
    if InOrder(m1, log) {
      InOrderSame(m1, m2, log);
    }
  }

  lemma ToldStep(m1: seq<Mod>, m2: seq<Mod>, l2: seq<nat>, m3: seq<Mod>, l3: seq<nat>, listeners: seq<(nat, nat)>,
      k: nat)
    requires k < |listeners| && Told(m1, listeners, k) && Progress(m1, l2, m2, l2) && Progress(m2, l2, m3, l3)
    requires var l := listeners[k];
             l.0 < |m2| && l.1 < |m2[l.0].matched| && m2[l.0].matched[l.1]
    ensures Told(m3, listeners, k + 1)
  {
    hide InOrder, Grounded;
    AdvancedTrans(m1, m2, m3);
    forall j | 0 <= j < k + 1
      ensures listeners[j].0 < |m3| && !m3[listeners[j].0].Waits(listeners[j].1)
    {
    }
  }

  lemma MatchAdvanced(a: seq<Mod>, b: seq<Mod>, x: nat, i: nat)
    requires |a| == |b| && x < |a| && (forall y :: 0 <= y < |a| && y != x ==> b[y] == a[y])
    requires i < |a[x].matched| && b[x] == a[x].(matched := a[x].matched[i := true], depCount := b[x].depCount)
    requires i < |a[x].deps| && (a[x].deps[i].On? && a[x].deps[i].id < |a| ==> a[a[x].deps[i].id].defined)
    ensures Advanced(a, b)
  {
    forall y, k | 0 <= y < |a| && 0 <= k < |a[y].deps|
      ensures NewMatch(a, b, y, k)
    {
    }
  }

  /** Defining a module, telling its listeners, and closing the event, in all. */
  lemma DefinedAdvanced(a: seq<Mod>, b: seq<Mod>, c: seq<Mod>, x: nat)
    requires x < |a| && !a[x].defined && b == a[x := a[x].(defined := true, emitted := true)]
    requires |c| == |b| && !c[x].complete == false && c[x].defined
    requires Advanced(b, c[x := c[x].(complete := b[x].complete)])
    ensures Advanced(a, c)
  {
    var c' := c[x := c[x].(complete := b[x].complete)];
    forall y | 0 <= y < |a|
      ensures Advanced1(a[y], c[y])
    {
      assert Advanced1(b[y], c'[y]);
    }
    forall y, i | 0 <= y < |a| && 0 <= i < |a[y].deps|
      ensures NewMatch(a, c, y, i)
    {
      assert NewMatch(b, c', y, i);
      assert Advanced1(b[y], c'[y]);
    }
  }
}
