/** What holds of jQuery.Callbacks in every run: which entries a firing calls, how often, in what order; and in what
  order firings are carried out. */
module CallbackRuns {
  import opened Seqs
  import opened CallbackEntries
  import opened CallbackLists
  import opened CallbackWorlds
  import opened Callbacks

  /** No list is in the middle of a firing. */
  predicate Quiet(w: World) {
    forall l :: 0 <= l < |w.lists| ==> !w.lists[l].firing
  }

  lemma StaysQuiet(a: World, b: World)
    requires Keeps(a, b) && Quiet(a)
    ensures Quiet(b)
  {
    forall l | 0 <= l < |b.lists|
      ensures !b.lists[l].firing
    {
      assert Kept1(a.lists[l], a.g[l], b.lists[l], b.g[l]);
    }
  }

  // ----- which entries a firing calls

  /** In a firing that is over, every entry still on the list was called exactly once, unless the firing was due to a
    late addition and the entry had been there before. Entries were called in the order in which they had been added,
    no entry twice, and all with the same arguments. */
  lemma SurvivorsRunOnce(w: World, k: nat, id: nat)
    requires Sound(w) && k < |w.firings|
    ensures var f := w.firings[k].2;
            && multiset(f.skipped + f.called)[id] <= 1 && (!f.late ==> f.skipped == []) && Increasing(f.called)
            && |f.args| == |f.called| && (forall j :: 0 <= j < |f.args| ==> f.args[j] == w.firings[k].1)
            && (f.left.Some? ==> Survivors(f.skipped + f.called, f.left.value) == f.left.value)
            && (f.left.Some? && id in f.left.value && (f.late ==> id !in f.skipped) ==> multiset(f.called)[id] == 1)
  {
    hide ListOk, DeferredOk;
    var f := w.firings[k].2;
    assert FairFiring(f, w.firings[k].1);
    CountDistinct(f.skipped + f.called, id);
    IncreasingDrop(f.skipped, f.called);
    assert multiset(f.skipped + f.called) == multiset(f.skipped) + multiset(f.called);
    if f.left.Some? && id in f.left.value {
      assert id in Survivors(f.skipped + f.called, f.left.value);
    }
  }

  lemma IncreasingDrop(s: seq<nat>, r: seq<nat>)
    requires Increasing(s + r)
    ensures Increasing(r)
  {
    forall i, j | 0 <= i < j < |r|
      ensures r[i] < r[j]
    {
      assert (s + r)[|s| + i] < (s + r)[|s| + j];
    }
  }

  /** A firing begun in a and over by b called each entry that it found on the list, from start on, or that came to the
    list meanwhile, exactly once, unless a callback took it off; and it called no others. */
  lemma SparedRunOnce(a: World, b: World, k: nat, l: nat, arg: Arg, late: bool, start: nat, id: nat)
    requires Sound(b) && k < |b.firings| && l < |a.lists| == |a.g| && start <= |a.g[l].ids|
    requires Fired(b.firings[k], a, b, l, arg, late, start)
    ensures var f, n := b.firings[k].2, multiset(b.firings[k].2.called)[id];
            && |f.args| == |f.called| && (forall j :: 0 <= j < |f.args| ==> f.args[j] == arg) && Increasing(f.called)
            && n <= 1 && (n == 1 ==> id in a.g[l].ids[start..] + f.came)
            && (LastsFiring(a, b, l) && Spares(Taken(a, b), l, b.cbs, id) ==>
                  (n == 1 <==> id in a.g[l].ids[start..] + f.came))
  {
    hide Sound, Taken, LastsFiring, Spares;
    var f := b.firings[k].2;
    SurvivorsRunOnce(b, k, id);
    assert Distinct(f.called);
    CountDistinct(f.called, id);
  }

  /** When add makes a list fire again, each entry added is called exactly once in this firing, unless a callback took
    it off before its turn, and if it is still on the list in any case. a is the state before add. */
  lemma LateOnesRun(a: World, w: World, k: nat, l: nat, fns: seq<nat>, arg: Arg, id: nat)
    requires Sound(a) && l < |a.lists| == |a.g| && a.lists[l].list.Some? && Sound(w) && k < |w.firings|
    requires |a.g[l].ids| <= |Added(a, l, fns).g[l].ids|
    requires Fired(w.firings[k], Added(a, l, fns), w, l, arg, true, |a.g[l].ids|)
    requires a.next <= id < a.next + |Fresh(a.lists[l], fns)|
    ensures var f, b := w.firings[k].2, Added(a, l, fns);
            && (f.left.Some? && id in f.left.value ==> multiset(f.called)[id] == 1)
            && (LastsFiring(b, w, l) && Spares(Taken(b, w), l, w.cbs, id) ==> multiset(f.called)[id] == 1)
            && (|w.scripts| == |a.scripts| ==> f.called == Numbers(a.next, |Fresh(a.lists[l], fns)|))
  {
    hide Sound, Taken, LastsFiring, Spares, Fresh, PushAll;
    var ids, b := a.g[l].ids, Added(a, l, fns);
    var added := Numbers(a.next, |Fresh(a.lists[l], fns)|);
    AddedIds(a, l, fns);
    assert b.g[l].ids[|ids|..] == added && b.g[l].ids[..|ids|] == ids;
    assert added[id - a.next] == id;
    OldNumbers(a, l);
    SurvivorsRunOnce(w, k, id);
    SparedRunOnce(b, w, k, l, arg, true, |ids|, id);
  }

  lemma OldNumbers(a: World, l: nat)
    requires Sound(a) && l < |a.lists| == |a.g| && a.lists[l].list.Some?
    ensures Below(a.g[l].ids, a.next)
  {
    assert ListOk(a.lists[l], a.g[l], a.next);
  }

  /** An entry that has been taken off its list never comes back, and is never called again. */
  lemma GoneForGood(a: World, b: World, l: nat, id: nat)
    requires Minds(a, b) && l < |a.lists| && l < |a.g| && id in a.g[l].attached && !OnList(a, l, id)
    ensures l < |b.lists| == |b.g| && !OnList(b, l, id)
    ensures multiset(b.g[l].calledIds)[id] == multiset(a.g[l].calledIds)[id]
  {
    hide Stays1, Taken;
    assert Entries1(a, b, l, Taken(a, b));
    var x, y := a.g[l].calledIds, b.g[l].calledIds;
    assert y == x + y[|x|..];
  }

  /** Only what has been added to a list is called. */
  lemma OnlyAddedCalled(w: World, l: nat, id: nat)
    requires Sound(w) && l < |w.lists| && l < |w.g| && id in w.g[l].calledIds
    ensures id in w.g[l].attached
  {
    hide DeferredOk, AllFair;
    assert ListOk(w.lists[l], w.g[l], w.next);
  }

  // ----- all entries

  /** Of all entries ever added to a list, by anyone, those that no script removes are on it. */
  lemma AllOnList(a: World, b: World, l: nat)
    requires Minds(a, b) && Sound(b) && l < |a.lists| == |a.g| && a.g[l].attached == []
    requires Lasts(a, l, Taken(a, b), b.state != Pending)
    ensures l < |b.lists| == |b.g| && b.lists[l].list.Some?
    ensures forall id :: id in b.g[l].attached && Spares(Taken(a, b), l, b.cbs, id) ==> id in b.g[l].ids
    ensures Increasing(b.g[l].attached) && Increasing(b.g[l].ids) && Within(b.g[l].ids, b.g[l].attached)
  {
    hide Gone1, Taken, Lasts, Spares, AllFair, DeferredOk, Survivors;
    assert Entries1(a, b, l, Taken(a, b)) && ListOk(b.lists[l], b.g[l], b.next);
  }

  /** Increasing numbers that contain those of s, and otherwise only greater ones, begin with s. */
  lemma {:induction false} BeginsWith(s: seq<nat>, r: seq<nat>, i: nat)
    requires Increasing(r) && Increasing(s) && i <= |s| && forall x :: x in s ==> x in r
    requires forall x :: x in r && x !in s ==> Below(s, x)
    ensures i <= |r| && s[..i] == r[..i]
    decreases i
  {
    if i > 0 {
      var n := i - 1;
      BeginsWith(s, r, n);
      assert s[n] in r;
      var k :| 0 <= k < |r| && r[k] == s[n];
      assert forall j :: 0 <= j < n ==> s[..n][j] == r[..n][j];
      assert forall j :: 0 <= j < n ==> s[j] == r[j];
      assert n <= k;
      if r[n] in s {
        var j :| 0 <= j < |s| && s[j] == r[n];
        assert n <= j;
      }
      assert r[n] == s[n];
      assert s[..i] == s[..n] + [s[n]] && r[..i] == r[..n] + [r[n]];
    }
  }

  predicate NoRemove(acts: set<Action>, l: nat) {
    forall x :: x in acts && x.DoRemove? ==> x.l != l
  }

  /** Lists were made in a, where nothing had been added, and were used up to m, and then list l was fired. Every entry
    ever added to it that no script removes has been called. */
  lemma AllAddedCalled(a: World, m: World, b: World, k: nat, l: nat, arg: Arg, acts: set<Action>, id: nat)
    requires Minds(a, m) && Minds(m, b) && Sound(m) && l < |a.lists| == |a.g| && a.g[l].attached == []
    requires l < |m.lists| == |m.g| && l < |b.g| && !a.deferred && !a.lists[l].once && a.lists[l].list.Some?
    requires k < |b.firings| && Fired(b.firings[k], m, b, l, arg, false, 0) && CallsNew(m, b, l)
    requires Taken(a, m) + Taken(m, b) <= acts && NoDisable(acts, l) && NoLock(acts, l)
    requires id in b.g[l].attached && Spares(acts, l, b.cbs, id)
    ensures id in b.g[l].calledIds
    ensures id in m.g[l].attached ==> id in m.g[l].ids && id in b.firings[k].2.called
  {
    hide Sound, Taken, Entries1;
    var f := b.firings[k].2;
    assert LastsFiring(m, b, l);
    SparesLess(Taken(m, b), acts, l, b.cbs, b.cbs, id);
    if id in m.g[l].attached {
      SparesLess(Taken(a, m), acts, l, m.cbs, b.cbs, id);
      AllOnList(a, m, l);
      assert id in m.g[l].ids[0..];
      assert id in m.g[l].calledIds + f.called;
    } else {
      assert Comes(m, b, l, id);
    }
  }

  /** If none is removed, the firing called all that had been added before it, in order, and then others. */
  lemma AddedCalledFirst(a: World, m: World, b: World, k: nat, l: nat, arg: Arg, acts: set<Action>)
    requires Minds(a, m) && Minds(m, b) && Sound(m) && Sound(b) && l < |a.lists| == |a.g| && a.g[l].attached == []
    requires l < |m.lists| == |m.g| && l < |b.lists| == |b.g|
    requires !a.deferred && !a.lists[l].once && a.lists[l].list.Some?
    requires k < |b.firings| && Fired(b.firings[k], m, b, l, arg, false, 0) && CallsNew(m, b, l)
    requires Taken(a, m) + Taken(m, b) <= acts && NoDisable(acts, l) && NoLock(acts, l) && NoRemove(acts, l)
    ensures m.g[l].attached <= b.firings[k].2.called
  {
    hide Sound, Taken, Minds, CallsNew, Fired;
    var s, t, f := m.g[l].attached, m.g[l].ids, b.firings[k].2;
    FiredFacts(m, b, k, l, arg);
    AllOnListHere(a, m, b, l, acts);
    forall id | id in s
      ensures id in t && id in f.called
    {
      AllAddedCalled(a, m, b, k, l, arg, acts, id);
    }
    assert forall x :: x in t ==> x in s by {
      assert Within(t, s);
    }
    SurvivorsRunOnce(b, k, 0);
    forall x | x in f.called && x !in s
      ensures Below(s, x)
    {
      CameLater(s, f.came, x);
    }
    BeginsWith(s, f.called, |s|);
    assert s[..|s|] == s;
  }

  lemma FiredFacts(m: World, b: World, k: nat, l: nat, arg: Arg)
    requires Sound(b) && l < |m.lists| == |m.g| && l < |b.lists| == |b.g|
    requires k < |b.firings| && Fired(b.firings[k], m, b, l, arg, false, 0)
    ensures var f := b.firings[k].2;
            && (forall x :: x in f.called ==> x in m.g[l].ids || x in f.came) && Increasing(m.g[l].attached + f.came)
            && m.g[l].calledIds + f.called <= b.g[l].calledIds && m.g[l].attached + f.came <= b.g[l].attached
  {
    hide Sound, Increasing, Taken, LastsFiring, AllCalled;
    SoundOrder(b, l);
    assert m.g[l].ids[0..] == m.g[l].ids;
    IncreasingPrefix(m.g[l].attached + b.firings[k].2.came, b.g[l].attached);
  }

  lemma SoundOrder(w: World, l: nat)
    requires Sound(w) && l < |w.lists| == |w.g|
    ensures Increasing(w.g[l].attached) && Within(w.g[l].calledIds, w.g[l].attached)
  {
    hide AllFair, DeferredOk, Survivors;
    assert ListOk(w.lists[l], w.g[l], w.next);
  }

  lemma IncreasingPrefix(s: seq<nat>, r: seq<nat>)
    requires s <= r && Increasing(r)
    ensures Increasing(s)
  {
  }

  lemma AllOnListHere(a: World, m: World, b: World, l: nat, acts: set<Action>)
    requires Minds(a, m) && Minds(m, b) && Sound(m) && l < |a.lists| == |a.g| && a.g[l].attached == []
    requires l < |m.lists| == |m.g| && l < |b.lists| == |b.g|
    requires !a.deferred && !a.lists[l].once && a.lists[l].list.Some?
    requires Taken(a, m) + Taken(m, b) <= acts && NoDisable(acts, l) && NoLock(acts, l) && NoRemove(acts, l)
    ensures Increasing(m.g[l].attached) && Within(m.g[l].ids, m.g[l].attached) && m.g[l].attached <= b.g[l].attached
    ensures forall id :: id in m.g[l].attached ==> id in b.g[l].attached && Spares(acts, l, b.cbs, id)
  {
    hide Sound, Taken;
    AllOnList(a, m, l);
    assert Entries1(m, b, l, Taken(m, b));
  }

  lemma CameLater(s: seq<nat>, came: seq<nat>, x: nat)
    requires Increasing(s + came) && x in came
    ensures Below(s, x)
  {
    var j :| 0 <= j < |came| && came[j] == x;
    assert (s + came)[|s| + j] == x;
    forall i | 0 <= i < |s|
      ensures s[i] < x
    {
      assert (s + came)[i] == s[i];
    }
  }

  /** What the scripts leave alone. */
  lemma LeftAlone(a: World, m: World, b: World, scripts: seq<seq<Action>>, l: nat)
    requires Minds(a, m) && Minds(m, b) && a.scripts == scripts && AllLeave(scripts, l)
    ensures Taken(a, m) + Taken(m, b) <= Acts(scripts) && NoDisable(Acts(scripts), l) && NoLock(Acts(scripts), l)
  {
    hide Entries;
    TakenTrans(a, m, b);
    var n := |a.scripts| - |b.scripts|;
    assert scripts == scripts[..n] + scripts[n..];
    ActsConcat(scripts[..n], scripts[n..]);
    forall x | x in Acts(scripts) && (x.DoDisable? || x.DoLock?)
      ensures x.l != l
    {
      var i, j :| 0 <= i < |scripts| && 0 <= j < |scripts[i]| && scripts[i][j] == x;
      assert Leaves(scripts[i], l);
    }
  }

  lemma FiredAll(a: World, m: World, b: World, k: nat, l: nat, arg: Arg, before: seq<Action>,
      scripts: seq<seq<Action>>)
    requires Minds(a, m) && Minds(m, b) && Sound(m) && l < |a.lists| == |a.g| && a.g[l].attached == []
    requires l < |m.lists| == |m.g| && l < |b.g| && !a.deferred && !a.lists[l].once && a.lists[l].list.Some?
    requires k < |b.firings| && Fired(b.firings[k], m, b, l, arg, false, 0) && CallsNew(m, b, l)
    requires a.scripts == [before] + scripts && AllLeave(a.scripts, l)
    ensures forall id :: id in b.g[l].attached && Spares(Acts(a.scripts), l, b.cbs, id) ==> id in b.g[l].calledIds
    ensures b.firings[k].0 == l && b.firings[k].1 == arg && !b.firings[k].2.late
  {
    hide Sound, Minds, CallsNew, Taken, AllLeave, Spares, Acts;
    LeftAlone(a, m, b, a.scripts, l);
    forall id | id in b.g[l].attached && Spares(Acts(a.scripts), l, b.cbs, id)
      ensures id in b.g[l].calledIds
    {
      AllAddedCalled(a, m, b, k, l, arg, Acts(a.scripts), id);
    }
  }

  lemma AddedInOrder(w: World, a: World, m: World, b: World, k: nat, l: nat, arg: Arg, before: seq<Action>,
      scripts: seq<seq<Action>>)
    requires Minds(a, m) && Minds(m, b) && Sound(m) && Sound(b) && l < |a.lists| == |a.g| && a.g[l].attached == []
    requires l < |m.lists| == |m.g| && l < |b.lists| == |b.g|
    requires !a.deferred && !a.lists[l].once && !a.lists[l].unique && a.lists[l].list.Some?
    requires k < |b.firings| && Fired(b.firings[k], m, b, l, arg, false, 0) && CallsNew(m, b, l) && m.cbs <= b.cbs
    requires a.scripts == [before] + scripts && AllLeave(a.scripts, l) && NoRemove(Acts(a.scripts), l)
    requires w.g == a.g && Attaches(w, m, l, AddedTo(before, l))
    ensures Below(b.firings[k].2.called, |b.cbs|)
    ensures Subsequence(AddedTo(before, l), Functions(b.cbs, b.firings[k].2.called))
  {
    hide Sound, Minds, CallsNew, Taken, AllLeave, NoRemove, Subsequence, AddedTo, Acts, Fired;
    LeftAlone(a, m, b, a.scripts, l);
    AddedCalledFirst(a, m, b, k, l, arg, Acts(a.scripts));
    var s, f := m.g[l].attached, b.firings[k].2;
    CalledBelow(m, b, k, l, arg);
    var x, y := Functions(m.cbs, s), Functions(b.cbs, f.called);
    assert x[0..] == x;
    forall i | 0 <= i < |x|
      ensures x[i] == y[i]
    {
      assert f.called[i] == s[i];
    }
    assert y == x + y[|x|..];
    SubsequenceNone(y[|x|..]);
    SubsequenceConcat(AddedTo(before, l), x, [], y[|x|..]);
    assert AddedTo(before, l) + [] == AddedTo(before, l);
  }

  lemma CalledBelow(m: World, b: World, k: nat, l: nat, arg: Arg)
    requires Sound(b) && l < |m.lists| == |m.g| && l < |b.lists| == |b.g|
    requires k < |b.firings| && Fired(b.firings[k], m, b, l, arg, false, 0)
    ensures Below(b.firings[k].2.called, |b.cbs|)
  {
    hide Sound, Taken, LastsFiring, AllCalled;
    SoundOrder(b, l);
    SoundAttached(b, l);
    var f, n := b.firings[k].2, |m.g[l].calledIds|;
    forall i | 0 <= i < |f.called|
      ensures f.called[i] < |b.cbs|
    {
      assert b.g[l].calledIds[n + i] == (m.g[l].calledIds + f.called)[n + i] == f.called[i];
      assert f.called[i] in b.g[l].attached;
    }
  }

  lemma KeepsFlags(a: World, b: World, l: nat)
    requires Keeps(a, b) && l < |a.lists|
    ensures |b.lists| == |a.lists| && b.lists[l].once == a.lists[l].once && b.lists[l].unique == a.lists[l].unique
    ensures a.cbs <= b.cbs
  {
    assert Kept1(a.lists[l], a.g[l], b.lists[l], b.g[l]);
  }

  /** Callback lists are made, a script acts on them, and then a list that may fire again is fired; and callbacks act
    all the while. If nobody disables or locks it, every entry ever added to it, by anyone, has been called unless a
    script removes its function; and if nobody removes anything, this firing has called all that the script had added,
    in order. */
  method EveryEntryCalled(flags: seq<(bool, bool, bool)>, scripts: seq<seq<Action>>, before: seq<Action>, l: nat,
      arg: Arg)
    returns (d: Lists, ghost k: nat)
    requires l < |flags| && !flags[l].0 && ScriptOk(before, |flags|, false)
    requires forall j :: 0 <= j < |scripts| ==> ScriptOk(scripts[j], |flags|, false)
    ensures Sound(d.W()) && Quiet(d.W()) && |d.lists| == |d.g| == |flags|
    ensures AllLeave([before] + scripts, l) ==>
      && k < |d.firings| && d.firings[k].0 == l && d.firings[k].1 == arg && !d.firings[k].2.late
      && (forall id :: id in d.g[l].attached && Spares(Acts([before] + scripts), l, d.cbs, id) ==>
            id in d.g[l].calledIds)
      && (!flags[l].2 && NoRemove(Acts([before] + scripts), l) ==>
            && Below(d.firings[k].2.called, |d.cbs|)
            && Subsequence(AddedTo(before, l), Functions(d.cbs, d.firings[k].2.called)))
  {
    hide Sound, Keeps, AllLeave, Subsequence, Attaches, AddedTo, Minds, Fired, CallsNew, Taken, NoRemove;
    d := new Lists(flags, scripts);
    ghost var w0 := d.W();
    SoundCounts(w0);
    d.Perform(before);
    ghost var from, m := w0.(scripts := [before] + scripts), d.W();
    StaysQuiet(w0, m);
    KeepsCounts(w0, m);
    KeepsFlags(w0, m, l);
    SoundShape(m);
    assert AllLeave([before] + scripts, l) && !flags[l].2 ==> Attaches(w0, m, l, AddedTo(before, l)) by {
      assert AllLeave([before] + scripts, l) ==> StaysOpen(from, l);
    }
    d.FireWith(l, arg, false);
    StaysQuiet(m, d.W());
    KeepsCounts(m, d.W());
    KeepsFlags(m, d.W(), l);
    k := 0;
    if AllLeave([before] + scripts, l) {
      assert StaysOpen(from, l);
      OpenAccepts(m, l);
      k :| |m.firings| <= k < |d.firings| && Fired(d.firings[k], m, d.W(), l, arg, false, 0);
      FiredAll(from, m, d.W(), k, l, arg, before, scripts);
      if !flags[l].2 && NoRemove(Acts([before] + scripts), l) {
        AddedInOrder(w0, from, m, d.W(), k, l, arg, before, scripts);
      }
    }
  }

  // ----- in what order firings are carried out

  /** Firings asked for are carried out in the order they were asked for. On a list that is not firing, the recorded
    ones are exactly those asked for, with their arguments; on one that is firing, the first of them. A list that may
    fire once is asked at most once, and one that keeps arguments keeps those of the last firing asked for. */
  lemma FirstInFirstOut(w: World, l: nat)
    requires Sound(w) && l < |w.lists| && w.lists[l].stack.Some?
    ensures |w.g| == |w.lists|
    ensures if w.lists[l].firing then AskedArgs(w.firings, l) <= w.g[l].asked
            else AskedArgs(w.firings, l) == w.g[l].asked
    ensures w.lists[l].firing && !w.g[l].late ==> AskedArgs(w.firings, l) < w.g[l].asked
    ensures w.lists[l].list.Some? && w.lists[l].firing ==> w.lists[l].firingLength == |w.lists[l].list.value|
    ensures w.lists[l].once ==> |w.g[l].asked| <= 1
    ensures w.lists[l].keeps && !w.lists[l].firing ==>
      w.lists[l].memory ==
        if w.g[l].asked == [] then Unset else Kept(AskedArgs(w.firings, l)[|AskedArgs(w.firings, l)| - 1])
  {
    hide AllFair, DeferredOk, AskedArgs;
    assert ListOk(w.lists[l], w.g[l], w.next) && StackOk(w.lists[l]);
    assert ServedOk(w.lists[l], w.g[l], AskedArgs(w.firings, l));
  }

  /** Callback lists are made, and a script acts on them, and so do the callbacks. On a list that may fire again, and
    that nobody disables or locks, every firing asked for by the script, or by anyone, is carried out in turn. */
  method FiresInOrder(flags: seq<(bool, bool, bool)>, scripts: seq<seq<Action>>, script: seq<Action>)
    returns (d: Lists)
    requires ScriptOk(script, |flags|, false)
    requires forall j :: 0 <= j < |scripts| ==> ScriptOk(scripts[j], |flags|, false)
    ensures Sound(d.W()) && Quiet(d.W()) && |d.lists| == |d.g| == |flags|
    ensures forall l :: 0 <= l < |flags| && !flags[l].0 && AllLeave([script] + scripts, l) ==>
      AskedArgs(d.firings, l) == d.g[l].asked && Subsequence(AsksOf(script, l), AskedArgs(d.firings, l))
  {
    hide Sound, Keeps, AllLeave, AsksOf, AskedArgs, Subsequence, Attaches;
    d := new Lists(flags, scripts);
    ghost var w0 := d.W();
    SoundCounts(w0);
    d.Perform(script);
    StaysQuiet(w0, d.W());
    KeepsCounts(w0, d.W());
    forall l | 0 <= l < |flags| && !flags[l].0 && AllLeave([script] + scripts, l)
      ensures AskedArgs(d.firings, l) == d.g[l].asked && Subsequence(AsksOf(script, l), AskedArgs(d.firings, l))
    {
      assert StaysOpen(w0.(scripts := [script] + scripts), l);
      FirstInFirstOut(d.W(), l);
      assert d.g[l].asked[0..] == d.g[l].asked;
    }
  }
}
