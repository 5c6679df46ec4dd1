/** What becomes of the entries of callback lists while callbacks run: an entry stays until it is taken off, is called
  in each firing that finds it or that it comes to, and once it is off it is never called again. */
module CallbackEntries {
  import opened Wrappers
  import opened CallbackLists
  import opened CallbackWorlds

  // ----- what scripts do to entries

  /** The actions of some scripts. */
  function Acts(scripts: seq<seq<Action>>): (r: set<Action>)
    ensures forall j, k :: 0 <= j < |scripts| && 0 <= k < |scripts[j]| ==> scripts[j][k] in r
  {
    set j, k | 0 <= j < |scripts| && 0 <= k < |scripts[j]| :: scripts[j][k]
  }

  /** None of these actions removes the function of this entry from list l. */
  predicate Spares(acts: set<Action>, l: nat, cbs: seq<Cb>, id: nat) {
    forall x :: x in acts && x.DoRemove? && x.l == l ==> id >= |cbs| || cbs[id] != User(x.fn)
  }

  predicate NoDisable(acts: set<Action>, l: nat) {
    forall x :: x in acts && x.DoDisable? ==> x.l != l
  }

  predicate NoLock(acts: set<Action>, l: nat) {
    forall x :: x in acts && x.DoLock? ==> x.l != l
  }

  /** A list that keeps arguments can be locked without losing its entries. */
  predicate Held(c: CbList) {
    c.keeps && c.memory.Kept?
  }

  /** Nothing empties list l from a on: it is not one that may fire once, unless it is firing, and none of these actions
    disables it, by locking it before it keeps arguments either. Settling a deferred locks its progress list. */
  predicate Lasts(a: World, l: nat, acts: set<Action>, settled: bool) {
    && l < |a.lists| && a.lists[l].list.Some? && (a.lists[l].once ==> a.lists[l].firing) && NoDisable(acts, l)
    && (Held(a.lists[l]) || if a.deferred then !settled else NoLock(acts, l))
  }

  /** Entries of a list that lasts, and those that come to it, are still there in b unless these actions remove them. */
  ghost predicate Stays1(a: World, b: World, l: nat, acts: set<Action>)
    requires l < |a.lists| == |a.g| == |b.lists| == |b.g|
  {
    Lasts(a, l, acts, b.state != Pending) ==>
      && b.lists[l].list.Some? && (b.lists[l].once ==> b.lists[l].firing) && (Held(a.lists[l]) ==> Held(b.lists[l]))
      && forall id :: OnOrNew(a, b, l, id) && Spares(acts, l, b.cbs, id) ==> id in b.g[l].ids
  }

  /** The entry is on the list in a, or comes to it between a and b. */
  predicate OnOrNew(a: World, b: World, l: nat, id: nat)
    requires l < |a.g| && l < |b.g|
  {
    id in a.g[l].ids || Comes(a, b, l, id)
  }

  predicate Comes(a: World, b: World, l: nat, id: nat)
    requires l < |a.g| && l < |b.g|
  {
    id in b.g[l].attached && id !in a.g[l].attached
  }

  predicate OnList(w: World, l: nat, id: nat)
    requires l < |w.lists| == |w.g|
  {
    w.lists[l].list.Some? && id in w.g[l].ids
  }

  /** An entry that is off its list in a does not come back, and is not called. */
  ghost predicate Gone1(a: World, b: World, l: nat)
    requires l < |a.lists| == |a.g| == |b.lists| == |b.g|
  {
    && a.g[l].calledIds <= b.g[l].calledIds && a.g[l].attached <= b.g[l].attached
    && forall id :: id in a.g[l].attached && !OnList(a, l, id) ==>
         !OnList(b, l, id) && id !in b.g[l].calledIds[|a.g[l].calledIds|..]
  }

  ghost predicate Entries1(a: World, b: World, l: nat, acts: set<Action>)
    requires l < |a.lists| == |a.g| == |b.lists| == |b.g|
  {
    && b.lists[l].once == a.lists[l].once && b.lists[l].keeps == a.lists[l].keeps
    && Stays1(a, b, l, acts) && Gone1(a, b, l)
  }

  /** What becomes of the entries between a and b, while these actions are performed. */
  ghost predicate Entries(a: World, b: World, acts: set<Action>) {
    && |a.lists| == |a.g| == |b.lists| == |b.g| && b.deferred == a.deferred && a.cbs <= b.cbs
    && (a.deferred && b.state == Pending ==> a.state == Pending)
    && forall l :: 0 <= l < |a.lists| ==> Entries1(a, b, l, acts)
  }

  /** The scripts in b are those that are left in a, after the first ones have been performed. */
  predicate Later(a: World, b: World) {
    |b.scripts| <= |a.scripts| && b.scripts == a.scripts[|a.scripts| - |b.scripts|..]
  }

  /** The actions performed between a and b. */
  function Taken(a: World, b: World): set<Action> {
    if |b.scripts| <= |a.scripts| then Acts(a.scripts[..|a.scripts| - |b.scripts|]) else {}
  }

  ghost predicate Minds(a: World, b: World) {
    Later(a, b) && Entries(a, b, Taken(a, b))
  }

  // ----- one after the other

  lemma SparesLess(acts: set<Action>, more: set<Action>, l: nat, cbs: seq<Cb>, cbs': seq<Cb>, id: nat)
    requires Spares(more, l, cbs', id) && acts <= more && cbs <= cbs'
    ensures Spares(acts, l, cbs, id)
  {
  }

  lemma StaysTrans(a: World, b: World, c: World, s: set<Action>, t: set<Action>, l: nat)
    requires l < |a.lists| == |a.g| == |b.lists| == |b.g| == |c.lists| == |c.g| && a.deferred == b.deferred
    requires a.cbs <= b.cbs <= c.cbs && (b.deferred && c.state == Pending ==> b.state == Pending)
    requires Stays1(a, b, l, s) && Stays1(b, c, l, t)
    ensures Stays1(a, c, l, s + t)
  {
    hide Held, Spares;
    if Lasts(a, l, s + t, c.state != Pending) {
      assert Lasts(a, l, s, b.state != Pending);
      assert Lasts(b, l, t, c.state != Pending);
      forall id | OnOrNew(a, c, l, id) && Spares(s + t, l, c.cbs, id)
        ensures id in c.g[l].ids
      {
        SparesLess(s, s + t, l, b.cbs, c.cbs, id);
        SparesLess(t, s + t, l, c.cbs, c.cbs, id);
      }
    }
  }

  lemma GoneTrans(a: World, b: World, c: World, l: nat)
    requires l < |a.lists| == |a.g| == |b.lists| == |b.g| == |c.lists| == |c.g| && Gone1(a, b, l) && Gone1(b, c, l)
    ensures Gone1(a, c, l)
  {
    var m, n := |a.g[l].calledIds|, |b.g[l].calledIds|;
    assert c.g[l].calledIds[m..] == b.g[l].calledIds[m..] + c.g[l].calledIds[n..];
  }

  lemma EntriesTrans(a: World, b: World, c: World, s: set<Action>, t: set<Action>)
    requires Entries(a, b, s) && Entries(b, c, t)
    ensures Entries(a, c, s + t)
  {
    hide Stays1, Gone1;
    forall l | 0 <= l < |a.lists|
      ensures Entries1(a, c, l, s + t)
    {
      assert Entries1(a, b, l, s) && Entries1(b, c, l, t);
      StaysTrans(a, b, c, s, t, l);
      GoneTrans(a, b, c, l);
    }
  }

  lemma StaysMore(a: World, b: World, s: set<Action>, t: set<Action>, l: nat)
    requires l < |a.lists| == |a.g| == |b.lists| == |b.g| && Stays1(a, b, l, s) && s <= t
    ensures Stays1(a, b, l, t)
  {
    hide Held;
  }

  lemma EntriesMore(a: World, b: World, s: set<Action>, t: set<Action>)
    requires Entries(a, b, s) && s <= t
    ensures Entries(a, b, t)
  {
    hide Stays1, Gone1;
    forall l | 0 <= l < |a.lists|
      ensures Entries1(a, b, l, t)
    {
      assert Entries1(a, b, l, s);
      StaysMore(a, b, s, t, l);
    }
  }

  lemma TakenTrans(a: World, b: World, c: World)
    requires Later(a, b) && Later(b, c)
    ensures Later(a, c) && Taken(a, c) == Taken(a, b) + Taken(b, c)
  {
    var m, n := |a.scripts| - |b.scripts|, |b.scripts| - |c.scripts|;
    var s, t, u := a.scripts[..m], b.scripts[..n], a.scripts[..m + n];
    assert u == s + t;
    ActsConcat(s, t);
  }

  lemma ActsConcat(s: seq<seq<Action>>, t: seq<seq<Action>>)
    ensures Acts(s + t) == Acts(s) + Acts(t)
  {
    forall x | x in Acts(t)
      ensures x in Acts(s + t)
    {
      var j, k :| 0 <= j < |t| && 0 <= k < |t[j]| && t[j][k] == x;
      assert (s + t)[|s| + j][k] == x;
    }
    forall x | x in Acts(s)
      ensures x in Acts(s + t)
    {
      var j, k :| 0 <= j < |s| && 0 <= k < |s[j]| && s[j][k] == x;
      assert (s + t)[j][k] == x;
    }
  }

  lemma MindsTrans(a: World, b: World, c: World)
    requires Minds(a, b) && Minds(b, c)
    ensures Minds(a, c)
  {
    hide Entries, Taken, Later;
    TakenTrans(a, b, c);
    EntriesTrans(a, b, c, Taken(a, b), Taken(b, c));
  }

  // ----- single steps

  lemma Untouched(a: World, b: World, l: nat, acts: set<Action>)
    requires l < |a.lists| == |a.g| == |b.lists| == |b.g| && a.deferred == b.deferred
    requires b.lists[l] == a.lists[l] && b.g[l] == a.g[l]
    ensures Entries1(a, b, l, acts)
  {
  }

  /** A change to one list. */
  lemma EntriesSet(a: World, b: World, l: nat, acts: set<Action>)
    requires l < |a.lists| == |a.g| == |b.lists| == |b.g| && b.deferred == a.deferred && a.cbs <= b.cbs
    requires a.deferred && b.state == Pending ==> a.state == Pending
    requires forall k :: 0 <= k < |a.lists| && k != l ==> b.lists[k] == a.lists[k] && b.g[k] == a.g[k]
    requires Entries1(a, b, l, acts)
    ensures Entries(a, b, acts)
  {
    hide Entries1;
    forall k | 0 <= k < |a.lists|
      ensures Entries1(a, b, k, acts)
    {
      if k != l {
        Untouched(a, b, k, acts);
      }
    }
  }

  lemma NothingTaken(a: World, b: World)
    requires b.scripts == a.scripts
    ensures Later(a, b) && Taken(a, b) == {}
  {
    assert a.scripts[..0] == [];
  }

  /** A change to one list that takes nothing off it. */
  lemma MindsSet(a: World, b: World, l: nat)
    requires l < |a.lists| == |a.g| == |b.lists| == |b.g| && b.deferred == a.deferred && a.cbs == b.cbs
    requires b.scripts == a.scripts && b.state == a.state
    requires forall k :: 0 <= k < |a.lists| && k != l ==> b.lists[k] == a.lists[k] && b.g[k] == a.g[k]
    requires b.lists[l].once == a.lists[l].once && b.lists[l].keeps == a.lists[l].keeps
    requires b.lists[l].list == a.lists[l].list && (a.lists[l].firing ==> b.lists[l].firing)
    requires Held(a.lists[l]) ==> Held(b.lists[l])
    requires b.g[l].ids == a.g[l].ids && b.g[l].attached == a.g[l].attached && b.g[l].calledIds == a.g[l].calledIds
    ensures Minds(a, b)
  {
    hide Entries, Later, Taken;
    NothingTaken(a, b);
    EntriesSet(a, b, l, {});
  }

  lemma MindsNothing(w: World)
    requires |w.lists| == |w.g|
    ensures Minds(w, w)
  {
    hide Entries1;
    NothingTaken(w, w);
    forall l | 0 <= l < |w.lists|
      ensures Entries1(w, w, l, {})
    {
      Untouched(w, w, l, {});
    }
  }

  lemma AddedMinds(w: World, l: nat, fns: seq<nat>)
    requires Sound(w) && l < |w.lists| == |w.g| && w.lists[l].list.Some?
    ensures Minds(w, Added(w, l, fns))
  {
    hide PushAll, Entries, Later, Taken, Sound;
    var a := Added(w, l, fns);
    AddedIds(w, l, fns);
    SoundAttached(w, l);
    NothingTaken(w, a);
    var more := Numbers(w.next, |Fresh(w.lists[l], fns)|);
    assert a.g[l].attached == w.g[l].attached + more && a.g[l].ids == w.g[l].ids + more;
    EntriesSet(w, a, l, {});
  }

  lemma BeginMinds(w: World, l: nat, start: nat, arg: Arg, late: bool)
    requires l < |w.lists| == |w.g| && w.lists[l].list.Some? && start <= |w.g[l].ids|
    ensures Minds(w, BeginWorld(w, l, start, arg, late))
  {
    hide Minds;
    MindsSet(w, BeginWorld(w, l, start, arg, late), l);
  }

  lemma BeginWorldIs(w: World, l: nat, start: nat, arg: Arg, late: bool)
    requires l < |w.lists| == |w.g| && w.lists[l].list.Some? && start <= |w.g[l].ids|
    ensures BeginWorld(w, l, start, arg, late) ==
      w.(lists := w.lists[l := w.lists[l].(memory := if w.lists[l].keeps then Kept(arg) else Halted, firing := true,
                                           firingIndex := start, firingLength := |w.lists[l].list.value|)],
         g := w.g[l := BeginTrack(w.g[l], start, late)])
  {
  }

  lemma CallMinds(w: World, l: nat, arg: Arg)
    requires l < |w.lists| == |w.g| && 0 <= w.lists[l].firingIndex < |w.g[l].ids| && w.lists[l].list.Some?
    ensures Minds(w, CallWorld(w, l, arg))
  {
    hide Entries, Later, Taken;
    var d := CallWorld(w, l, arg);
    NothingTaken(w, d);
    EntriesSet(w, d, l, {});
  }

  lemma NextMinds(w: World, l: nat)
    requires l < |w.lists| == |w.g|
    ensures Minds(w, Next(w, l))
  {
    hide Minds;
    MindsSet(w, Next(w, l), l);
  }

  /** One of the callbacks that a deferred starts with. */
  lemma BuiltinMinds(w: World, l: nat, arg: Arg, cb: Cb)
    requires BuiltinTurn(w, l, cb) && Turn(w, l, arg) && w.deferred
    ensures Minds(w, AfterBuiltin(w, l, arg, cb))
  {
    hide Minds, AfterBuiltin, CallWorld, Next, Starters, Effect, SettlingOk;
    TurnSettles(w, l, arg);
    var d := CallWorld(w, l, arg);
    CallMinds(w, l, arg);
    EffectMinds(w, l, arg, cb);
    AfterBuiltinIs(w, l, arg, cb);
    NextMinds(Effect(d, cb), l);
    MindsTrans(w, d, Effect(d, cb));
    MindsTrans(w, Effect(d, cb), AfterBuiltin(w, l, arg, cb));
  }

  lemma TurnSettles(w: World, l: nat, arg: Arg)
    requires Turn(w, l, arg) && w.deferred && l < 2
    ensures SettlingOk(w, l, arg)
  {
  }

  lemma AfterBuiltinIs(w: World, l: nat, arg: Arg, cb: Cb)
    requires BuiltinTurn(w, l, cb)
    ensures AfterBuiltin(w, l, arg, cb) == Next(Effect(CallWorld(w, l, arg), cb), l)
    ensures |Effect(CallWorld(w, l, arg), cb).lists| == 3 == |Effect(CallWorld(w, l, arg), cb).g|
  {
  }

  /** When they run: the other list has not fired when it is disabled, and the deferred is settled by the time its
    progress list is locked. */
  lemma BuiltinFacts(w: World, l: nat, arg: Arg, cb: Cb)
    requires BuiltinTurn(w, l, cb) && SettlingOk(w, l, arg)
    ensures cb.SetState? ==> cb.s != Pending
    ensures cb.Disabler? ==> cb.l != l && !w.lists[cb.l].firing && w.lists[cb.l].once
    ensures cb.Locker? ==> cb.l != l && w.state != Pending && !w.lists[cb.l].once
  {
    hide Settled;
    assert |w.g[l].calledIds| < 3;
  }

  lemma EffectMinds(w: World, l: nat, arg: Arg, cb: Cb)
    requires BuiltinTurn(w, l, cb) && SettlingOk(w, l, arg) && w.deferred
    ensures |CallWorld(w, l, arg).lists| == |CallWorld(w, l, arg).g| == 3
    ensures Minds(CallWorld(w, l, arg), Effect(CallWorld(w, l, arg), cb))
  {
    hide SettlingOk, Entries, Later, Taken, Starters;
    BuiltinFacts(w, l, arg, cb);
    var d := CallWorld(w, l, arg);
    var e := Effect(d, cb);
    NothingTaken(d, e);
    match cb {
      case SetState(s) => SettingEntries(d, s, l);
      case Disabler(k) => SilencedEntries(d, e, k);
      case Locker(k) => SilencedEntries(d, e, k);
    }
  }

  lemma SettingEntries(d: World, s: State, l: nat)
    requires l < |d.lists| == |d.g| && s != Pending
    ensures Entries(d, d.(state := s), {})
  {
    hide Entries;
    EntriesSet(d, d.(state := s), l, {});
  }

  /** A list that has not fired and may fire once is disabled, or the progress list of a settled deferred is locked. */
  lemma SilencedEntries(d: World, e: World, k: nat)
    requires k < |d.lists| == |d.g| && d.deferred
    requires if !d.lists[k].firing && d.lists[k].once then e == d.(lists := d.lists[k := Disabled(d.lists[k])])
             else d.state != Pending && e == d.(lists := d.lists[k := Locked(d.lists[k])])
    ensures Entries(d, e, {})
  {
    hide Entries;
    EntriesSet(d, e, k, {});
  }

  /** The end of a firing, on a list that was not firing in a: if it may fire again, its entries stay. */
  lemma EndMinds(a: World, w: World, l: nat, arg: Arg)
    requires Minds(a, w) && l < |a.lists| && !a.lists[l].firing
    requires w.g[l].mark <= |w.g[l].calledIds| == |w.g[l].calledArgs|
    ensures Minds(a, Ended(w, l, arg))
  {
    hide Stays1, Gone1;
    var e := Ended(w, l, arg);
    forall k | 0 <= k < |a.lists|
      ensures Entries1(a, e, k, Taken(a, e))
    {
      assert Entries1(a, w, k, Taken(a, w));
      EndStays(a, w, l, arg, k);
      EndGone(a, w, l, arg, k);
    }
  }

  lemma EndStays(a: World, w: World, l: nat, arg: Arg, k: nat)
    requires k < |a.lists| == |a.g| == |w.lists| == |w.g| && l < |a.lists| && !a.lists[l].firing
    requires w.g[l].mark <= |w.g[l].calledIds| == |w.g[l].calledArgs| && w.lists[k].once == a.lists[k].once
    requires Stays1(a, w, k, Taken(a, w))
    ensures Stays1(a, Ended(w, l, arg), k, Taken(a, w))
  {
    hide Taken;
  }

  lemma EndGone(a: World, w: World, l: nat, arg: Arg, k: nat)
    requires k < |a.lists| == |a.g| == |w.lists| == |w.g| && l < |a.lists|
    requires w.g[l].mark <= |w.g[l].calledIds| == |w.g[l].calledArgs| && Gone1(a, w, k)
    ensures Gone1(a, Ended(w, l, arg), k)
  {
  }

  lemma PopMinds(w: World, l: nat)
    requires l < |w.lists| == |w.g| && w.lists[l].stack.Some? && w.lists[l].stack.value != []
    ensures Minds(w, Popped(w, l))
  {
    hide Minds;
    MindsSet(w, Popped(w, l), l);
  }

  // ----- the actions of a script

  lemma RemovedEntries(w: World, l: nat, fn: nat, i: nat)
    requires Sound(w) && l < |w.lists| == |w.g| && w.lists[l].list.Some?
    requires i < |w.lists[l].list.value| == |w.g[l].ids| && w.lists[l].list.value[i] == User(fn)
    ensures Entries(w, Removed(w, l, i), {DoRemove(l, fn)})
  {
    hide AllFair, EntriesFit, AllServed, Entries, Survivors, Behind;
    var b := Removed(w, l, i);
    assert ListOk(w.lists[l], w.g[l], w.next) && NamedList(w.lists[l], w.g[l], w.cbs);
    IncreasingSplice(w.g[l].ids, i);
    assert !Spares({DoRemove(l, fn)}, l, b.cbs, w.g[l].ids[i]) by {
      assert DoRemove(l, fn) in {DoRemove(l, fn)};
    }
    EntriesSet(w, b, l, {DoRemove(l, fn)});
  }

  lemma DisabledEntries(w: World, l: nat)
    requires l < |w.lists| == |w.g|
    ensures Entries(w, w.(lists := w.lists[l := Disabled(w.lists[l])]), {DoDisable(l)})
  {
    hide Entries;
    assert DoDisable(l) in {DoDisable(l)};
    EntriesSet(w, w.(lists := w.lists[l := Disabled(w.lists[l])]), l, {DoDisable(l)});
  }

  lemma LockedEntries(w: World, l: nat)
    requires l < |w.lists| == |w.g| && !w.deferred
    ensures Entries(w, w.(lists := w.lists[l := Locked(w.lists[l])]), {DoLock(l)})
  {
    hide Entries;
    assert DoLock(l) in {DoLock(l)};
    EntriesSet(w, w.(lists := w.lists[l := Locked(w.lists[l])]), l, {DoLock(l)});
  }

  /** The actions of a script up to the given one, and those performed meanwhile. */
  ghost predicate Performed(a: World, b: World, script: seq<Action>) {
    Later(a, b) && Entries(a, b, Acts([script]) + Taken(a, b))
  }

  lemma PerformedNothing(w: World)
    requires |w.lists| == |w.g|
    ensures Performed(w, w, [])
  {
    hide Entries;
    MindsNothing(w);
    EntriesMore(w, w, Taken(w, w), Acts([[]]) + Taken(w, w));
  }

  lemma PerformedMore(a: World, b: World, c: World, script: seq<Action>, i: nat)
    requires i < |script| && Performed(a, b, script[..i]) && Performed(b, c, [script[i]])
    ensures Performed(a, c, script[..i + 1])
  {
    hide Entries, Later, Taken;
    var s, t := Acts([script[..i]]) + Taken(a, b), Acts([[script[i]]]) + Taken(b, c);
    TakenTrans(a, b, c);
    EntriesTrans(a, b, c, s, t);
    ActsNext(script, i);
    EntriesMore(a, c, s + t, Acts([script[..i + 1]]) + Taken(a, c));
  }

  lemma ActsNext(script: seq<Action>, i: nat)
    requires i < |script|
    ensures Acts([script[..i]]) + Acts([[script[i]]]) <= Acts([script[..i + 1]])
  {
    forall x | x in Acts([script[..i]]) + Acts([[script[i]]])
      ensures x in Acts([script[..i + 1]])
    {
      if x in Acts([script[..i]]) {
        var j, k :| 0 <= j < 1 && 0 <= k < |[script[..i]][j]| && [script[..i]][j][k] == x;
        assert [script[..i + 1]][0][k] == x;
      } else {
        assert [script[..i + 1]][0][i] == x;
      }
    }
  }

  lemma PerformedOne(a: World, b: World, x: Action, acts: set<Action>)
    requires Later(a, b) && Entries(a, b, acts) && acts <= {x} + Taken(a, b)
    ensures Performed(a, b, [x])
  {
    hide Entries, Later, Taken;
    assert [[x]][0][0] in Acts([[x]]);
    EntriesMore(a, b, acts, Acts([[x]]) + Taken(a, b));
  }

  lemma ActPerformed(a: World, b: World, x: Action)
    requires Entries(a, b, {x}) && b.scripts == a.scripts
    ensures Performed(a, b, [x])
  {
    hide Entries, Later, Taken;
    NothingTaken(a, b);
    PerformedOne(a, b, x, {x});
  }

  lemma MindsPerformed(a: World, b: World, x: Action)
    requires Minds(a, b)
    ensures Performed(a, b, [x])
  {
    hide Entries, Later, Taken;
    PerformedOne(a, b, x, Taken(a, b));
  }

  /** A script performed, seen from when it was the next one to be taken. */
  lemma MindsScript(a: World, b: World, script: seq<Action>)
    requires Performed(a, b, script)
    ensures Minds(a.(scripts := [script] + a.scripts), b)
  {
    hide Entries1;
    var from := a.(scripts := [script] + a.scripts);
    var m := |a.scripts| - |b.scripts|;
    assert from.scripts[..m + 1] == [script] + a.scripts[..m];
    ActsConcat([script], a.scripts[..m]);
    forall l | 0 <= l < |a.lists|
      ensures Entries1(from, b, l, Taken(from, b))
    {
      assert Entries1(a, b, l, Acts([script]) + Taken(a, b));
      SameEntries(a, from, b, l, Taken(from, b));
    }
  }

  lemma SameEntries(a: World, a': World, b: World, l: nat, acts: set<Action>)
    requires l < |a.lists| == |a.g| == |b.lists| == |b.g| && Entries1(a, b, l, acts) && a' == a.(scripts := a'.scripts)
    ensures Entries1(a', b, l, acts)
  {
  }

  // ----- the firing loop

  /** The turns of the firing loop so far, if no callback has acted: the entries from start on are called in turn. */
  predicate Undisturbed(a: World, b: World, l: nat, start: nat)
    requires l < |a.lists| == |a.g| == |b.lists| == |b.g|
  {
    var ids, c, t := a.g[l].ids, b.lists[l], b.g[l];
    && c.list == a.lists[l].list && t.ids == ids && start <= c.firingIndex <= |ids| == c.firingLength
    && t.mark <= |t.calledIds| && t.calledIds[t.mark..] == ids[start..c.firingIndex]
  }

  /** How far the firing loop has come in b that was entered in a. */
  predicate Turning(a: World, b: World, l: nat, start: nat, late: bool) {
    && l < |a.lists| == |a.g| == |b.lists| == |b.g| && start <= |a.g[l].ids| && |a.firings| <= |b.firings|
    && b.g[l].late == late && b.g[l].skip == a.g[l].ids[..start] && |b.scripts| <= |a.scripts|
    && b.g[l].mark == |a.g[l].calledIds| && b.g[l].from == |a.g[l].attached|
    && (|b.scripts| == |a.scripts| ==> Undisturbed(a, b, l, start))
  }

  lemma TurningStarts(w: World, l: nat, start: nat, arg: Arg, late: bool)
    requires l < |w.lists| == |w.g| && w.lists[l].list.Some? && start <= |w.g[l].ids| == |w.lists[l].list.value|
    ensures Turning(w, BeginWorld(w, l, start, arg, late), l, start, late)
  {
  }

  lemma TurningGoesOn(a: World, b: World, c: World, l: nat, start: nat, late: bool, arg: Arg)
    requires Turning(a, b, l, start, late) && |c.lists| == |c.g| == |b.lists| && KeepsBut(b, c, l)
    requires 0 <= b.lists[l].firingIndex < |b.g[l].ids| && b.lists[l].firingIndex < b.lists[l].firingLength
    requires c.g[l].late == b.g[l].late && c.g[l].skip == b.g[l].skip
    requires c.g[l].mark == b.g[l].mark && c.g[l].from == b.g[l].from
    requires |c.scripts| == |b.scripts| ==> c.lists[l] == b.lists[l].(firingIndex := b.lists[l].firingIndex + 1)
    requires |c.scripts| == |b.scripts| ==> c.g[l] == CallTrack(b.g[l], b.g[l].ids[b.lists[l].firingIndex], arg)
    ensures Turning(a, c, l, start, late)
  {
    if |c.scripts| == |a.scripts| {
      var t, k := b.g[l], b.lists[l].firingIndex;
      assert (t.calledIds + [t.ids[k]])[t.mark..] == t.calledIds[t.mark..] + [t.ids[k]];
    }
  }

  /** Nothing empties list l while it fires, from a to b. */
  predicate LastsFiring(a: World, b: World, l: nat)
    requires l < |a.lists|
  {
    && NoDisable(Taken(a, b), l)
    && (a.lists[l].keeps || if a.deferred then b.state == Pending else NoLock(Taken(a, b), l))
  }

  /** The firing of list l that was begun in a, with the entry at start, asked for or late, and was over by b. It called
    entries that were on the list from start on, or that came meanwhile, and all of those that nobody took off; if no
    callback acted, exactly those on the list, in turn. */
  ghost predicate Fired(e: (nat, Arg, Firing), a: World, b: World, l: nat, arg: Arg, late: bool, start: nat)
    requires l < |a.lists| == |a.g| && start <= |a.g[l].ids|
  {
    var ids, f := a.g[l].ids, e.2;
    && e.0 == l && e.1 == arg && f.late == late && f.skipped == ids[..start] && l < |b.g|
    && a.g[l].calledIds + f.called <= b.g[l].calledIds && a.g[l].attached + f.came <= b.g[l].attached
    && (forall id :: id in f.called ==> id in ids[start..] || id in f.came)
    && (LastsFiring(a, b, l) ==> f.left.Some? && AllCalled(f, ids[start..] + f.came, Taken(a, b), l, b.cbs))
    && (|b.scripts| == |a.scripts| ==> f.called == ids[start..] && f.left == Some(ids))
  }

  ghost predicate AllCalled(f: Firing, ids: seq<nat>, acts: set<Action>, l: nat, cbs: seq<Cb>)
    requires f.left.Some?
  {
    forall id :: id in ids && Spares(acts, l, cbs, id) ==> id in f.called && id in f.left.value
  }

  ghost predicate Recorded(a: World, b: World, l: nat, arg: Arg, late: bool, start: nat)
    requires l < |a.lists| == |a.g| && start <= |a.g[l].ids|
  {
    exists k :: |a.firings| <= k < |b.firings| && Fired(b.firings[k], a, b, l, arg, late, start)
  }

  /** Every entry that comes to a list while it fires, and that nobody takes off, is called meanwhile. */
  ghost predicate CallsNew(a: World, b: World, l: nat)
    requires l < |a.lists|
  {
    && l < |a.g| && l < |b.g| && |a.g[l].calledIds| <= |b.g[l].calledIds|
    && (LastsFiring(a, b, l) ==> forall id :: Comes(a, b, l, id) && Spares(Taken(a, b), l, b.cbs, id) ==>
          id in b.g[l].calledIds[|a.g[l].calledIds|..])
  }

  lemma RanAll(r: seq<nat>, s: seq<nat>)
    requires Survivors(r, s) == s
    ensures forall id :: id in s ==> id in r
  {
    forall id | id in s
      ensures id in r
    {
      assert id in Survivors(r, s);
    }
  }

  /** At the end of the loop: m is reached from the firing begun in a. */
  ghost predicate LoopEnded(a: World, m: World, l: nat, start: nat, arg: Arg, late: bool) {
    && Turning(a, m, l, start, late) && a.lists[l].list.Some? && Minds(BeginWorld(a, l, start, arg, late), m)
    && HeadOk(m.lists[l], m.g[l], m.next) && Increasing(a.g[l].ids) && Within(a.g[l].ids, a.g[l].attached)
    && !(m.lists[l].list.Some? && m.lists[l].firingIndex < m.lists[l].firingLength)
  }

  lemma LoopEndedHere(a: World, m: World, l: nat, start: nat, arg: Arg, late: bool)
    requires l < |a.lists| == |a.g| && a.lists[l].list.Some? && start <= |a.g[l].ids|
    requires Head(BeginWorld(a, l, start, arg, late), l, arg) && Head(m, l, arg)
    requires Turning(a, m, l, start, late) && Minds(BeginWorld(a, l, start, arg, late), m)
    requires !(m.lists[l].list.Some? && m.lists[l].firingIndex < m.lists[l].firingLength)
    ensures LoopEnded(a, m, l, start, arg, late)
  {
    hide Minds, Turning, SettlingOk, DeferredOk, AllFair, AllServed, Named, ListOk;
  }

  /** Only entries on the list from start on, or added meanwhile, have been called. */
  lemma CalledKnown(a: World, m: World, l: nat, start: nat, arg: Arg, late: bool, id: nat)
    requires LoopEnded(a, m, l, start, arg, late) && id in m.g[l].calledIds[m.g[l].mark..]
    ensures id in a.g[l].ids[start..] || id in m.g[l].Came()
  {
    hide Taken, Survivors, Stays1, Behind;
    var w, t := BeginWorld(a, l, start, arg, late), m.g[l];
    assert Entries1(w, m, l, Taken(w, m));
    var k :| t.mark <= k < |t.calledIds| && t.calledIds[k] == id;
    assert id in t.attached;
    if id in a.g[l].attached {
      assert OnList(w, l, id);
      AfterSkipped(t.skip, t.calledIds[t.mark..], k - t.mark);
      InDrop(a.g[l].ids, start, id);
    } else {
      InDrop(t.attached, t.from, id);
    }
  }

  lemma AfterSkipped(skip: seq<nat>, called: seq<nat>, k: nat)
    requires Increasing(skip + called) && k < |called|
    ensures called[k] !in skip
  {
    var r := skip + called;
    assert r[|skip| + k] == called[k];
    forall i | 0 <= i < |skip|
      ensures skip[i] < called[k]
    {
      assert r[i] == skip[i];
    }
  }

  lemma InDrop(s: seq<nat>, k: nat, x: nat)
    requires k <= |s| && x in s && x !in s[..k]
    ensures x in s[k..]
  {
    assert s == s[..k] + s[k..];
  }

  /** Those that nobody took off are on the list, and have been called. */
  lemma CalledAll(a: World, m: World, l: nat, start: nat, arg: Arg, late: bool, id: nat)
    requires LoopEnded(a, m, l, start, arg, late) && LastsFiring(a, m, l) && Spares(Taken(a, m), l, m.cbs, id)
    requires id in a.g[l].ids[start..] || id in m.g[l].Came()
    ensures m.lists[l].list.Some? && id in m.g[l].ids && id in m.g[l].calledIds[m.g[l].mark..]
  {
    hide Survivors, Behind, Gone1, Spares, NoDisable, NoLock;
    var w, t := BeginWorld(a, l, start, arg, late), m.g[l];
    assert Taken(w, m) == Taken(a, m);
    assert Entries1(w, m, l, Taken(w, m));
    assert Lasts(w, l, Taken(w, m), m.state != Pending);
    NotSkipped(a, m, l, start, arg, late, id);
    assert OnOrNew(w, m, l, id);
    assert t.ids[..m.lists[l].firingIndex] == t.ids;
    RanAll(t.Ran(), t.ids);
  }

  lemma NotSkipped(a: World, m: World, l: nat, start: nat, arg: Arg, late: bool, id: nat)
    requires LoopEnded(a, m, l, start, arg, late) && (id in a.g[l].ids[start..] || id in m.g[l].Came())
    ensures id !in m.g[l].skip
    ensures id in a.g[l].ids || (id in m.g[l].attached && id !in a.g[l].attached)
  {
    hide Taken, Survivors, Behind, Stays1;
    var w, t := BeginWorld(a, l, start, arg, late), m.g[l];
    assert Entries1(w, m, l, Taken(w, m));
    assert a.g[l].attached <= t.attached;
    if id in t.Came() {
      var k :| t.from <= k < |t.attached| && t.attached[k] == id;
      assert id !in a.g[l].attached;
    } else {
      var k :| start <= k < |a.g[l].ids| && a.g[l].ids[k] == id;
    }
  }

  lemma LastsEarlier(a: World, m: World, c: World, l: nat)
    requires l < |a.lists| && LastsFiring(a, c, l) && Taken(a, m) <= Taken(a, c)
    requires a.deferred && c.state == Pending ==> m.state == Pending
    ensures LastsFiring(a, m, l)
  {
    hide Taken;
  }

  /** The firing that is over, as it is on record: c is the state once firings that were waiting have been carried
    out. */
  lemma TurningEnds(a: World, m: World, l: nat, start: nat, late: bool, arg: Arg, c: World)
    requires LoopEnded(a, m, l, start, arg, late) && m.g[l].mark <= |m.g[l].calledIds| == |m.g[l].calledArgs|
    requires Ended(m, l, arg).firings <= c.firings && Minds(Ended(m, l, arg), c)
    requires CallsNew(Ended(m, l, arg), c, l)
    ensures Recorded(a, c, l, arg, late, start) && CallsNew(a, c, l)
  {
    hide LoopEnded, Minds, CallsNew, Fired;
    LoopEndedIs(a, m, l, start, late, arg, c);
    var e := c.firings[|m.firings|];
    EndFired(a, m, l, start, late, arg, c, e);
    EndCallsNew(a, m, l, start, late, arg, c);
  }

  lemma LoopEndedIs(a: World, m: World, l: nat, start: nat, late: bool, arg: Arg, c: World)
    requires LoopEnded(a, m, l, start, arg, late) && m.g[l].mark <= |m.g[l].calledIds| == |m.g[l].calledArgs|
    requires Ended(m, l, arg).firings <= c.firings && Minds(Ended(m, l, arg), c)
    ensures |a.firings| <= |m.firings| < |c.firings|
    ensures c.firings[|m.firings|] == (l, arg, Record(m.lists[l], m.g[l]))
    ensures Taken(a, m) <= Taken(a, c) && Taken(m, c) <= Taken(a, c) && Taken(Ended(m, l, arg), c) == Taken(m, c)
    ensures m.cbs <= c.cbs && |c.scripts| <= |m.scripts| <= |a.scripts|
    ensures m.deferred == a.deferred && (a.deferred && c.state == Pending ==> m.state == Pending)
    ensures l < |c.g| && m.g[l].calledIds <= c.g[l].calledIds && m.g[l].attached <= c.g[l].attached
  {
    hide Stays1, Undisturbed, HeadOk, Taken;
    assert Entries1(Ended(m, l, arg), c, l, Taken(Ended(m, l, arg), c));
    var w := BeginWorld(a, l, start, arg, late);
    TakenTrans(a, m, c);
    SameTaken(Ended(m, l, arg), m, c);
    SameTaken(w, a, m);
  }

  lemma SameTaken(a: World, a': World, b: World)
    requires a.scripts == a'.scripts
    ensures Taken(a, b) == Taken(a', b) && Later(a, b) == Later(a', b)
  {
  }

  lemma EndFired(a: World, m: World, l: nat, start: nat, late: bool, arg: Arg, c: World, e: (nat, Arg, Firing))
    requires LoopEnded(a, m, l, start, arg, late) && m.g[l].mark <= |m.g[l].calledIds| == |m.g[l].calledArgs|
    requires e == (l, arg, Record(m.lists[l], m.g[l]))
    requires Taken(a, m) <= Taken(a, c) && m.cbs <= c.cbs && |c.scripts| <= |m.scripts| <= |a.scripts|
    requires a.deferred && c.state == Pending ==> m.state == Pending
    requires l < |c.g| && m.g[l].calledIds <= c.g[l].calledIds && m.g[l].attached <= c.g[l].attached
    ensures Fired(e, a, c, l, arg, late, start)
  {
    hide HeadOk, Minds, LastsFiring, Spares, Taken, Increasing, Within;
    var ids, f := a.g[l].ids, e.2;
    EndGrows(a, m, l, start, late, arg);
    forall id | id in f.called
      ensures id in ids[start..] || id in f.came
    {
      CalledKnown(a, m, l, start, arg, late, id);
    }
    if LastsFiring(a, c, l) {
      LastsEarlier(a, m, c, l);
      LeftSome(a, m, l, start, arg, late);
      forall id | id in ids[start..] + f.came && Spares(Taken(a, c), l, c.cbs, id)
        ensures id in f.called && id in f.left.value
      {
        SparesLess(Taken(a, m), Taken(a, c), l, m.cbs, c.cbs, id);
        CalledAll(a, m, l, start, arg, late, id);
      }
    }
  }

  lemma EndGrows(a: World, m: World, l: nat, start: nat, late: bool, arg: Arg)
    requires LoopEnded(a, m, l, start, arg, late)
    ensures m.g[l].calledIds == a.g[l].calledIds + m.g[l].calledIds[m.g[l].mark..]
    ensures m.g[l].attached == a.g[l].attached + m.g[l].Came()
  {
    hide HeadOk, Stays1, Increasing, Within, Taken;
    var w := BeginWorld(a, l, start, arg, late);
    assert Entries1(w, m, l, Taken(w, m));
  }

  lemma LeftSome(a: World, m: World, l: nat, start: nat, arg: Arg, late: bool)
    requires LoopEnded(a, m, l, start, arg, late) && LastsFiring(a, m, l)
    ensures m.lists[l].list.Some?
  {
    hide Survivors, Behind, Gone1, Spares, NoDisable, NoLock, HeadOk;
    var w := BeginWorld(a, l, start, arg, late);
    assert Taken(w, m) == Taken(a, m);
    assert Entries1(w, m, l, Taken(w, m));
    assert Lasts(w, l, Taken(w, m), m.state != Pending);
  }

  lemma EndCallsNew(a: World, m: World, l: nat, start: nat, late: bool, arg: Arg, c: World)
    requires LoopEnded(a, m, l, start, arg, late) && m.g[l].mark <= |m.g[l].calledIds| == |m.g[l].calledArgs|
    requires Minds(Ended(m, l, arg), c) && CallsNew(Ended(m, l, arg), c, l)
    requires Taken(a, m) <= Taken(a, c) && Taken(m, c) <= Taken(a, c) && m.cbs <= c.cbs
    requires Taken(Ended(m, l, arg), c) == Taken(m, c) && m.deferred == a.deferred
    requires a.deferred && c.state == Pending ==> m.state == Pending
    ensures CallsNew(a, c, l)
  {
    hide HeadOk, Spares, Taken, Increasing, Within, Stays1, NoDisable, NoLock;
    var n := Ended(m, l, arg);
    assert Entries1(n, c, l, Taken(n, c));
    var w := BeginWorld(a, l, start, arg, late);
    assert Entries1(w, m, l, Taken(w, m));
    var called, before := c.g[l].calledIds, |a.g[l].calledIds|;
    assert called[before..] == m.g[l].calledIds[before..] + called[|m.g[l].calledIds|..];
    if LastsFiring(a, c, l) {
      LastsEarlier(a, m, c, l);
      assert LastsFiring(n, c, l) by {
        LastsLater(a, n, c, l);
      }
      forall id | Comes(a, c, l, id) && Spares(Taken(a, c), l, c.cbs, id)
        ensures id in called[before..]
      {
        if id in m.g[l].attached {
          SparesLess(Taken(a, m), Taken(a, c), l, m.cbs, c.cbs, id);
          InDrop(m.g[l].attached, m.g[l].from, id);
          CalledAll(a, m, l, start, arg, late, id);
        } else {
          SparesLess(Taken(m, c), Taken(a, c), l, c.cbs, c.cbs, id);
        }
      }
    }
  }

  lemma LastsLater(a: World, m: World, c: World, l: nat)
    requires l < |a.lists| && l < |m.lists| && LastsFiring(a, c, l) && Taken(m, c) <= Taken(a, c)
    requires m.lists[l].keeps == a.lists[l].keeps && m.deferred == a.deferred
    ensures LastsFiring(m, c, l)
  {
    hide Taken;
  }

  /** A firing on record, seen from a state with the same entries, scripts and firings. */
  lemma RecordedFrom(a: World, a': World, b: World, l: nat, arg: Arg, late: bool, start: nat)
    requires l < |a.lists| == |a.g| == |a'.lists| == |a'.g| && start <= |a.g[l].ids|
    requires Recorded(a, b, l, arg, late, start)
    requires a'.g[l].ids == a.g[l].ids && a'.scripts == a.scripts && a'.firings == a.firings
    requires a'.g[l].calledIds == a.g[l].calledIds && a'.g[l].attached == a.g[l].attached
    requires a'.lists[l].keeps == a.lists[l].keeps && a'.deferred == a.deferred
    ensures Recorded(a', b, l, arg, late, start)
  {
    hide Taken, AllCalled;
    SameTaken(a, a', b);
    var k :| |a.firings| <= k < |b.firings| && Fired(b.firings[k], a, b, l, arg, late, start);
    assert Fired(b.firings[k], a', b, l, arg, late, start);
  }

  lemma CallsNewFrom(a: World, a': World, b: World, l: nat)
    requires l < |a.lists| == |a.g| == |a'.lists| == |a'.g| && CallsNew(a, b, l)
    requires a'.g[l].attached == a.g[l].attached && a'.g[l].calledIds == a.g[l].calledIds && a'.scripts == a.scripts
    requires a'.lists[l].keeps == a.lists[l].keeps && a'.deferred == a.deferred
    ensures CallsNew(a', b, l)
  {
    hide Taken;
    SameTaken(a, a', b);
  }

  /** What has been asked for and served on list l is all that differs. */
  predicate AskedOnly(a: World, b: World, l: nat) {
    && l < |a.lists| == |a.g| == |b.g|
    && b == a.(g := a.g[l := a.g[l].(asked := b.g[l].asked, served := b.g[l].served)])
  }

  /** A firing begun right after it was accepted, seen from before. */
  lemma FiringFrom(a: World, b: World, c: World, l: nat, arg: Arg)
    requires AskedOnly(a, b, l) && Opens(b, c) && Minds(b, c)
    requires Recorded(b, c, l, arg, false, 0) && CallsNew(b, c, l)
    ensures Opens(a, c) && Minds(a, c) && Recorded(a, c, l, arg, false, 0) && CallsNew(a, c, l)
  {
    hide Opens, Minds, Recorded, CallsNew;
    OpensSet(a, b, l);
    OpensTrans(a, b, c);
    MindsSet(a, b, l);
    MindsTrans(a, b, c);
    RecordedFrom(b, a, c, l, arg, false, 0);
    CallsNewFrom(b, a, c, l);
  }

  lemma CallsNewNothing(w: World, l: nat)
    requires l < |w.lists| == |w.g|
    ensures CallsNew(w, w, l)
  {
  }
}
