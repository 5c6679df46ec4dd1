/** Callback lists at work: jQuery.Callbacks of html/njs/jquery-1.7.2.js, for any number of lists whose callbacks add
  to, remove from, fire, disable and lock any of the lists while they run; and the lists of a jQuery.Deferred.

  What the callbacks do is given by scripts: each call of a function takes the next script and performs its actions.
  When the scripts are used up, the remaining calls do nothing. Every run that ends is the run of some scripts.
 */
module Callbacks {
  import opened Seqs
  import opened Wrappers
  import opened CallbackEntries
  import opened CallbackLists
  import opened CallbackWorlds

  class Lists {
    const deferred: bool
    var state: State
    var lists: seq<CbList>
    var scripts: seq<seq<Action>>
    ghost var g: seq<Track>
    ghost var next: nat
    ghost var cbs: seq<Cb>
    ghost var firings: seq<(nat, Arg, Firing)>

    ghost function W(): (w: World)
      reads this
    {
      World(deferred, state, lists, scripts, g, next, cbs, firings)
    }

    /** Lists with the given flags, once, memory and unique, that callers share. */
    constructor (flags: seq<(bool, bool, bool)>, scripts: seq<seq<Action>>)
      requires forall j :: 0 <= j < |scripts| ==> ScriptOk(scripts[j], |flags|, false)
      ensures Sound(W()) && !deferred && |lists| == |flags| && this.scripts == scripts
      ensures forall l :: 0 <= l < |flags| ==>
        lists[l] == CbList(flags[l].0, flags[l].1, flags[l].2, Some([]), Some([]), Unset, false, 0, 0)
            && g[l] == NewTrack([])
    {
      deferred, state := false, Pending;
      lists := seq(|flags|, l requires 0 <= l < |flags| =>
        CbList(flags[l].0, flags[l].1, flags[l].2, Some([]), Some([]), Unset, false, 0, 0));
      this.scripts := scripts;
      g := seq(|flags|, l => NewTrack([]));
      next, cbs, firings := 0, [], [];
      new;
      hide ListOk;
      forall l | 0 <= l < |lists|
        ensures ListOk(lists[l], g[l], next)
      {
        NewListOk(lists[l], [], next);
      }
    }

    /** The done, fail and progress lists of a new deferred. */
    constructor Deferred(scripts: seq<seq<Action>>)
      requires forall j :: 0 <= j < |scripts| ==> ScriptOk(scripts[j], 3, true)
      ensures Sound(W()) && deferred && state == Pending && this.scripts == scripts
      ensures |lists| == 3 && forall l :: 0 <= l < 3 ==> !lists[l].firing
      ensures W() == NewDeferred(scripts)
    {
      deferred, state := true, Pending;
      lists := [CbList(true, true, false, Some(Starters(0)), Some([]), Unset, false, 0, 0),
                CbList(true, true, false, Some(Starters(1)), Some([]), Unset, false, 0, 0),
                CbList(false, true, false, Some([]), Some([]), Unset, false, 0, 0)];
      this.scripts := scripts;
      g := [NewTrack([0, 1, 2]), NewTrack([3, 4, 5]), NewTrack([])];
      next, cbs, firings := 6, Starters(0) + Starters(1), [];
      new;
      assert W() == NewDeferred(scripts);
      NewDeferredSound(scripts);
    }

    /** The inner function add of list l. */
    method PushEach(l: nat, fns: seq<nat>)
      requires l < |lists| == |g| && lists[l].list.Some?
      modifies this`lists, this`g, this`next, this`cbs
      ensures W() == Pushed(old(W()), l, fns)
    {
      hide PushAll;
      ghost var w0 := W();
      var i := 0;
      PushedNone(w0, l);
      while i < |fns|
        invariant i <= |fns| && |lists| == |w0.lists| && W() == Pushed(w0, l, fns[..i]) && lists[l].list.Some?
      {
        assert fns[..i + 1][..i] == fns[..i];
        if !(lists[l].unique && User(fns[i]) in lists[l].list.value) {
          lists := lists[l := lists[l].(list := Some(lists[l].list.value + [User(fns[i])]))];
          g := g[l := PushTrack(g[l], next)];
          next := next + 1;
          cbs := cbs + [User(fns[i])];
        }
        PushedOne(w0, l, fns, i);
        i := i + 1;
      }
      assert fns[..|fns|] == fns;
    }

    /** The function add of list l. */
    method Add(l: nat, fns: seq<nat>)
      requires Sound(W()) && l < |lists|
      modifies this
      ensures Sound(W()) && Keeps(old(W()), W()) && Opens(old(W()), W()) && Minds(old(W()), W())
      ensures old(lists[l].list.None?) ==> W() == old(W())
      ensures old(lists[l].list.Some? && (lists[l].firing || !lists[l].memory.Kept?)) ==> W() == Added(old(W()), l, fns)
      ensures old(lists[l].list.Some? && !lists[l].firing && lists[l].memory.Kept?) ==>
        Recorded(Added(old(W()), l, fns), W(), l, old(lists[l].memory.arg), true, old(|g[l].ids|))
          && CallsNew(Added(old(W()), l, fns), W(), l)
      ensures old(lists[l].list.Some?) ==> Appends(old(W()), W(), l, old(Fresh(lists[l], fns)))
      decreases |scripts|, StackSize(lists[l]), 6
    {
      hide Sound, Keeps, KeepsBut, Head, BeginWorld, Added, Pushed, Recorded, Appends, Fresh, PushAll;
      hide StaysOpen, Minds, CallsNew;
      ghost var w0 := W();
      SoundShape(w0);
      if lists[l].list.None? {
        KeepsRefl(w0);
        MindsNothing(w0);
        return;
      }
      var length := |lists[l].list.value|;
      PushEach(l, fns);
      PushedLeaves(w0, l, fns);
      AddedOpens(w0, l, fns);
      AddedMinds(w0, l, fns);
      if lists[l].firing {
        lists := lists[l := lists[l].(firingLength := |lists[l].list.value|)];
        AddedIs(w0, l, fns);
        AddedSound(w0, l, fns);
        KeepsRefl(W());
      } else {
        AddedIs(w0, l, fns);
        if lists[l].memory.Kept? {
          AddedFires(w0, l, fns);
          ghost var w1 := W();
          AddedIds(w0, l, fns);
          FireLoop(l, length, lists[l].memory.arg, true);
          KeepsButTrans(w0, w1, W(), l);
          KeepsFromBut(w0, W(), l);
          OpensTrans(w0, w1, W());
          MindsTrans(w0, w1, W());
        } else {
          AddedSound(w0, l, fns);
          KeepsRefl(W());
        }
      }
      AddedAppends(w0, l, fns, W());
    }

    /** The part of remove that takes entry i away. */
    method RemoveAt(l: nat, i: nat)
      requires l < |lists| == |g| && lists[l].list.Some? && i < |lists[l].list.value| == |g[l].ids|
      modifies this`lists, this`g
      ensures W() == Removed(old(W()), l, i)
    {
      if lists[l].firing {
        if i <= lists[l].firingLength {
          lists := lists[l := lists[l].(firingLength := lists[l].firingLength - 1)];
          if i <= lists[l].firingIndex {
            lists := lists[l := lists[l].(firingIndex := lists[l].firingIndex - 1)];
          }
        }
      }
      lists := lists[l := lists[l].(list := Some(lists[l].list.value[..i] + lists[l].list.value[i + 1..]))];
      g := g[l := SpliceTrack(g[l], i)];
    }

    /** The function remove of list l, for one argument. */
    method Remove(l: nat, fn: nat)
      requires Sound(W()) && l < |lists| && !deferred
      modifies this
      ensures Sound(W()) && Keeps(old(W()), W()) && Opens(old(W()), W())
      ensures Entries(old(W()), W(), {DoRemove(l, fn)})
      ensures scripts == old(scripts) && firings == old(firings)
      ensures lists[l].list.Some? == old(lists[l].list.Some?)
      ensures lists[l].list.Some? ==> lists[l].list.value == Without(old(lists[l].list.value), User(fn))
      ensures lists[l].list.Some? ==> User(fn) !in lists[l].list.value
      ensures lists[l].list.Some? ==> Subsequence(lists[l].list.value, old(lists[l].list.value))
      ensures lists[l].list.Some? ==> forall x :: x != User(fn) ==>
        multiset(lists[l].list.value)[x] == multiset(old(lists[l].list.value))[x]
    {
      hide Sound, Keeps, KeepsBut, Head, StaysOpen, Entries, Without, Subsequence;
      ghost var w0 := W();
      SoundShape(w0);
      KeepsRefl(w0);
      MindsNothing(w0);
      EntriesMore(w0, w0, Taken(w0, w0), {DoRemove(l, fn)} + Taken(w0, w0));
      NothingTaken(w0, w0);
      ghost var acts := {DoRemove(l, fn)};
      assert acts + {} == acts && acts + acts == acts;
      if lists[l].list.None? {
        return;
      }
      var i := 0;
      while i < |lists[l].list.value|
        invariant Sound(W()) && Keeps(w0, W()) && Opens(w0, W()) && |lists| == |w0.lists| && lists[l].list.Some?
        invariant scripts == w0.scripts && firings == w0.firings && Entries(w0, W(), acts)
        invariant i <= |lists[l].list.value|
        invariant Without(lists[l].list.value, User(fn)) == Without(w0.lists[l].list.value, User(fn))
        invariant User(fn) !in lists[l].list.value[..i]
        decreases |lists[l].list.value| - i
      {
        if lists[l].list.value[i] == User(fn) {
          ghost var w1 := W();
          SoundCounts(w1);
          RemovedSound(w1, l, i);
          RemovedOpens(w1, l, i);
          RemovedEntries(w1, l, fn, i);
          RemoveAt(l, i);
          OpensTrans(w0, w1, W());
          EntriesTrans(w0, w1, W(), acts, acts);
          KeepsTrans(w0, w1, W());
          WithoutSplice(w1.lists[l].list.value, i);
          if lists[l].unique {
            UniqueGone(w1, l, i);
            break;
          }
        } else {
          i := i + 1;
        }
      }
      WithoutAbsent(lists[l].list.value, User(fn));
      WithoutLeaves(w0.lists[l].list.value, User(fn));
    }

    /** The function disable of list l. */
    method Disable(l: nat)
      requires l < |lists|
      modifies this`lists
      ensures lists == old(lists)[l := Disabled(old(lists)[l])]
      ensures lists[l].list.None? && lists[l].stack.None? && lists[l].memory == Unset
    {
      lists := lists[l := lists[l].(list := None, stack := None, memory := Unset)];
    }

    /** The function lock of list l. */
    method Lock(l: nat)
      requires l < |lists|
      modifies this`lists
      ensures lists == old(lists)[l := Locked(old(lists)[l])]
      ensures lists[l].stack.None?
      ensures if old(lists[l].memory.Kept?) then lists[l].list == old(lists[l].list) else lists[l].list.None?
    {
      lists := lists[l := lists[l].(stack := None)];
      if lists[l].memory == Unset || lists[l].memory == Halted {
        Disable(l);
      }
    }

    /** The function fireWith of list l; again says that it is called for a firing taken from the stack. */
    method FireWith(l: nat, arg: Arg, ghost again: bool)
      requires l < |lists| == |g| && (if again then FiresAgain(W(), l, arg) else Sound(W()))
      modifies this
      ensures Sound(W()) && KeepsBut(old(W()), W(), l) && |lists| == |old(lists)|
      ensures lists[l].firing == old(lists[l].firing) && Opens(old(W()), W()) && Minds(old(W()), W())
      ensures !again ==> Keeps(old(W()), W())
      ensures !again && !old(Accepts(lists[l])) ==> W() == old(W())
      ensures !again && old(lists[l].stack.None?) ==> W() == old(W())
      ensures !again && old(lists[l].once && (lists[l].firing || lists[l].memory != Unset)) ==> W() == old(W())
      ensures !again && old(Accepts(lists[l])) ==> old(g[l].asked) + [arg] <= g[l].asked
      ensures !again && old(Accepts(lists[l]) && !lists[l].firing) ==>
        Recorded(old(W()), W(), l, arg, false, 0)
      ensures old(Accepts(lists[l]) && !lists[l].firing) ==> CallsNew(old(W()), W(), l)
      decreases |scripts|, StackSize(lists[l]), 5
    {
      hide Sound, FiresAgain, Keeps, KeepsBut, Head, BeginWorld, Recorded, Opens, Minds, CallsNew;
      ghost var w0 := W();
      if !again {
        KeepsRefl(w0);
        SoundShape(w0);
      } else {
        AgainShape(w0, l, arg);
      }
      if lists[l].stack.Some? {
        if lists[l].firing {
          if !lists[l].once {
            lists := lists[l := lists[l].(stack := Some(lists[l].stack.value + [arg]))];
            g := g[l := g[l].(asked := g[l].asked + [arg])];
            assert W() == Stacked(w0, l, arg);
            StackedSound(w0, l, arg);
            OpensSet(w0, W(), l);
            MindsSet(w0, W(), l);
            KeepsWeaken(w0, W(), l);
          }
        } else if !(lists[l].once && lists[l].memory != Unset) {
          if again {
            g := g[l := g[l].(served := g[l].served + [arg])];
            assert W() == Resumed(w0, l, arg);
            AgainBegins(w0, l, arg);
          } else {
            g := g[l := g[l].(asked := g[l].asked + [arg], served := g[l].served + [arg])];
            assert W() == Accepted(w0, l, arg);
            FireBegins(w0, l, arg);
          }
          ghost var w1 := W();
          FireLoop(l, 0, arg, false);
          AskedKept(w1, W(), l);
          KeepsButTrans(w0, w1, W(), l);
          KeepsFromBut(w0, W(), l);
          FiringFrom(w0, w1, W(), l, arg);
        }
      }
      if W() == w0 {
        OpensSet(w0, w0, l);
        MindsNothing(w0);
      }
    }

    /** The inner function fire of list l, from entry number start on; late says that this is due to a late addition. */
    method FireLoop(l: nat, start: nat, arg: Arg, ghost late: bool)
      requires l < |lists| == |g| && !lists[l].firing && lists[l].list.Some?
      requires start <= |g[l].ids| == |lists[l].list.value|
      requires Head(BeginWorld(W(), l, start, arg, late), l, arg)
      modifies this
      ensures Sound(W()) && KeepsBut(old(W()), W(), l) && |lists| == |old(lists)| && !lists[l].firing
      ensures Opens(old(W()), W()) && Minds(old(W()), W())
      ensures Recorded(old(W()), W(), l, arg, late, start) && CallsNew(old(W()), W(), l)
      decreases |scripts|, StackSize(lists[l]), 4
    {
      hide Sound, SoundBut, Keeps, KeepsBut, Head, FiresAgain, Ended, Turn, Turning, Recorded, Record, Opens;
      hide Minds, CallsNew, LoopEnded, BeginWorld;
      ghost var w0 := W();
      lists := lists[l := lists[l].(memory := if lists[l].keeps then Kept(arg) else Halted, firing := true,
                                    firingIndex := start, firingLength := |lists[l].list.value|)];
      g := g[l := BeginTrack(g[l], start, late)];
      ghost var begun := W();
      BeginWorldIs(w0, l, start, arg, late);
      MindsNothing(begun);
      BeginMinds(w0, l, start, arg, late);
      BeginKeeps(w0, l, start, arg, late);
      TurningStarts(w0, l, start, arg, late);
      BeginOpens(w0, l, start, arg, late);
      while lists[l].list.Some? && lists[l].firingIndex < lists[l].firingLength
        invariant |lists| == |g| == |w0.lists| && Head(W(), l, arg) && KeepsBut(w0, W(), l) && |scripts| <= |w0.scripts|
        invariant |scripts| == |w0.scripts| ==> StackSize(lists[l]) <= StackSize(w0.lists[l])
        invariant Turning(w0, W(), l, start, late) && Opens(w0, W()) && Minds(begun, W())
        decreases |scripts|, if lists[l].list.Some? then lists[l].firingLength - lists[l].firingIndex else 0
      {
        ghost var w1 := W();
        TurnHere(w1, l, arg);
        TurnShape(w1, l, arg);
        CallNext(l, arg);
        KeepsButTrans(w0, w1, W(), l);
        TurningGoesOn(w0, w1, W(), l, start, late, arg);
        OpensTrans(w0, w1, W());
        MindsTrans(begun, w1, W());
      }
      ghost var w1 := W();
      HeadCounts(w1, l, arg);
      LoopEndedHere(w0, w1, l, start, arg, late);
      MindsTrans(w0, begun, w1);
      EndMinds(w0, w1, l, arg);
      EndKeeps(w1, l, arg);
      Finish(l, arg);
      KeepsButTrans(w0, w1, W(), l);
      TurningEnds(w0, w1, l, start, late, arg, W());
      OpensTrans(w0, w1, W());
      MindsTrans(w0, Ended(w1, l, arg), W());
    }

    /** What the inner function fire does after its loop. */
    method Finish(l: nat, arg: Arg)
      requires l < |lists| == |g| && Head(W(), l, arg)
      requires !(lists[l].list.Some? && lists[l].firingIndex < lists[l].firingLength)
      requires g[l].mark <= |g[l].calledIds| == |g[l].calledArgs|
      modifies this
      ensures Sound(W()) && KeepsBut(old(W()), W(), l) && |lists| == |old(lists)| && !lists[l].firing
      ensures Opens(old(W()), W()) && |scripts| <= |old(scripts)| && Minds(Ended(old(W()), l, arg), W())
      ensures CallsNew(Ended(old(W()), l, arg), W(), l)
      ensures old(firings) + [(l, arg, old(Record(lists[l], g[l])))] <= firings
      decreases |scripts|, StackSize(lists[l]), 3
    {
      hide Sound, SoundBut, KeepsBut, Head, FiresAgain, Ended, Opens, Minds, CallsNew;
      ghost var w1 := W();
      EndSound(w1, l, arg);
      EndKeeps(w1, l, arg);
      EndedOpens(w1, l, arg);
      Close(l, arg);
      ghost var w2 := W();
      MindsNothing(w2);
      CallsNewNothing(w2, l);
      if lists[l].list.Some? && !lists[l].once {
        if lists[l].stack.Some? && |lists[l].stack.value| > 0 {
          FireNext(l);
          KeepsButTrans(w1, w2, W(), l);
          KeepsFirings(w2, W(), l);
          OpensTrans(w1, w2, W());
        }
      }
    }

    /** The firing is over: a list that may fire once is emptied, or disabled if it keeps no arguments. */
    method Close(l: nat, arg: Arg)
      requires l < |lists| == |g| && g[l].mark <= |g[l].calledIds| == |g[l].calledArgs|
      modifies this`lists, this`g, this`firings
      ensures W() == Ended(old(W()), l, arg) && |lists| == |old(lists)| == |g| && !lists[l].firing
      ensures lists[l].once == old(lists[l].once)
      ensures !lists[l].once ==> lists[l].stack == old(lists[l].stack) && lists[l].list == old(lists[l].list)
    {
      firings := firings + [(l, arg, Record(lists[l], g[l]))];
      lists := lists[l := lists[l].(firing := false)];
      if lists[l].list.Some? && lists[l].once {
        if lists[l].memory == Halted {
          Disable(l);
        } else {
          lists := lists[l := lists[l].(list := Some([]))];
          g := g[l := g[l].(ids := [])];
        }
      }
    }

    /** Take the next firing from the stack. */
    method FireNext(l: nat)
      requires l < |lists| == |g| && SoundBut(W(), l) && !lists[l].firing && !lists[l].once
      requires lists[l].stack.Some? && |lists[l].stack.value| > 0
      modifies this
      ensures Sound(W()) && KeepsBut(old(W()), W(), l) && |lists| == |old(lists)| && !lists[l].firing
      ensures Opens(old(W()), W()) && Minds(old(W()), W()) && CallsNew(old(W()), W(), l)
      decreases |scripts|, StackSize(lists[l]), 2
    {
      hide Sound, SoundBut, KeepsBut, FiresAgain, Opens, Minds, CallsNew;
      ghost var w2 := W();
      var next := lists[l].stack.value[0];
      lists := lists[l := lists[l].(memory := Kept(next), stack := Some(lists[l].stack.value[1..]))];
      assert W() == Popped(w2, l);
      PopFires(w2, l);
      PopMinds(w2, l);
      ghost var w3 := W();
      FireWith(l, next, true);
      KeepsButTrans(w2, w3, W(), l);
      OpensSet(w2, w3, l);
      OpensTrans(w2, w3, W());
      MindsTrans(w2, w3, W());
      CallsNewFrom(w3, w2, W(), l);
    }

    /** One turn of the loop: call the next entry and step over it. */
    method CallNext(l: nat, arg: Arg)
      requires Turn(W(), l, arg) && 0 <= lists[l].firingIndex < |g[l].ids|
      requires lists[l].list.Some? && |lists[l].list.value| == |g[l].ids|
      modifies this
      ensures |lists| == |g| == |old(lists)| && Head(W(), l, arg) && KeepsBut(old(W()), W(), l)
      ensures |scripts| <= |old(scripts)| && Opens(old(W()), W()) && Minds(old(W()), W())
      ensures old(lists[l].list.value[lists[l].firingIndex].User? && scripts != []) ==>
        |scripts| < |old(scripts)|
      ensures g[l].late == old(g[l].late) && g[l].skip == old(g[l].skip)
      ensures g[l].mark == old(g[l].mark) && g[l].from == old(g[l].from)
      ensures |scripts| == |old(scripts)| ==> lists[l] == old(lists[l]).(firingIndex := old(lists[l].firingIndex) + 1)
      ensures |scripts| == |old(scripts)| ==> g[l] == old(CallTrack(g[l], g[l].ids[lists[l].firingIndex], arg))
      decreases |scripts|, 0, 2
    {
      hide Sound, Keeps, KeepsBut, Head, CallWorld, Next, Effect, Turn, Opens, Starters, LastServed, Minds;
      ghost var w0 := W();
      TurnShape(w0, l, arg);
      var cb := lists[l].list.value[lists[l].firingIndex];
      g := g[l := CallTrack(g[l], g[l].ids[lists[l].firingIndex], arg)];
      CallWorldIs(w0, l, arg);
      CallMinds(w0, l, arg);
      ghost var w1 := W();
      if cb.User? {
        CallUser(w0, l, arg);
        Invoke();
        AfterCall(w1, W(), l, arg);
        KeepsWeaken(w1, W(), l);
      } else {
        BuiltinStep(w0, l, arg, cb);
        BuiltinMinds(w0, l, arg, cb);
        Act(cb);
      }
      ghost var w2 := W();
      lists := lists[l := lists[l].(firingIndex := lists[l].firingIndex + 1)];
      NextIs(w2, l);
      if cb.User? {
        KeepsButTrans(w0, w1, w2, l);
        KeepsButTrans(w0, w2, W(), l);
        OpensSet(w0, w1, l);
        OpensTrans(w0, w1, w2);
        NextOpens(w2, l);
        OpensTrans(w0, w2, W());
        NextMinds(w2, l);
        MindsTrans(w0, w1, w2);
        MindsTrans(w0, w2, W());
      } else {
        DeferredOpens(w0, W());
      }
    }

    /** A function that a deferred registered itself runs. */
    method Act(cb: Cb)
      requires |lists| == |g| && !cb.User? && (cb.SetState? || cb.l < |lists|)
      modifies this`lists, this`state
      ensures W() == Effect(old(W()), cb) && |lists| == |old(lists)|
      ensures forall k :: 0 <= k < |lists| && (cb.SetState? || k != cb.l) ==> lists[k] == old(lists)[k]
    {
      match cb {
        case SetState(s) => state := s;
        case Disabler(k) => Disable(k);
        case Locker(k) => Lock(k);
      }
    }

    /** A caller's function runs: it performs the actions of the next script. */
    method Invoke()
      requires Sound(W())
      modifies this
      ensures Sound(W()) && Keeps(old(W()), W()) && |scripts| <= |old(scripts)| && |lists| == |g| == |old(lists)|
      ensures Opens(old(W()), W()) && Minds(old(W()), W())
      ensures |scripts| == |old(scripts)| ==> W() == old(W()) && scripts == []
      decreases |scripts|, 0, 1
    {
      hide Sound, Keeps, StaysOpen, Minds;
      ghost var w0 := W();
      SoundCounts(w0);
      KeepsRefl(w0);
      MindsNothing(w0);
      if scripts != [] {
        var script := scripts[0];
        TakeScript(w0);
        scripts := scripts[1..];
        ghost var w1 := W();
        assert w0 == w1.(scripts := [script] + w1.scripts);
        Perform(script);
        KeepsTrans(w0, w1, W());
        KeepsCounts(w1, W());
      }
    }

    /** The actions of a script, one after the other. */
    method Perform(script: seq<Action>)
      requires Sound(W()) && ScriptOk(script, |lists|, deferred)
      modifies this
      ensures Sound(W()) && Keeps(old(W()), W())
      ensures forall l :: 0 <= l < |lists| && lists[l].list.Some? && !lists[l].unique ==>
        Attaches(old(W()), W(), l, AddedTo(script, l))
      ensures Opens(old(W()).(scripts := [script] + old(scripts)), W())
      ensures Minds(old(W()).(scripts := [script] + old(scripts)), W())
      ensures forall l :: 0 <= l < |lists| && StaysOpen(old(W()).(scripts := [script] + old(scripts)), l) ==>
        Asks(old(W()), W(), l, AsksOf(script, l))
      decreases |scripts| + 1, 0, 0
    {
      hide Sound, Keeps, Attaches, Appends, AddedTo, Fresh, Recorded, Added, StaysOpen, Asks, AsksOf, Accepts;
      hide Performed, Entries, Minds, CallsNew, Later;
      ghost var w0 := W();
      SoundCounts(w0);
      KeepsRefl(w0);
      AttachesNothing(w0);
      ghost var from := w0.(scripts := [script] + w0.scripts);
      AsksNothing(from, w0);
      PerformedNothing(w0);
      assert script[..0] == [];
      for i := 0 to |script|
        invariant Sound(W()) && Keeps(w0, W()) && |lists| == |w0.lists| && |scripts| <= |w0.scripts|
        invariant forall l :: 0 <= l < |lists| && lists[l].list.Some? && !lists[l].unique ==>
          Attaches(w0, W(), l, AddedTo(script[..i], l))
        invariant forall l :: 0 <= l < |lists| && StaysOpen(from, l) ==>
          StaysOpen(W(), l) && Asks(from, W(), l, AsksOf(script[..i], l))
        invariant Performed(w0, W(), script[..i])
      {
        ghost var w1 := W();
        SoundCounts(w1);
        match script[i] {
          case DoAdd(l, fns) => Add(l, fns); MindsPerformed(w1, W(), script[i]);
          case DoRemove(l, fn) => Remove(l, fn); ActPerformed(w1, W(), script[i]);
          case DoFire(l, arg) => FireWith(l, arg, false); MindsPerformed(w1, W(), script[i]);
          case DoDisable(l) =>
            Disable(l);
            SilencedSound(w1, l, lists[l]);
            DisabledEntries(w1, l);
            ActPerformed(w1, W(), script[i]);
          case DoLock(l) =>
            Lock(l);
            SilencedSound(w1, l, lists[l]);
            LockedEntries(w1, l);
            ActPerformed(w1, W(), script[i]);
        }
        KeepsTrans(w0, w1, W());
        KeepsCounts(w1, W());
        ActionsAttach(w0, w1, W(), script, i);
        ActionsAsk(from, w1, W(), script, i);
        PerformedMore(w0, w1, W(), script, i);
      }
      assert script[..|script|] == script;
      AsksFrom(from, w0, W(), script);
      MindsScript(w0, W(), script);
    }
  }
}
