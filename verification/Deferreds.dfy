/** What a jQuery.Deferred promises, from the lists it is made of; and jQuery.when. */
module Deferreds {
  import opened Seqs
  import opened CallbackEntries
  import opened CallbackLists
  import opened CallbackRuns
  import opened CallbackWorlds
  import opened Callbacks

  /** The list that settles a deferred: done or fail. */
  function Winner(s: State): (l: nat)
    requires s != Pending
    ensures l < 2 && Outcome(l) == s
  {
    match s
    case Resolved => 0
    case Rejected => 1
  }

  ghost predicate Deferral(w: World) {
    Sound(w) && w.deferred
  }

  /** As long as it is pending, no callback of either list has run; once it is settled, those of the other list never
    have, and those of its own have each run once, in the order they were added, with the arguments of the settlement,
    those added after it included, as soon as no firing is under way. The progress list can be fired exactly as long as
    it is pending. */
  lemma CallbacksRunOnce(w: World, id: nat)
    requires Deferral(w)
    ensures |w.lists| == |w.g| == 3 && (w.lists[2].stack.Some? <==> w.state == Pending)
    ensures w.state == Pending ==> w.g[0].calledIds == [] && w.g[1].calledIds == []
    ensures w.state != Pending ==>
      var l := Winner(w.state);
      && w.g[Other(l)].calledIds == [] && |w.g[l].asked| == 1 && |w.g[l].calledArgs| == |w.g[l].calledIds|
      && (forall k :: 0 <= k < |w.g[l].calledArgs| ==> w.g[l].calledArgs[k] == w.g[l].asked[0])
      && w.g[l].calledIds <= w.g[l].attached
      && multiset(w.g[l].calledIds)[id] <= 1
      && (!w.lists[l].firing ==> w.g[l].calledIds == w.g[l].attached)
      && (!w.lists[l].firing ==> multiset(w.g[l].calledIds)[id] == if id in w.g[l].attached then 1 else 0)
  {
    hide AllFair;
    if w.state != Pending {
      var l := Winner(w.state);
      assert ListOk(w.lists[l], w.g[l], w.next);
      CountDistinct(w.g[l].attached, id);
      PrefixCount(w.g[l].calledIds, w.g[l].attached, id);
    }
  }

  lemma PrefixCount(a: seq<nat>, b: seq<nat>, x: nat)
    requires a <= b
    ensures multiset(a)[x] <= multiset(b)[x]
  {
    assert b == a + b[|a|..];
  }

  /** Resolving (list 0) or rejecting (list 1) a deferred on which nothing is being fired: the first one settles it. */
  method Settle(d: Lists, l: nat, args: Arg)
    requires Deferral(d.W()) && l < 2
    modifies d
    ensures Deferral(d.W()) && Keeps(old(d.W()), d.W()) && |d.g| == 3
    ensures old(d.state) == Pending ==> d.state == Outcome(l) && d.g[l].asked == [args]
    ensures old(d.state) == Pending ==> d.state == if l == 0 then Resolved else Rejected
    ensures old(d.state) != Pending ==> d.W() == old(d.W())
    ensures old(Quiet(d.W())) ==> Quiet(d.W())
  {
    hide AllFair, ListOk, Minds, Recorded, CallsNew, Opens;
    ghost var w := d.W();
    assert DeferredOk(w);
    d.FireWith(l, args, false);
    if Quiet(w) {
      StaysQuiet(w, d.W());
    }
  }

  /** Every callback ever added to list l of a settled deferred ran exactly once, in the order of addition and with the
    given arguments; no callback of the other list ran. */
  ghost predicate SettledBy(w: World, l: nat, args: Arg)
    requires l < 2
  {
    && |w.g| == 3 && w.state == Outcome(l) && Below(w.g[l].calledIds, |w.cbs|)
    && w.g[Other(l)].calledIds == [] && w.g[l].calledIds == w.g[l].attached
    && |w.g[l].calledArgs| == |w.g[l].calledIds|
    && (forall k :: 0 <= k < |w.g[l].calledArgs| ==> w.g[l].calledArgs[k] == args)
    && forall id :: multiset(w.g[l].calledIds)[id] == if id in w.g[l].attached then 1 else 0
  }

  lemma SettledHere(w: World, l: nat, args: Arg)
    requires Deferral(w) && Quiet(w) && l < 2 && w.state == Outcome(l) && |w.g| == 3 && w.g[l].asked == [args]
    ensures SettledBy(w, l, args)
  {
    hide Sound;
    CallbacksRunOnce(w, 0);
    SoundAttached(w, l);
    forall id: nat
      ensures multiset(w.g[l].calledIds)[id] == if id in w.g[l].attached then 1 else 0
    {
      CallbacksRunOnce(w, id);
    }
  }

  /** What has settled a deferred stands. */
  lemma StaysSettled(a: World, b: World, l: nat, args: Arg)
    requires Deferral(a) && Deferral(b) && Keeps(a, b) && Quiet(b)
    requires l < 2 && a.state == Outcome(l) && |a.g| == 3 && a.g[l].asked == [args]
    ensures SettledBy(b, l, args) && b.state == Outcome(l)
  {
    hide Sound, SettledBy;
    CallbacksRunOnce(a, 0);
    CallbacksRunOnce(b, 0);
    assert Kept1(a.lists[l], a.g[l], b.lists[l], b.g[l]);
    SettledHere(b, l, args);
  }

  /** A call that resolves or rejects settles the deferred if nothing has before. */
  lemma CallSettles(a: World, b: World, l: nat, args: Arg)
    requires Deferral(a) && Deferral(b) && Quiet(a) && l < 2 && |a.lists| == |a.g| && |b.g| == 3 && l < |a.lists|
    requires if Accepts(a.lists[l]) then a.g[l].asked + [args] <= b.g[l].asked else b == a
    requires Keeps(a, b)
    ensures if a.state == Pending then b.state == Outcome(l) && b.g[l].asked == [args]
            else b.state == a.state && |a.g| == 3 && |a.g[Winner(a.state)].asked| == 1
                 && b.g[Winner(a.state)].asked == a.g[Winner(a.state)].asked
  {
    hide ListOk, AllFair;
    if a.state != Pending {
      var k := Winner(a.state);
      assert Kept1(a.lists[k], a.g[k], b.lists[k], b.g[k]);
    }
  }

  /** The functions called on list l, in order, include those that the given scripts add to it. */
  ghost predicate CallsAllAdded(w: World, l: nat, before: seq<Action>, after: seq<Action>)
    requires l < |w.g| && Below(w.g[l].calledIds, |w.cbs|)
  {
    Subsequence(AddedTo(before, l) + AddedTo(after, l), Functions(w.cbs, w.g[l].calledIds))
  }

  /** What is added to the list that settles a deferred is called, whether added before or after. */
  lemma AddedAreCalled(a: World, b: World, c: World, l: nat, before: seq<Action>, after: seq<Action>)
    requires Attaches(a, b, l, AddedTo(before, l)) && Attaches(b, c, l, AddedTo(after, l)) && b.cbs <= c.cbs
    requires l < |c.g| && c.g[l].calledIds == c.g[l].attached
    ensures Below(c.g[l].calledIds, |c.cbs|) && CallsAllAdded(c, l, before, after)
  {
    hide Attaches, AddedTo, Subsequence;
    AttachesThen(a, b, c, l, AddedTo(before, l), AddedTo(after, l));
    AttachesAll(a, c, l, AddedTo(before, l) + AddedTo(after, l));
  }

  lemma AttachesAll(a: World, d: World, l: nat, fns: seq<Cb>)
    requires Attaches(a, d, l, fns)
    ensures Below(d.g[l].attached, |d.cbs|) && Subsequence(fns, Functions(d.cbs, d.g[l].attached))
  {
    hide Subsequence;
    var f, m := Functions(d.cbs, d.g[l].attached), |a.g[l].attached|;
    assert f == f[..m] + f[m..];
    SubsequenceConcat([], f[..m], fns, f[m..]);
    assert [] + fns == fns;
  }

  /** The list that settled a deferred is still there, and takes the same function twice. */
  lemma WinnerList(w: World)
    requires Deferral(w) && w.state != Pending
    ensures |w.lists| == |w.g| == 3 && w.lists[Winner(w.state)].list.Some? && !w.lists[Winner(w.state)].unique
  {
    hide AllFair, ListOk;
  }

  /** What has settled a deferred: its list and the arguments. */
  ghost function Settlers(w: World): (nat, Arg)
    requires w.state != Pending && |w.g| == 3 && |w.g[Winner(w.state)].asked| == 1
  {
    (Winner(w.state), w.g[Winner(w.state)].asked[0])
  }

  /** A deferred on which nothing is being fired is resolved or rejected, and then used in any way. The call settles it
    if nothing had before; and what settled it stands, whatever comes after. */
  method SettleThen(d: Lists, l: nat, args: Arg, after: seq<Action>)
    requires Deferral(d.W()) && Quiet(d.W()) && l < 2 && ScriptOk(after, 3, true)
    modifies d
    ensures Deferral(d.W()) && Quiet(d.W()) && d.state != Pending && old(d.cbs) <= d.cbs
    ensures old(|d.g|) == 3 && (old(d.state) != Pending ==> old(|d.g[Winner(d.state)].asked|) == 1)
    ensures if old(d.state) == Pending then d.state == Outcome(l) && SettledBy(d.W(), l, args)
            else d.state == old(d.state) && SettledBy(d.W(), old(Settlers(d.W()).0), old(Settlers(d.W()).1))
    ensures Attaches(old(d.W()), d.W(), Winner(d.state), AddedTo(after, Winner(d.state)))
  {
    hide Sound, Keeps, SettledBy, Attaches, AddedTo, Winner;
    hide Minds, Recorded, CallsNew, Opens, StaysOpen, Asks;
    ghost var mid := d.W();
    CallbacksRunOnce(mid, 0);
    d.FireWith(l, args, false);
    ghost var w2 := d.W();
    CallbacksRunOnce(w2, 0);
    StaysQuiet(mid, w2);
    CallSettles(mid, w2, l, args);
    d.Perform(after);
    StaysQuiet(w2, d.W());
    if mid.state == Pending {
      StaysSettled(w2, d.W(), l, args);
    } else {
      StaysSettled(w2, d.W(), Settlers(mid).0, Settlers(mid).1);
    }
    AttachesAfter(mid, w2, d.W(), Winner(d.state), AddedTo(after, Winner(d.state)));
  }

  lemma AttachesAfter(a: World, b: World, c: World, l: nat, fns: seq<Cb>)
    requires Deferral(b) && Deferral(c) && Keeps(a, b) && Keeps(b, c) && c.state != Pending && l == Winner(c.state)
    requires l < |c.lists| && c.lists[l].list.Some? && !c.lists[l].unique ==> Attaches(b, c, l, fns)
    ensures Attaches(a, c, l, fns) && a.cbs <= c.cbs
  {
    hide Sound, Attaches;
    WinnerList(c);
    AttachesNone(a, b, l);
    AttachesThen(a, b, c, l, [], fns);
    assert [] + fns == fns;
  }

  /** A deferred is made and used in any way before and after a call that resolves or rejects it. If nothing had
    settled it before that call, the call did; and what settled it stands, whatever came after. Every function that was
    added to its list before or after has been called, in order. mid is the state right before. */
  method SettleInTheMiddle(scripts: seq<seq<Action>>, before: seq<Action>, l: nat, args: Arg, after: seq<Action>)
    returns (d: Lists, ghost mid: World)
    requires l < 2 && ScriptOk(before, 3, true) && ScriptOk(after, 3, true)
    requires forall j :: 0 <= j < |scripts| ==> ScriptOk(scripts[j], 3, true)
    ensures fresh(d)
    ensures Deferral(mid) && |mid.g| == 3 && (mid.state != Pending ==> |mid.g[Winner(mid.state)].asked| == 1)
    ensures if mid.state == Pending then SettledBy(d.W(), l, args)
            else SettledBy(d.W(), Settlers(mid).0, Settlers(mid).1)
    ensures d.state != Pending && |d.g| == 3 && var w := Winner(d.state);
            Below(d.g[w].calledIds, |d.cbs|) && CallsAllAdded(d.W(), w, before, after)
  {
    hide Sound, Keeps, Attaches, CallsAllAdded, AddedTo, Minds, Opens, StaysOpen, Asks;
    d := new Lists.Deferred(scripts);
    ghost var w0 := d.W();
    d.Perform(before);
    mid := d.W();
    StaysQuiet(w0, mid);
    SettleThen(d, l, args, after);
    AttachedBefore(w0, mid, Winner(d.state), before);
    AddedAreCalled(w0, mid, d.W(), Winner(d.state), before, after);
  }

  /** What is added to a list before the deferred is settled by it comes to it. */
  lemma AttachedBefore(a: World, b: World, l: nat, before: seq<Action>)
    requires Deferral(b) && l < 2 && (b.state != Pending ==> l == Winner(b.state))
    requires forall k :: 0 <= k < |b.lists| && b.lists[k].list.Some? && !b.lists[k].unique ==>
      Attaches(a, b, k, AddedTo(before, k))
    ensures Attaches(a, b, l, AddedTo(before, l))
  {
    hide AllFair, ListOk, Attaches, AddedTo;
    assert b.lists[l].list.Some? && !b.lists[l].unique;
  }

  // ----- when, with two arguments or more

  /** What has become of a deferred; a plain value counts as done at once. */
  datatype Fate = Open | Done(args: Arg) | Failed(args: Arg)

  ghost function FateOf(w: World): Fate {
    match w.state
    case Pending => Open
    case Resolved => Done(if |w.g| > 0 && |w.g[0].asked| > 0 then w.g[0].asked[0] else [])
    case Rejected => Failed(if |w.g| > 1 && |w.g[1].asked| > 0 then w.g[1].asked[0] else [])
  }

  /** What settling list l with these arguments makes of an open deferred. */
  function Settlement(l: nat, args: Arg): Fate {
    if l == 0 then Done(args) else Failed(args)
  }

  /** The value put into a slot: several arguments become an array. */
  function Slot(args: Arg): Value {
    if |args| > 1 then Many(args) else if |args| == 1 then args[0] else Undefined
  }

  /** What a slot holds: all of several arguments, in order, the argument itself if there is one, or nothing. */
  predicate Holds(slot: Value, args: Arg) {
    && (|args| > 1 ==> slot == Many(args))
    && (|args| == 1 ==> slot == args[0])
    && (|args| == 0 ==> slot == Undefined)
  }

  /** The arguments can be told from the slot, except one undefined argument from none, and one array from its elements
    as several arguments. */
  lemma SlotTells(slot: Value, a: Arg, b: Arg)
    requires Holds(slot, a) && Holds(slot, b)
    ensures a == b || (a == [] && b == [Undefined]) || (b == [] && a == [Undefined])
      || (|a| > 1 && b == [Many(a)]) || (|b| > 1 && a == [Many(b)])
  {
    if |a| == 1 && |b| == 1 {
      assert a == [a[0]] && b == [b[0]];
    }
  }

  lemma SlotHolds(args: Arg)
    ensures Holds(Slot(args), args)
  {
  }

  function Undone(fates: seq<Fate>): nat {
    if fates == [] then 0 else Undone(fates[..|fates| - 1]) + if fates[|fates| - 1].Done? then 0 else 1
  }

  lemma {:induction false} UndoneZero(fates: seq<Fate>)
    ensures Undone(fates) == 0 <==> forall i :: 0 <= i < |fates| ==> fates[i].Done?
  {
    if fates != [] {
      UndoneZero(fates[..|fates| - 1]);
    }
  }

  lemma {:induction false} UndoneDrops(fates: seq<Fate>, i: nat, args: Arg)
    requires i < |fates| && !fates[i].Done?
    ensures Undone(fates[i := Done(args)]) == Undone(fates) - 1
  {
    var n := |fates| - 1;
    if i < n {
      UndoneDrops(fates[..n], i, args);
      assert fates[i := Done(args)][..n] == fates[..n][i := Done(args)];
    } else {
      assert fates[i := Done(args)][..n] == fates[..n];
    }
  }

  lemma {:induction false} UndoneSame(a: seq<Fate>, b: seq<Fate>)
    requires |a| == |b| && forall i :: 0 <= i < |a| ==> a[i].Done? == b[i].Done?
    ensures Undone(a) == Undone(b)
  {
    if a != [] {
      UndoneSame(a[..|a| - 1], b[..|b| - 1]);
    }
  }

  lemma {:induction false} AllUndone(fates: seq<Fate>)
    requires forall i :: 0 <= i < |fates| ==> fates[i].Open?
    ensures Undone(fates) == |fates|
  {
    if fates != [] {
      AllUndone(fates[..|fates| - 1]);
    }
  }

  /** A deferred on which nothing is being fired. */
  ghost predicate AtRest(d: Lists)
    reads d
  {
    Deferral(d.W()) && Quiet(d.W())
  }

  /** Where a callback finds the arguments of the settlement. */
  lemma SettledArgs(d: Lists)
    requires AtRest(d) && d.state != Pending
    ensures var l := Winner(d.state);
            |d.lists| == 3 && d.lists[l].memory.Kept? && FateOf(d.W()) == Settlement(l, d.lists[l].memory.arg)
  {
    hide AllFair, ListOk;
    assert DeferredOk(d.W());
  }

  /** An argument of when: a plain value, or the promise of a deferred. */
  datatype Sub = Plain(value: Value) | Promised(promise: Lists)

  function Promises(subs: seq<Sub>): (r: set<Lists>)
    ensures forall i :: 0 <= i < |subs| && subs[i].Promised? ==> subs[i].promise in r
  {
    set i | 0 <= i < |subs| && subs[i].Promised? :: subs[i].promise
  }

  /** What has become of the arguments so far. */
  ghost function Fates(subs: seq<Sub>): (r: seq<Fate>)
    reads Promises(subs)
    ensures |r| == |subs|
  {
    seq(|subs|, i requires 0 <= i < |subs| reads Promises(subs) =>
      if subs[i].Plain? then Done([subs[i].value]) else FateOf(subs[i].promise.W()))
  }

  /** The arguments of the rejections among these fates, in order. */
  function Rejections(fates: seq<Fate>): seq<Arg> {
    if fates == [] then []
    else
      var last := fates[|fates| - 1];
      Rejections(fates[..|fates| - 1]) + if last.Failed? then [last.args] else []
  }

  /** The first rejection, if there is one, is the first among the arguments. */
  lemma {:induction false} FirstRejection(fates: seq<Fate>)
    ensures Rejections(fates) == [] <==> forall i :: 0 <= i < |fates| ==> !fates[i].Failed?
    ensures Rejections(fates) != [] ==>
      exists k :: 0 <= k < |fates| && fates[k] == Failed(Rejections(fates)[0]) && NoneFailed(fates, k)
  {
    if fates != [] {
      var n := |fates| - 1;
      FirstRejection(fates[..n]);
      if Rejections(fates[..n]) != [] {
        var k :| 0 <= k < n && fates[..n][k] == Failed(Rejections(fates[..n])[0]) && NoneFailed(fates[..n], k);
        assert fates[k] == Failed(Rejections(fates)[0]) && NoneFailed(fates, k);
      } else if fates[n].Failed? {
        assert fates[n] == Failed(Rejections(fates)[0]) && NoneFailed(fates, n);
      }
    }
  }

  predicate NoneFailed(fates: seq<Fate>, k: nat) {
    forall i :: 0 <= i < |fates| && i < k ==> !fates[i].Failed?
  }

  /** The callbacks of when run in some order: for argument i, with what has become of it. */
  predicate Callable(order: seq<(nat, Fate)>, fates: seq<Fate>) {
    && (forall k :: 0 <= k < |order| ==> order[k].0 < |fates| && fates[order[k].0].Open? && !order[k].1.Open?)
    && forall j, k :: 0 <= j < k < |order| ==> order[j].0 != order[k].0
  }

  function FatesIn(order: seq<(nat, Fate)>): (r: seq<Fate>)
    ensures |r| == |order|
  {
    seq(|order|, k requires 0 <= k < |order| => order[k].1)
  }

  /** The fates of the arguments once these callbacks have run. */
  function AfterAll(fates: seq<Fate>, order: seq<(nat, Fate)>): (r: seq<Fate>)
    requires forall k :: 0 <= k < |order| ==> order[k].0 < |fates|
    ensures |r| == |fates|
  {
    if order == [] then fates
    else AfterAll(fates, order[..|order| - 1])[order[|order| - 1].0 := order[|order| - 1].1]
  }

  lemma {:induction false} AfterAllOpen(fates: seq<Fate>, order: seq<(nat, Fate)>, i: nat)
    requires (forall k :: 0 <= k < |order| ==> order[k].0 < |fates|) && i < |fates|
    requires forall k :: 0 <= k < |order| ==> order[k].0 != i
    ensures AfterAll(fates, order)[i] == fates[i]
  {
    if order != [] {
      AfterAllOpen(fates, order[..|order| - 1], i);
    }
  }

  lemma OneMoreFate(fates: seq<Fate>, order: seq<(nat, Fate)>, k: nat, failures: seq<Arg>)
    requires Callable(order, fates) && k < |order|
    ensures AfterAll(fates, order[..k])[order[k].0].Open?
    ensures AfterAll(fates, order[..k + 1]) == AfterAll(fates, order[..k])[order[k].0 := order[k].1]
    ensures failures + Rejections(FatesIn(order[..k + 1])) ==
      failures + Rejections(FatesIn(order[..k])) + if order[k].1.Failed? then [order[k].1.args] else []
  {
    AfterAllOpen(fates, order[..k], order[k].0);
    assert order[..k + 1][..k] == order[..k];
    assert FatesIn(order[..k + 1])[..k] == FatesIn(order[..k]);
  }

  lemma OrderStarts(fates: seq<Fate>, order: seq<(nat, Fate)>, failures: seq<Arg>)
    requires Callable(order, fates)
    ensures order[..0] == [] && AfterAll(fates, []) == fates && failures + Rejections(FatesIn([])) == failures
    ensures forall k :: 0 <= k < |order| ==> order[k].0 < |fates| && !order[k].1.Open?
  {
  }

  /** How often a promise is among the arguments. */
  ghost function Places(subs: seq<Sub>, p: Lists): nat {
    if subs == [] then 0
    else Places(subs[..|subs| - 1], p) + if subs[|subs| - 1] == Promised(p) then 1 else 0
  }

  lemma {:induction false} PlacesSome(subs: seq<Sub>, p: Lists)
    ensures Places(subs, p) > 0 <==> p in Promises(subs)
  {
    if subs != [] {
      var n := |subs| - 1;
      PlacesSome(subs[..n], p);
      assert Promises(subs) == Promises(subs[..n]) + if subs[n].Promised? then {subs[n].promise} else {};
    }
  }

  /** The same arguments n times. */
  function Times(args: Arg, n: nat): (r: seq<Arg>)
    ensures |r| == n
  {
    seq(n, _ => args)
  }

  lemma RejectionsNext(fates: seq<Fate>, i: nat)
    requires i < |fates|
    ensures Rejections(fates[..i + 1]) == Rejections(fates[..i]) + if fates[i].Failed? then [fates[i].args] else []
  {
    assert fates[..i + 1][..i] == fates[..i];
  }

  /** One more argument has been told: what is added to the rejections. */
  lemma PlacesNext(subs: seq<Sub>, i: nat, p: Lists, args: Arg, failures: seq<Arg>)
    requires i < |subs|
    ensures var more := if subs[i] == Promised(p) then [args] else [];
            failures + Times(args, Places(subs[..i], p)) + more == failures + Times(args, Places(subs[..i + 1], p))
  {
    assert subs[..i + 1][..i] == subs[..i];
  }

  lemma NothingTold(failures: seq<Arg>, args: Arg, p: Lists)
    ensures failures + Times(args, 0) == failures && Places([], p) == 0 && Rejections([]) == []
  {
  }

  /** What the fates of the arguments make of the deferred that when returns: it resolves when all arguments have, with
    value i in slot i, and is rejected by the first rejection. */
  ghost function Result(fates: seq<Fate>, args: seq<Value>, failures: seq<Arg>): Fate {
    if failures != [] then Failed(failures[0])
    else if forall i :: 0 <= i < |fates| ==> fates[i].Done? then Done(args)
    else Open
  }

  /** The closure of one call of when. */
  class When {
    const subs: seq<Sub>
    const deferred: Lists
    var args: seq<Value>
    var count: int
    ghost var fates: seq<Fate>       // of the arguments, as far as their callbacks have run
    ghost var failures: seq<Arg>     // the rejections, in the order they came

    ghost predicate Counted()
      reads this
    {
      && |args| == |fates| == |subs| >= 2 && count == Undone(fates)
      && (forall i :: 0 <= i < |fates| && fates[i].Done? ==> args[i] == Slot(fates[i].args))
      && (failures == [] <==> forall i :: 0 <= i < |fates| ==> !fates[i].Failed?)
    }

    ghost predicate Told()
      reads this, deferred
    {
      Counted() && AtRest(deferred) && FateOf(deferred.W()) == Result(fates, args, failures)
    }

    ghost predicate Apart()
      reads this, Promises(subs)
    {
      deferred !in Promises(subs) && forall p :: p in Promises(subs) ==> AtRest(p)
    }

    /** The deferred is what the fates of the arguments make of it. */
    ghost predicate Valid()
      reads this, deferred, Promises(subs)
    {
      Told() && Apart() && fates == Fates(subs)
    }

    /** Take up the arguments in turn; a promise already settled calls back at once. */
    constructor (subs: seq<Sub>, scripts: seq<seq<Action>>)
      requires |subs| >= 2 && (forall p :: p in Promises(subs) ==> AtRest(p))
      requires forall j :: 0 <= j < |scripts| ==> ScriptOk(scripts[j], 3, true)
      ensures Valid() && this.subs == subs && fresh(deferred)
      ensures failures == Rejections(Fates(subs))
    {
      hide AtRest, Sound, ScriptOk;
      this.subs := subs;
      deferred := new Lists.Deferred(scripts);
      args := seq(|subs|, i requires 0 <= i < |subs| => if subs[i].Plain? then subs[i].value else Undefined);
      count := |subs|;
      fates := seq(|subs|, _ => Open);
      failures := [];
      new;
      AllUndone(fates);
      NewAtRest(deferred);
      TakeUpAll();
    }

    /** The loop over the arguments, and what comes after it. */
    method TakeUpAll()
      requires Told() && Apart() && forall i :: 0 <= i < |subs| ==> fates[i].Open?
      requires forall i :: 0 <= i < |subs| && subs[i].Plain? ==> args[i] == subs[i].value
      requires failures == []
      modifies this, deferred
      ensures Valid() && failures == Rejections(Fates(subs))
    {
      hide AtRest, Result, Rejections, Sound, FateOf, Undone;
      NothingTold(failures, [], deferred);
      ghost var all := Fates(subs);
      for i := 0 to |subs|
        invariant unchanged(Promises(subs)) && Apart()
        invariant Counted() && AtRest(deferred)
        invariant (Told() || (count == 0 && i == |subs| && FateOf(deferred.W()) == Open))
        invariant forall j :: 0 <= j < |subs| ==> fates[j] == if j < i then all[j] else Open
        invariant forall j :: 0 <= j < |subs| && subs[j].Plain? ==> args[j] == subs[j].value
        invariant failures == Rejections(all[..i])
      {
        ghost var w := fates;
        TakeUp(i);
        assert fates == w[i := all[i]] && (i + 1 < |subs| ==> fates[i + 1].Open?);
        RejectionsNext(all, i);
      }
      assert all[..|subs|] == all;
      UndoneZero(fates);
      if count == 0 {
        AllTold();
      }
      assert fates == all;
    }

    /** With every argument done the deferred is resolved, if it has not been yet. */
    method AllTold()
      requires Counted() && AtRest(deferred) && (Told() || FateOf(deferred.W()) == Open)
      requires forall i :: 0 <= i < |fates| ==> fates[i].Done?
      modifies deferred
      ensures Told()
    {
      hide AtRest;
      SettleDeferred(0, args);
    }

    /** One turn of the loop over the arguments. */
    method TakeUp(i: nat)
      requires Told() && i < |subs| && fates[i].Open?
      requires subs[i].Promised? ==> subs[i].promise != deferred && AtRest(subs[i].promise)
      requires subs[i].Plain? ==> args[i] == subs[i].value
      modifies this, deferred
      ensures Counted() && AtRest(deferred)
      ensures Told() || (count == 0 && FateOf(deferred.W()) == Open && forall j :: 0 <= j < |fates| ==> fates[j].Done?)
      ensures fates == old(fates)[i := if subs[i].Plain? then Done([subs[i].value]) else FateOf(subs[i].promise.W())]
      ensures failures == old(failures) + if fates[i].Failed? then [fates[i].args] else []
      ensures forall j :: 0 <= j < |args| && (j != i || subs[j].Plain?) ==> args[j] == old(args)[j]
    {
      hide AtRest;
      match subs[i] {
        case Plain(v) => TakePlain(i, v);
        case Promised(p) =>
          if p.state != Pending {
            SettledArgs(p);
            if p.state == Resolved {
              Resolve(i, p.lists[0].memory.arg);
            } else {
              Reject(i, p.lists[1].memory.arg);
            }
          }
      }
    }

    /** Argument i is a plain value. */
    method TakePlain(i: nat, value: Value)
      requires Told() && i < |fates| && fates[i].Open? && args[i] == value
      modifies this`count, this`fates
      ensures Counted() && fates == old(fates)[i := Done([value])]
      ensures if forall j :: 0 <= j < |fates| ==>
          fates[j].Done? then count == 0 && FateOf(deferred.W()) == Open else Told()
    {
      hide AtRest, FateOf, Sound, Undone;
      UndoneDrops(fates, i, [value]);
      count := count - 1;
      fates := fates[i := Done([value])];
      UndoneZero(fates);
      forall j | 0 <= j < |fates|
        ensures fates[j].Failed? == old(fates)[j].Failed?
      {
      }
    }

    /** The deferred is resolved (0) or rejected (1): the first time counts. */
    method SettleDeferred(l: nat, value: Arg)
      requires AtRest(deferred) && l < 2
      modifies deferred
      ensures AtRest(deferred)
      ensures FateOf(deferred.W()) == if old(FateOf(deferred.W())).Open? then Settlement(l, value)
          else old(FateOf(deferred.W()))
    {
      hide Sound;
      Settle(deferred, l, value);
    }

    /** The function made by resolveFunc(i) is called. */
    method Resolve(i: nat, value: Arg)
      requires Told() && i < |fates| && fates[i].Open?
      modifies this, deferred
      ensures Told() && fates == old(fates)[i := Done(value)] && failures == old(failures)
      ensures args == old(args)[i := args[i]]
      ensures |value| > 1 ==> args[i] == Many(value)
      ensures |value| == 1 ==> args[i] == value[0]
      ensures |value| == 0 ==> args[i] == Undefined
    {
      hide AtRest, FateOf, Undone;
      SlotHolds(value);
      UndoneDrops(fates, i, value);
      args := args[i := Slot(value)];
      count := count - 1;
      fates := fates[i := Done(value)];
      UndoneZero(fates);
      if count == 0 {
        SettleDeferred(0, args);
      } else {
        assert failures == old(failures);
      }
      forall j | 0 <= j < |fates|
        ensures fates[j].Failed? == old(fates)[j].Failed?
      {
      }
    }

    /** Argument i is rejected. */
    method Reject(i: nat, value: Arg)
      requires Told() && i < |fates| && fates[i].Open?
      modifies this, deferred
      ensures Told() && fates == old(fates)[i := Failed(value)] && failures == old(failures) + [value]
      ensures args == old(args)
    {
      hide AtRest, FateOf, Undone;
      UndoneSame(fates, fates[i := Failed(value)]);
      fates := fates[i := Failed(value)];
      failures := failures + [value];
      SettleDeferred(1, value);
      assert fates[i].Failed?;
    }

    /** The callbacks that when registered with its promises run in any order, as they do when a callback of one
      argument settles another: the deferred is resolved exactly if all arguments are, and if none had been rejected
      before, it is rejected by the first rejection in this order, with its arguments. */
    method RunCallbacks(order: seq<(nat, Fate)>)
      requires Told() && Callable(order, fates)
      modifies this, deferred
      ensures Told() && fates == AfterAll(old(fates), order)
      ensures failures == old(failures) + Rejections(FatesIn(order))
      ensures old(failures) == [] ==>
        if failures == [] then !FateOf(deferred.W()).Failed? && forall k :: 0 <= k < |order| ==> !order[k].1.Failed?
        else exists k :: 0 <= k < |order| && FateOf(deferred.W()) == order[k].1 && NoneFailed(FatesIn(order), k)
    {
      hide Sound, Counted, Result, Rejections, FateOf, AtRest, Callable, AfterAll;
      ghost var fates0 := fates;
      OrderStarts(fates, order, failures);
      for k := 0 to |order|
        invariant Told() && fates == AfterAll(fates0, order[..k]) && |fates| == |fates0|
        invariant failures == old(failures) + Rejections(FatesIn(order[..k]))
      {
        OneMoreFate(fates0, order, k, old(failures));
        match order[k].1 {
          case Done(value) => Resolve(order[k].0, value);
          case Failed(value) => Reject(order[k].0, value);
        }
      }
      assert order[..|order|] == order;
      ghost var fs := FatesIn(order);
      FirstRejection(fs);
      assert forall k :: 0 <= k < |order| ==> fs[k] == order[k].1;
      assert old(failures) == [] ==> failures == Rejections(fs);
      ToldResult();
    }

    /** When all arguments are done, the deferred is resolved with one value for each, in order: all the arguments of
      its settlement, the one it had, or nothing. */
    lemma AllDone()
      requires Valid() && forall i :: 0 <= i < |subs| ==> Fates(subs)[i].Done?
      ensures FateOf(deferred.W()) == Done(args) && |args| == |subs|
      ensures forall i :: 0 <= i < |subs| ==> Holds(args[i], Fates(subs)[i].args)
    {
      hide AtRest, FateOf, Sound, Undone;
      forall i | 0 <= i < |subs|
        ensures Holds(args[i], fates[i].args)
      {
        SlotHolds(fates[i].args);
      }
    }

    /** As long as an argument is open and none has been rejected, so is the deferred; and the first rejection rejects
      it, with its arguments, whatever the others do. */
    lemma StillOpen()
      requires Valid() && exists i :: 0 <= i < |subs| && !Fates(subs)[i].Done?
      ensures failures == [] <==> forall i :: 0 <= i < |subs| ==> !Fates(subs)[i].Failed?
      ensures failures == [] ==> FateOf(deferred.W()) == Open
      ensures failures != [] ==> FateOf(deferred.W()) == Failed(failures[0])
    {
      hide AtRest, FateOf, Sound, Undone;
    }

    lemma ToldResult()
      requires Told()
      ensures failures != [] ==> FateOf(deferred.W()) == Failed(failures[0])
      ensures failures == [] ==> !FateOf(deferred.W()).Failed?
    {
    }

    /** The callbacks that when gave a promise run, once for every place it has among the arguments. */
    method Tell(p: Lists, l: nat, value: Arg)
      requires Told() && Apart() && |fates| == |subs| && l < 2 && FateOf(p.W()) == Settlement(l, value)
      requires forall i :: 0 <= i < |subs| ==> fates[i] == if subs[i] == Promised(p) then Open else Fates(subs)[i]
      modifies this, deferred
      ensures Valid() && failures == old(failures) + Times(value, if l == 1 then Places(subs, p) else 0)
    {
      hide AtRest, Sound, Counted, Result, Quiet, Times, Places;
      NothingTold(failures, value, p);
      assert subs[..0] == [];
      for i := 0 to |subs|
        invariant unchanged(Promises(subs)) && Told() && Apart() && |fates| == |subs|
        invariant forall j :: 0 <= j < |subs| ==>
          fates[j] == if i <= j && subs[j] == Promised(p) then Open else Fates(subs)[j]
        invariant failures == old(failures) + Times(value, if l == 1 then Places(subs[..i], p) else 0)
      {
        PlacesNext(subs, i, p, value, old(failures));
        NothingTold(old(failures), value, p);
        if subs[i] == Promised(p) {
          if l == 0 {
            Resolve(i, value);
          } else {
            Reject(i, value);
          }
        }
      }
      assert fates == Fates(subs) && subs[..|subs|] == subs;
    }

    /** A promise among the arguments is resolved or rejected: if it was open, the callbacks that when gave it run. */
    method SettlePromise(p: Lists, l: nat, value: Arg)
      requires Valid() && p in Promises(subs) && l < 2
      modifies this, deferred, p
      ensures Valid()
      ensures FateOf(p.W()) == if old(FateOf(p.W())).Open? then Settlement(l, value) else old(FateOf(p.W()))
      ensures failures == old(failures) + Times(value, if l == 1 && old(p.state) == Pending then Places(subs, p) else 0)
      ensures l == 1 && old(p.state) == Pending ==> failures != old(failures)
    {
      hide Sound, Counted, Result, Quiet, Times, Places;
      NothingTold(failures, value, p);
      PlacesSome(subs, p);
      var open := p.state == Pending;
      Settle(p, l, value);
      if open {
        Tell(p, l, value);
      } else {
        assert fates == Fates(subs);
      }
    }
  }

  lemma NewAtRest(d: Lists)
    requires Sound(d.W()) && d.deferred && |d.lists| == 3 && forall l :: 0 <= l < 3 ==> !d.lists[l].firing
    ensures AtRest(d)
  {
  }
}
