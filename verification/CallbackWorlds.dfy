/** Any number of callback lists together, while their callbacks act on them; and the three lists of a
  jQuery.Deferred. */
module CallbackWorlds {
  import opened Seqs
  import opened Wrappers
  import opened CallbackLists

  /** What a running callback may do to list number l. */
  datatype Action =
    | DoAdd(l: nat, fns: seq<nat>)
    | DoRemove(l: nat, fn: nat)
    | DoFire(l: nat, arg: Arg)
    | DoDisable(l: nat)
    | DoLock(l: nat)

  /** Everything there is, as one value; deferred says that the lists are those of a deferred: done, fail and
    progress. */
  datatype World = World(
    deferred: bool,
    state: State,
    lists: seq<CbList>,
    scripts: seq<seq<Action>>,
    g: seq<Track>,
    next: nat,
    cbs: seq<Cb>,            // the function of every entry ever added, by number
    firings: seq<(nat, Arg, Firing)>)

  /** A script names lists that exist; the promise of a deferred can only be added to, and a deferred only be fired. */
  predicate ScriptOk(script: seq<Action>, n: nat, deferred: bool) {
    forall k :: 0 <= k < |script| ==> script[k].l < n && (deferred ==> script[k].DoAdd? || script[k].DoFire?)
  }

  predicate ScriptsOk(w: World) {
    forall j :: 0 <= j < |w.scripts| ==> ScriptOk(w.scripts[j], |w.lists|, w.deferred)
  }

  ghost predicate AllFair(firings: seq<(nat, Arg, Firing)>) {
    forall k :: 0 <= k < |firings| ==> FairFiring(firings[k].2, firings[k].1)
  }

  /** The arguments of the recorded firings of list l that were asked for, in order. */
  function AskedArgs(firings: seq<(nat, Arg, Firing)>, l: nat): seq<Arg> {
    if firings == [] then []
    else
      var last := firings[|firings| - 1];
      AskedArgs(firings[..|firings| - 1], l) + if last.0 == l && !last.2.late then [last.1] else []
  }

  /** Of the firings asked for, those begun are those recorded, and the one under way. */
  predicate ServedOk(c: CbList, t: Track, args: seq<Arg>) {
    && MemoryOk(c, t)
    && if c.firing && !t.late then |t.served| >= 1 && args == t.served[..|t.served| - 1] else args == t.served
  }

  /** A list that may fire once does so at most once; and a list with the flag memory keeps the arguments of the firing
    begun last. */
  predicate MemoryOk(c: CbList, t: Track) {
    && (c.once ==> |t.asked| <= 1)
    && (c.list.Some? ==> (c.memory == Unset <==> t.asked == []) && (c.firing ==> c.memory != Unset))
    && (c.list.Some? && c.keeps && c.memory != Unset ==>
         t.served != [] && c.memory == Kept(t.served[|t.served| - 1]))
  }

  ghost predicate AllServed(w: World) {
    |w.lists| == |w.g| && forall l :: 0 <= l < |w.lists| ==>
        ServedOk(w.lists[l], w.g[l], AskedArgs(w.firings, l))
  }

  /** The firing under way, if it was asked for, is the one begun last. */
  predicate LastServed(w: World, l: nat, arg: Arg)
    requires l < |w.lists| == |w.g|
  {
    !w.g[l].late ==> w.g[l].served != [] && w.g[l].served[|w.g[l].served| - 1] == arg
  }

  /** The entries on a list are the functions that their numbers stand for. */
  predicate NamedList(c: CbList, t: Track, cbs: seq<Cb>) {
    && (c.list.Some? ==> |t.ids| == |c.list.value|)
    && (c.list.Some? ==> forall k :: 0 <= k < |t.ids| ==> t.ids[k] < |cbs| && cbs[t.ids[k]] == c.list.value[k])
  }

  /** Every number given out stands for a function. */
  ghost predicate Named(w: World) {
    && |w.lists| == |w.g| && |w.cbs| == w.next
    && forall l :: 0 <= l < |w.lists| ==> NamedList(w.lists[l], w.g[l], w.cbs)
  }

  /** Changing a list keeps the names if its entries stay, or all go. */
  lemma NamedSet(w: World, b: World, l: nat)
    requires Named(w) && l < |w.lists| == |b.lists| == |b.g| && b.cbs == w.cbs && b.next == w.next
    requires forall k :: 0 <= k < |w.lists| && k != l ==> b.lists[k] == w.lists[k] && b.g[k] == w.g[k]
    requires b.lists[l].list.None? || (b.lists[l].list.value == [] && b.g[l].ids == [])
      || (b.lists[l].list == w.lists[l].list && b.g[l].ids == w.g[l].ids)
    ensures Named(b)
  {
    forall k | 0 <= k < |b.lists|
      ensures NamedList(b.lists[k], b.g[k], b.cbs)
    {
      assert NamedList(w.lists[k], w.g[k], w.cbs);
    }
  }

  /** The entries from k on are callers' functions. */
  predicate UsersFrom(c: CbList, k: int) {
    c.list.Some? ==> forall j :: 0 <= j < |c.list.value| && k <= j ==> c.list.value[j].User?
  }

  predicate AllUsers(lists: seq<CbList>) {
    forall l :: 0 <= l < |lists| ==> UsersFrom(lists[l], 0)
  }

  // ----- the lists of a deferred

  /** The state that the firing of the done list (0) or of the fail list (1) leads to. */
  function Outcome(a: nat): State {
    if a == 0 then Resolved else Rejected
  }

  function Other(a: nat): nat {
    if a == 0 then 1 else 0
  }

  /** What a deferred registers on its done list and its fail list before anyone else can. */
  function Starters(a: nat): seq<Cb> {
    [SetState(Outcome(a)), Disabler(Other(a)), Locker(2)]
  }

  predicate SettleFlags(c: CbList) {
    c.once && c.keeps && !c.unique
  }

  /** A done or fail list that has not fired. */
  ghost predicate Waiting(c: CbList, t: Track, a: nat) {
    && SettleFlags(c) && c.list.Some? && !c.firing && c.memory == Unset && c.stack == Some([])
    && t.calledIds == [] && t.asked == [] && t.attached == t.ids
    && |c.list.value| >= 3 && c.list.value[..3] == Starters(a) && UsersFrom(c, 3)
  }

  /** A list that will never call anything, and has not. */
  predicate Silenced(c: CbList, t: Track) {
    c.list.None? && t.calledIds == [] && t.asked == []
  }

  /** The list that settled the deferred: everything added to it has been called, in order, with the same argument, or
    is being called now. */
  ghost predicate Settled(c: CbList, t: Track) {
    && SettleFlags(c) && c.list.Some? && c.stack == Some([]) && c.memory.Kept? && t.asked == [c.memory.arg]
    && (forall k :: 0 <= k < |t.calledArgs| ==> t.calledArgs[k] == c.memory.arg)
    && 3 <= |t.calledIds| == |t.calledArgs| && t.calledIds <= t.attached
    && (if c.firing then t.mark <= |t.calledIds| == t.mark + c.firingIndex + 1 && t.ids == t.attached[t.mark..]
         && UsersFrom(c, c.firingIndex + 1)
        else c.list.value == [] && t.calledIds == t.attached)
  }

  /** The state of a deferred whenever callers' code can run. */
  ghost predicate DeferredOk(w: World) {
    && |w.lists| == |w.g| == 3 && !w.lists[2].once && UsersFrom(w.lists[2], 0)
    && (w.lists[2].stack.Some? <==> w.state == Pending)
    && match w.state
       case Pending => Waiting(w.lists[0], w.g[0], 0) && Waiting(w.lists[1], w.g[1], 1)
       case Resolved => Settled(w.lists[0], w.g[0]) && Silenced(w.lists[1], w.g[1])
       case Rejected => Settled(w.lists[1], w.g[1]) && Silenced(w.lists[0], w.g[0])
  }

  /** While list a is fired, before its next entry: the first three entries settle the deferred step by step. */
  ghost predicate SettlingOk(w: World, a: nat, arg: Arg)
    requires a < 2
  {
    && |w.lists| == |w.g| == 3 && !w.lists[2].once && UsersFrom(w.lists[2], 0)
    && (w.lists[2].stack.Some? <==> |w.g[a].calledIds| < 3)
    && var c, t, b := w.lists[a], w.g[a], Other(a);
       && SettleFlags(c) && c.list.Some? && c.stack == Some([]) && c.memory == Kept(arg) && t.asked == [arg] && c.firing
       && (forall k :: 0 <= k < |t.calledArgs| ==> t.calledArgs[k] == arg)
       && 0 <= c.firingIndex && t.mark <= |t.calledIds| == |t.calledArgs| && |t.calledIds| == t.mark + c.firingIndex
       && t.calledIds <= t.attached && t.ids == t.attached[t.mark..]
       && (if |t.calledIds| < 3 then t.mark == 0 && |c.list.value| >= 3 && c.list.value[..3] == Starters(a)
            && UsersFrom(c, 3)
           else UsersFrom(c, c.firingIndex))
       && w.state == (if |t.calledIds| == 0 then Pending else Outcome(a))
       && (if |t.calledIds| < 2 then Waiting(w.lists[b], w.g[b], b) else Silenced(w.lists[b], w.g[b]))
  }

  /** A deferred before anyone has used it. */
  function NewDeferred(scripts: seq<seq<Action>>): (r: World) {
    World(true, Pending,
      [Settler(0), Settler(1),
       CbList(false, true, false, Some([]), Some([]), Unset, false, 0, 0)],
      scripts, [NewTrack([0, 1, 2]), NewTrack([3, 4, 5]), NewTrack([])], 6, Starters(0) + Starters(1), [])
  }

  lemma NewDeferredSound(scripts: seq<seq<Action>>)
    requires forall j :: 0 <= j < |scripts| ==> ScriptOk(scripts[j], 3, true)
    ensures Sound(NewDeferred(scripts))
  {
    hide AllOk, StacksOk, AllServed, AllFair, DeferredOk, ScriptOk;
    NewDeferredWaits(scripts);
    NewDeferredLists(scripts);
    NewDeferredServed(scripts);
  }

  /** The list that settles to outcome a, with its three entries numbered from n on. */
  function Settler(a: nat): CbList {
    CbList(true, true, false, Some(Starters(a)), Some([]), Unset, false, 0, 0)
  }

  lemma SettlerOk(a: nat, n: nat, next: nat)
    requires n + 3 <= next
    ensures ListOk(Settler(a), NewTrack([n, n + 1, n + 2]), next) && StackOk(Settler(a))
  {
    hide ListOk;
    NewListOk(Settler(a), [n, n + 1, n + 2], next);
  }

  lemma ProgressOk(next: nat)
    ensures var c := CbList(false, true, false, Some([]), Some([]), Unset, false, 0, 0);
            ListOk(c, NewTrack([]), next) && StackOk(c)
  {
    hide ListOk;
    NewListOk(CbList(false, true, false, Some([]), Some([]), Unset, false, 0, 0), [], next);
  }

  lemma NewDeferredLists(scripts: seq<seq<Action>>)
    ensures var w := NewDeferred(scripts);
            AllOk(w.lists, w.g, w.next) && StacksOk(w.lists)
  {
    hide ListOk, StackOk, Starters, NewTrack;
    SettlerOk(0, 0, 6);
    SettlerOk(1, 3, 6);
    ProgressOk(6);
  }

  lemma NewDeferredServed(scripts: seq<seq<Action>>)
    ensures var w := NewDeferred(scripts);
            AllServed(w) && AllFair(w.firings)
  {
    hide Starters;
  }

  lemma NewDeferredWaits(scripts: seq<seq<Action>>)
    ensures DeferredOk(NewDeferred(scripts))
  {
    var w := NewDeferred(scripts);
    assert Starters(0)[..3] == Starters(0) && Starters(1)[..3] == Starters(1);
    assert Waiting(w.lists[0], w.g[0], 0) && Waiting(w.lists[1], w.g[1], 1);
  }

  // ----- all together

  ghost predicate EntriesFit(w: World) {
    if w.deferred then DeferredOk(w) else AllUsers(w.lists)
  }

  /** What holds whenever callers' code can run, except that list k may have firings waiting. */
  ghost predicate SoundBut(w: World, k: nat) {
    AllOk(w.lists, w.g, w.next) && StacksOkBut(w.lists, k) && AllFair(w.firings) && ScriptsOk(w) && EntriesFit(w)
    && AllServed(w) && Named(w)
  }

  ghost predicate Sound(w: World) {
    AllOk(w.lists, w.g, w.next) && StacksOk(w.lists) && AllFair(w.firings) && ScriptsOk(w) && EntriesFit(w)
    && AllServed(w) && Named(w)
  }

  /** What holds at the head of the firing loop of list l. */
  ghost predicate Head(w: World, l: nat, arg: Arg) {
    && l < |w.lists| && AllOkBut(w.lists, w.g, w.next, l) && HeadOk(w.lists[l], w.g[l], w.next)
    && StacksOkBut(w.lists, l) && AllFair(w.firings) && ScriptsOk(w)
    && (forall k :: w.g[l].mark <= k < |w.g[l].calledArgs| ==> w.g[l].calledArgs[k] == arg)
    && AllServed(w) && LastServed(w, l, arg) && Named(w)
    && if w.deferred && l < 2 then SettlingOk(w, l, arg) else EntriesFit(w)
  }

  /** List l and its track replaced. */
  function Set(w: World, l: nat, c: CbList, t: Track): (r: World)
    requires l < |w.lists| == |w.g|
  {
    w.(lists := w.lists[l := c], g := w.g[l := t])
  }

  /** What one operation keeps: the firings in progress stay where they are, and nothing recorded is taken back. */
  predicate Keeps(a: World, b: World) {
    && AllKept(a.lists, a.g, b.lists, b.g) && a.firings <= b.firings && a.next <= b.next && a.cbs <= b.cbs
    && |b.scripts| <= |a.scripts| && b.deferred == a.deferred
    && (a.deferred && a.state != Pending ==> b.state == a.state)
  }

  predicate KeepsBut(a: World, b: World, k: nat) {
    && AllKeptBut(a.lists, a.g, b.lists, b.g, k) && a.firings <= b.firings && a.next <= b.next
    && a.cbs <= b.cbs && |b.scripts| <= |a.scripts|
    && b.deferred == a.deferred
    && (a.deferred && a.state != Pending ==> b.state == a.state)
  }

  lemma KeepsTrans(a: World, b: World, c: World)
    requires Keeps(a, b) && Keeps(b, c)
    ensures Keeps(a, c)
  {
    KeptTrans(a.lists, a.g, b.lists, b.g, c.lists, c.g);
  }

  lemma KeepsButTrans(a: World, b: World, c: World, k: nat)
    requires KeepsBut(a, b, k) && KeepsBut(b, c, k)
    ensures KeepsBut(a, c, k)
  {
    KeptButTrans(a.lists, a.g, b.lists, b.g, c.lists, c.g, k);
  }

  lemma KeepsWeaken(a: World, b: World, k: nat)
    requires Keeps(a, b)
    ensures KeepsBut(a, b, k)
  {
  }

  // ----- add

  /** The list after the loop of add. */
  function PushAll(c: CbList, fns: seq<nat>): (r: CbList)
    requires c.list.Some?
    ensures r.list.Some? && |r.list.value| >= |c.list.value| && r == c.(list := r.list)
  {
    if fns == [] then c
    else
      var r := PushAll(c, fns[..|fns| - 1]);
      if c.unique && User(fns[|fns| - 1]) in r.list.value then r else Push(r, User(fns[|fns| - 1]))
  }

  function Numbers(from: nat, n: nat): (r: seq<nat>)
    ensures |r| == n
  {
    seq(n, k requires 0 <= k => from + k)
  }

  function PushAllTrack(t: Track, from: nat, n: nat): Track {
    t.(ids := t.ids + Numbers(from, n), attached := t.attached + Numbers(from, n))
  }

  function Pushed(w: World, l: nat, fns: seq<nat>): (r: World)
    requires l < |w.lists| == |w.g| && w.lists[l].list.Some?
  {
    var c := w.lists[l];
    var c' := PushAll(c, fns);
    var n := |c'.list.value| - |c.list.value|;
    Set(w, l, c', PushAllTrack(w.g[l], w.next, n)).(next := w.next + n, cbs := w.cbs + c'.list.value[|c.list.value|..])
  }

  lemma PushLength(c: CbList, cb: Cb)
    requires c.list.Some?
    ensures Push(c, cb).list.Some? && |Push(c, cb).list.value| == |c.list.value| + 1
  {
  }

  lemma {:induction false} PushAllOk(c: CbList, t: Track, fns: seq<nat>, next: nat)
    requires c.list.Some? && AddingOk(c, t, next)
    ensures var c' := PushAll(c, fns);
            var n := |c'.list.value| - |c.list.value|;
            AddingOk(c', PushAllTrack(t, next, n), next + n) && PushAllTrack(t, next, n).Ran() == t.Ran()
  {
    hide AddingOk, Push, PushTrack, PushAllTrack, Track.Ran;
    if fns == [] {
      TrackStays(t, next);
      assert AddingOk(PushAll(c, fns), t, next);
    } else {
      PushAllOk(c, t, fns[..|fns| - 1], next);
      var r := PushAll(c, fns[..|fns| - 1]);
      var n := |r.list.value| - |c.list.value|;
      var cb := User(fns[|fns| - 1]);
      if !(c.unique && cb in r.list.value) {
        PushOk(r, PushAllTrack(t, next, n), cb, next + n);
        TrackGrows(t, next, n);
        PushLength(r, cb);
      }
    }
  }

  lemma {:induction false} PushAllUsers(c: CbList, fns: seq<nat>)
    requires c.list.Some?
    ensures var c' := PushAll(c, fns);
            c'.list.value[..|c.list.value|] == c.list.value && UsersFrom(c', |c.list.value|)
  {
    if fns != [] {
      PushAllUsers(c, fns[..|fns| - 1]);
    }
  }

  lemma TrackStays(t: Track, from: nat)
    ensures PushAllTrack(t, from, 0) == t
  {
    assert t.ids + Numbers(from, 0) == t.ids && t.attached + Numbers(from, 0) == t.attached;
  }

  lemma TrackGrows(t: Track, from: nat, n: nat)
    ensures PushTrack(PushAllTrack(t, from, n), from + n) == PushAllTrack(t, from, n + 1)
  {
    assert t.ids + Numbers(from, n) + [from + n] == t.ids + Numbers(from, n + 1);
    assert t.attached + Numbers(from, n) + [from + n] == t.attached + Numbers(from, n + 1);
  }

  /** After the loop of add, with the length of a firing list brought up to date. */
  function Added(w: World, l: nat, fns: seq<nat>): (r: World)
    requires l < |w.lists| == |w.g| && w.lists[l].list.Some?
  {
    var p := Pushed(w, l, fns);
    if w.lists[l].firing then p.(lists := p.lists[l := p.lists[l].(firingLength := |p.lists[l].list.value|)]) else p
  }

  /** The new list and track in all, as seen from the old ones. */
  lemma PushedShape(c: CbList, t: Track, fns: seq<nat>, next: nat)
    requires c.list.Some? && ListOk(c, t, next)
    ensures var p := PushAll(c, fns);
            var c', n := if c.firing then p.(firingLength := |p.list.value|) else p, |p.list.value| - |c.list.value|;
            var t' := PushAllTrack(t, next, n);
            && ListOk(c', t', next + n) && c' == c.(list := c'.list, firingLength := c'.firingLength)
            && t' == t.(ids := t'.ids, attached := t'.attached) && t'.ids == t.ids + Numbers(next, n)
            && t'.attached == t.attached + Numbers(next, n) && c'.list.Some?
            && |c'.list.value| == |c.list.value| + n && c'.list.value[..|c.list.value|] == c.list.value
            && UsersFrom(c', |c.list.value|)
            && |c.list.value| == |t.ids| && t.mark <= |t.calledIds|
  {
    hide ListOk, AddingOk, Track.Ran;
    AddingFromListOk(c, t, next);
    ListFacts(c, t, next);
    PushAllOk(c, t, fns, next);
    PushAllUsers(c, fns);
    var p := PushAll(c, fns);
    AddedListOk(p, PushAllTrack(t, next, |p.list.value| - |c.list.value|), next + |p.list.value| - |c.list.value|);
  }

  lemma AddingFromListOk(c: CbList, t: Track, next: nat)
    requires c.list.Some? && ListOk(c, t, next)
    ensures AddingOk(c, t, next)
  {
  }

  lemma AddedListOk(p: CbList, t: Track, next: nat)
    requires p.list.Some? && AddingOk(p, t, next)
    ensures ListOk(if p.firing then p.(firingLength := |p.list.value|) else p, t, next)
  {
  }

  /** Callbacks added to a firing list run in this firing, and callbacks added to one that has not fired wait. */
  lemma AddedSound(w: World, l: nat, fns: seq<nat>)
    requires Sound(w) && l < |w.lists| && w.lists[l].list.Some? && (w.lists[l].firing || !w.lists[l].memory.Kept?)
    ensures Sound(Added(w, l, fns)) && Keeps(w, Added(w, l, fns))
  {
    hide ListOk, AllFair, DeferredOk, PushAll, PushAllTrack, AllServed, Named;
    var c, t := w.lists[l], w.g[l];
    var a := Added(w, l, fns);
    assert ListOk(c, t, w.next);
    PushedShape(c, t, fns, w.next);
    NextGrows(w.lists, w.g, w.next, a.next);
    assert a == Set(w.(next := a.next, cbs := a.cbs), l, a.lists[l], a.g[l]);
    SetServed(w, l, a);
    AddedNamed(w, l, fns);
    if w.deferred {
      AddedDeferred(w, l, a.lists[l], a.g[l], a);
    }
  }

  lemma AddedNamed(w: World, l: nat, fns: seq<nat>)
    requires Named(w) && l < |w.lists| && w.lists[l].list.Some? && ListOk(w.lists[l], w.g[l], w.next)
    ensures Named(Added(w, l, fns)) && w.cbs <= Added(w, l, fns).cbs
  {
    hide ListOk, PushAll, UsersFrom, NamedList;
    var c, t, a := w.lists[l], w.g[l], Added(w, l, fns);
    PushedShape(c, t, fns, w.next);
    assert NamedList(c, t, w.cbs);
    var pushed := PushAll(c, fns).list.value;
    assert pushed == pushed[..|c.list.value|] + pushed[|c.list.value|..];
    AddedNames(c, t, w.cbs, a.lists[l], a.g[l], pushed[|c.list.value|..]);
    forall k | 0 <= k < |a.lists| && k != l
      ensures NamedList(a.lists[k], a.g[k], a.cbs)
    {
      assert NamedList(w.lists[k], w.g[k], w.cbs);
      MoreNames(w.lists[k], w.g[k], w.cbs, a.cbs);
    }
  }

  lemma MoreNames(c: CbList, t: Track, cbs: seq<Cb>, cbs': seq<Cb>)
    requires NamedList(c, t, cbs) && cbs <= cbs'
    ensures NamedList(c, t, cbs')
  {
  }

  lemma AddedNames(c: CbList, t: Track, cbs: seq<Cb>, c': CbList, t': Track, more: seq<Cb>)
    requires NamedList(c, t, cbs) && c.list.Some? && c'.list == Some(c.list.value + more)
    requires t'.ids == t.ids + Numbers(|cbs|, |more|)
    ensures NamedList(c', t', cbs + more)
  {
  }

  /** Firings are recorded as before when list l has only other entries. */
  lemma SetServed(w: World, l: nat, a: World)
    requires AllServed(w) && l < |w.lists| == |a.lists| == |a.g|
    requires a == Set(w.(next := a.next, cbs := a.cbs), l, a.lists[l], a.g[l])
    requires a.lists[l].firing == w.lists[l].firing && a.g[l].late == w.g[l].late && a.g[l].served == w.g[l].served
    requires a.lists[l].once == w.lists[l].once && a.lists[l].keeps == w.lists[l].keeps
    requires a.lists[l].list.Some? == w.lists[l].list.Some? && a.lists[l].memory == w.lists[l].memory
    requires a.g[l].asked == w.g[l].asked
    ensures AllServed(a)
  {
    hide AskedArgs;
  }

  lemma AddedDeferred(w: World, l: nat, c': CbList, t': Track, a: World)
    requires DeferredOk(w) && l < |w.lists| == |w.g| && w.lists[l].list.Some?
    requires (w.lists[l].firing || !w.lists[l].memory.Kept?)
    requires |w.lists[l].list.value| == |w.g[l].ids|
    requires c'.list.Some? && |c'.list.value| >= |w.lists[l].list.value| && UsersFrom(c', |w.lists[l].list.value|)
    requires c' == w.lists[l].(list := c'.list, firingLength := c'.firingLength)
    requires c'.list.value[..|w.lists[l].list.value|] == w.lists[l].list.value
    requires t' == w.g[l].(ids := t'.ids, attached := t'.attached) && w.g[l].mark <= |w.g[l].calledIds|
    requires exists more :: t'.ids == w.g[l].ids + more && t'.attached == w.g[l].attached + more
    requires a == Set(w, l, c', t').(next := a.next, cbs := a.cbs)
    ensures DeferredOk(a)
  {
    hide Settled, Waiting;
    var c, t := w.lists[l], w.g[l];
    forall j | 0 <= j < |c.list.value|
      ensures c'.list.value[j] == c.list.value[j]
    {
      assert c'.list.value[..|c.list.value|][j] == c.list.value[j];
    }
    if l < 2 && w.state == Pending {
      AddedWaiting(c, t, c', t', l);
    } else if l < 2 {
      SettledKeeps(c, t);
      AddedSettled(c, t, c', t');
    }
  }

  lemma SettledKeeps(c: CbList, t: Track)
    requires Settled(c, t)
    ensures c.memory.Kept?
  {
  }

  lemma AddedWaiting(c: CbList, t: Track, c': CbList, t': Track, a: nat)
    requires Waiting(c, t, a) && c'.list.Some? && |c'.list.value| >= |c.list.value| == |t.ids|
    requires forall j :: 0 <= j < |c.list.value| ==> c'.list.value[j] == c.list.value[j]
    requires UsersFrom(c', |c.list.value|) && c' == c.(list := c'.list, firingLength := c'.firingLength)
    requires t' == t.(ids := t'.ids, attached := t'.attached)
    requires exists more :: t'.ids == t.ids + more && t'.attached == t.attached + more
    ensures Waiting(c', t', a)
  {
    assert c'.list.value[..3] == c.list.value[..3];
  }

  lemma AddedSettled(c: CbList, t: Track, c': CbList, t': Track)
    requires Settled(c, t) && c.firing && c'.list.Some? && |c'.list.value| >= |c.list.value| == |t.ids|
    requires forall j :: 0 <= j < |c.list.value| ==> c'.list.value[j] == c.list.value[j]
    requires UsersFrom(c', |c.list.value|) && c' == c.(list := c'.list, firingLength := c'.firingLength)
    requires t' == t.(ids := t'.ids, attached := t'.attached)
    requires exists more :: t'.ids == t.ids + more && t'.attached == t.attached + more
    ensures Settled(c', t')
  {
    var more :| t'.ids == t.ids + more && t'.attached == t.attached + more;
    assert (t.attached + more)[t.mark..] == t.attached[t.mark..] + more;
  }

  // ----- fire

  function BeginWorld(w: World, l: nat, start: nat, arg: Arg, late: bool): (r: World)
    requires l < |w.lists| == |w.g| && w.lists[l].list.Some? && start <= |w.g[l].ids|
  {
    Set(w, l, Begin(w.lists[l], start, arg), BeginTrack(w.g[l], start, late))
  }

  /** Everything about the lists other than l, which is about to fire. */
  ghost predicate OthersOk(w: World, l: nat) {
    && l < |w.lists| && AllOkBut(w.lists, w.g, w.next, l) && StacksOkBut(w.lists, l) && AllFair(w.firings)
    && ScriptsOk(w) && Named(w)
  }

  lemma BeginHead(w: World, l: nat, start: nat, arg: Arg, late: bool)
    requires OthersOk(w, l) && ListOk(w.lists[l], w.g[l], w.next) && w.lists[l].list.Some?
    requires start <= |w.lists[l].list.value| && (!late ==> start == 0)
    requires if w.deferred && l < 2 then SettlingOk(BeginWorld(w, l, start, arg, late), l, arg)
        else EntriesFit(BeginWorld(w, l, start, arg, late))
    requires ServedNext(w, l, arg, late)
    ensures Head(BeginWorld(w, l, start, arg, late), l, arg)
  {
    hide AllServed, LastServed, ServedNext, AllFair, ListOk, HeadOk, EntriesFit, SettlingOk;
    ListFacts(w.lists[l], w.g[l], w.next);
    BeginOk(w.lists[l], w.g[l], w.next, start, arg, late);
    BeginServed(w, l, start, arg, late);
    NamedSet(w, BeginWorld(w, l, start, arg, late), l);
  }

  /** The firing about to begin is the one asked for after those recorded, unless it is due to a late addition. */
  ghost predicate ServedNext(w: World, l: nat, arg: Arg, late: bool)
    requires l < |w.lists| == |w.g|
  {
    && (forall k :: 0 <= k < |w.lists| && k != l ==> ServedOk(w.lists[k], w.g[k], AskedArgs(w.firings, k)))
    && w.g[l].served == AskedArgs(w.firings, l) + (if late then [] else [arg])
    && w.g[l].asked != [] && (w.lists[l].once ==> |w.g[l].asked| <= 1)
    && (w.lists[l].keeps ==> w.g[l].served != [] && w.g[l].served[|w.g[l].served| - 1] == arg)
  }

  lemma BeginServed(w: World, l: nat, start: nat, arg: Arg, late: bool)
    requires l < |w.lists| == |w.g| && w.lists[l].list.Some? && start <= |w.g[l].ids| && ServedNext(w, l, arg, late)
    ensures var b := BeginWorld(w, l, start, arg, late);
            AllServed(b) && LastServed(b, l, arg)
  {
    hide AskedArgs;
  }

  /** A list that remembers its last arguments fires at once, from the first of the callbacks added. */
  lemma AddedFires(w: World, l: nat, fns: seq<nat>)
    requires Sound(w) && l < |w.lists| && w.lists[l].list.Some? && !w.lists[l].firing && w.lists[l].memory.Kept?
    ensures var a, start := Added(w, l, fns), |w.lists[l].list.value|;
            && a.lists[l].list.Some? && start <= |a.lists[l].list.value| == |a.g[l].ids| && KeepsBut(w, a, l)
            && a.lists[l] == w.lists[l].(list := a.lists[l].list)
            && Head(BeginWorld(a, l, start, w.lists[l].memory.arg, true), l, w.lists[l].memory.arg)
  {
    hide ListOk, AllFair, DeferredOk, SettlingOk, PushAll, PushAllTrack, Head, BeginWorld, Named;
    var c, t := w.lists[l], w.g[l];
    var a := Added(w, l, fns);
    assert ListOk(c, t, w.next);
    PushedShape(c, t, fns, w.next);
    NextGrows(w.lists, w.g, w.next, a.next);
    ListFacts(c, t, w.next);
    AddedBegins(w, l, a.lists[l], a.g[l], a);
    AddedNamed(w, l, fns);
    assert ListOk(a.lists[l], a.g[l], a.next);
    assert a == Set(w, l, a.lists[l], a.g[l]).(next := a.next, cbs := a.cbs);
    BeginHead(a, l, |c.list.value|, c.memory.arg, true);
  }

  lemma AddedBegins(w: World, l: nat, c': CbList, t': Track, a: World)
    requires EntriesFit(w) && l < |w.lists| == |w.g| && w.lists[l].list.Some? && !w.lists[l].firing
    requires w.lists[l].memory.Kept?
    requires |w.lists[l].list.value| == |w.g[l].ids|
    requires c'.list.Some? && |c'.list.value| >= |w.lists[l].list.value| && UsersFrom(c', |w.lists[l].list.value|)
    requires c'.list.value[..|w.lists[l].list.value|] == w.lists[l].list.value
    requires c' == w.lists[l].(list := c'.list, firingLength := c'.firingLength)
    requires t' == w.g[l].(ids := t'.ids, attached := t'.attached) && |w.g[l].calledArgs| == |w.g[l].calledIds|
    requires exists more :: t'.ids == w.g[l].ids + more && t'.attached == w.g[l].attached + more
    requires a == Set(w, l, c', t').(next := a.next, cbs := a.cbs)
    ensures var b := BeginWorld(a, l, |w.lists[l].list.value|, w.lists[l].memory.arg, true);
            if w.deferred && l < 2 then SettlingOk(b, l, w.lists[l].memory.arg) else EntriesFit(b)
  {
    var c, t := w.lists[l], w.g[l];
    var more :| t'.ids == t.ids + more && t'.attached == t.attached + more;
    if w.deferred && l < 2 {
      assert w.state != Pending;
      assert Settled(c, t) && c.list.value == [];
      assert t.ids == [] && t'.ids == more;
      assert t'.attached[|t.calledIds|..] == more;
    } else {
      forall j | 0 <= j < |c.list.value|
        ensures c'.list.value[j] == c.list.value[j]
      {
        assert c'.list.value[..|c.list.value|][j] == c.list.value[j];
      }
    }
  }

  /** A firing accepted on a list that is not firing. */
  function Accepted(w: World, l: nat, arg: Arg): (r: World)
    requires l < |w.lists| == |w.g|
  {
    Set(w, l, w.lists[l], w.g[l].(asked := w.g[l].asked + [arg], served := w.g[l].served + [arg]))
  }

  lemma FireBegins(w: World, l: nat, arg: Arg)
    requires Sound(w) && l < |w.lists| && w.lists[l].stack.Some? && !w.lists[l].firing
    requires !(w.lists[l].once && w.lists[l].memory != Unset)
    ensures var a := Accepted(w, l, arg);
            a.lists[l].list.Some? && Head(BeginWorld(a, l, 0, arg, false), l, arg) && KeepsBut(w, a, l)
                && |a.g[l].ids| == |a.lists[l].list.value|
  {
    hide AllFair, ListOk, DeferredOk, SettlingOk, BeginWorld, Head, Track.Ran, Named;
    var a := Accepted(w, l, arg);
    assert ListOk(w.lists[l], w.g[l], w.next) && StackOk(w.lists[l]);
    AcceptedOk(w.lists[l], w.g[l], w.next, arg);
    ListFacts(w.lists[l], w.g[l], w.next);
    FireSettles(w, l, arg);
    NamedSet(w, a, l);
    BeginHead(a, l, 0, arg, false);
  }

  lemma AcceptedOk(c: CbList, t: Track, next: nat, arg: Arg)
    requires ListOk(c, t, next) && StackOk(c) && !c.firing && c.stack.Some?
    ensures ListOk(c, t.(asked := t.asked + [arg], served := t.served + [arg]), next)
    ensures c.list.Some? && |t.ids| == |c.list.value|
  {
    assert t.(asked := t.asked + [arg], served := t.served + [arg]).Ran() == t.Ran();
  }

  lemma FireSettles(w: World, l: nat, arg: Arg)
    requires EntriesFit(w) && l < |w.lists| == |w.g| && w.lists[l].list.Some? && w.lists[l].stack.Some?
    requires !w.lists[l].firing
    requires !(w.lists[l].once && w.lists[l].memory != Unset) && |w.g[l].calledIds| == |w.g[l].calledArgs|
    ensures var b := BeginWorld(Accepted(w, l, arg), l, 0, arg, false);
            if w.deferred && l < 2 then SettlingOk(b, l, arg) else EntriesFit(b)
  {
    if w.deferred && l < 2 {
      assert Waiting(w.lists[l], w.g[l], l);
    }
  }

  /** A firing asked for while the list is firing. */
  function Stacked(w: World, l: nat, arg: Arg): (r: World)
    requires l < |w.lists| == |w.g| && w.lists[l].stack.Some?
  {
    Set(w, l, w.lists[l].(stack := Some(w.lists[l].stack.value + [arg])), w.g[l].(asked := w.g[l].asked + [arg]))
  }

  lemma StackedSound(w: World, l: nat, arg: Arg)
    requires Sound(w) && l < |w.lists| && w.lists[l].stack.Some? && w.lists[l].firing && !w.lists[l].once
    ensures Sound(Stacked(w, l, arg)) && Keeps(w, Stacked(w, l, arg))
  {
    hide AllFair, ListOk, DeferredOk, Track.Ran, Named;
    assert ListOk(w.lists[l], w.g[l], w.next);
    ListFacts(w.lists[l], w.g[l], w.next);
    NamedSet(w, Stacked(w, l, arg), l);
    StackedOk(w.lists[l], w.g[l], w.next, arg);
    if w.deferred {
      StackedDeferred(w, l, arg);
    }
  }

  lemma StackedOk(c: CbList, t: Track, next: nat, arg: Arg)
    requires ListOk(c, t, next) && c.firing && !c.once && c.stack.Some?
    ensures ListOk(c.(stack := Some(c.stack.value + [arg])), t.(asked := t.asked + [arg]), next)
  {
    assert t.(asked := t.asked + [arg]).Ran() == t.Ran();
  }

  lemma StackedDeferred(w: World, l: nat, arg: Arg)
    requires DeferredOk(w) && l < |w.lists| && w.lists[l].list.Some? && w.lists[l].stack.Some? && w.lists[l].firing
    requires !w.lists[l].once
    ensures DeferredOk(Stacked(w, l, arg))
  {
    assert l == 2;
  }

  /** The state before arg was taken from the stack. */
  function Waited(w: World, l: nat, arg: Arg, m: Memory): (r: World)
    requires l < |w.lists| == |w.g| && w.lists[l].stack.Some?
  {
    Set(w, l, w.lists[l].(stack := Some([arg] + w.lists[l].stack.value), memory := m), w.g[l])
  }

  /** A firing taken from the stack of a list that has just finished one: arg is the one taken. */
  ghost predicate FiresAgain(w: World, l: nat, arg: Arg) {
    && l < |w.lists| == |w.g| && !w.lists[l].firing && !w.lists[l].once && w.lists[l].stack.Some?
    && exists m :: SoundBut(Waited(w, l, arg, m), l)
  }

  function Resumed(w: World, l: nat, arg: Arg): (r: World)
    requires l < |w.lists| == |w.g|
  {
    Set(w, l, w.lists[l], w.g[l].(served := w.g[l].served + [arg]))
  }

  lemma AgainBegins(w: World, l: nat, arg: Arg)
    requires FiresAgain(w, l, arg)
    ensures var a := Resumed(w, l, arg);
            a.lists[l].list.Some? && Head(BeginWorld(a, l, 0, arg, false), l, arg) && KeepsBut(w, a, l)
                && |a.g[l].ids| == |a.lists[l].list.value|
  {
    hide AllFair, ListOk, StackOk, Head, Named, AskedArgs, AllServed, ServedNext, EntriesFit, BeginWorld;
    var a := Resumed(w, l, arg);
    var m :| SoundBut(Waited(w, l, arg, m), l);
    var b := Waited(w, l, arg, m);
    assert ListOk(b.lists[l], b.g[l], b.next);
    ResumedOk(w.lists[l], w.g[l], w.next, arg, m);
    NamedSet(b, a, l);
    AgainServed(w, l, arg, m);
    AgainFits(w, l, arg, m);
    forall k | 0 <= k < |a.lists| && k != l
      ensures ListOk(a.lists[k], a.g[k], a.next) && StackOk(a.lists[k])
    {
      assert ListOk(b.lists[k], b.g[k], b.next) && StackOk(b.lists[k]);
    }
    BeginHead(a, l, 0, arg, false);
  }

  lemma AgainServed(w: World, l: nat, arg: Arg, m: Memory)
    requires l < |w.lists| == |w.g| && !w.lists[l].firing && !w.lists[l].once && w.lists[l].stack.Some?
    requires AllServed(Waited(w, l, arg, m)) && ListOk(Waited(w, l, arg, m).lists[l], w.g[l], w.next)
    ensures ServedNext(Resumed(w, l, arg), l, arg, false)
  {
    hide AskedArgs, EntriesOk, FiringOk;
    var b := Waited(w, l, arg, m);
    assert forall k :: 0 <= k < |b.lists| ==> ServedOk(b.lists[k], b.g[k], AskedArgs(b.firings, k));
  }

  lemma AgainFits(w: World, l: nat, arg: Arg, m: Memory)
    requires l < |w.lists| == |w.g| && !w.lists[l].firing && !w.lists[l].once && w.lists[l].stack.Some?
    requires EntriesFit(Waited(w, l, arg, m)) && w.lists[l].list.Some? && 0 <= |w.g[l].ids|
    ensures var b := BeginWorld(Resumed(w, l, arg), l, 0, arg, false);
            if w.deferred && l < 2 then SettlingOk(b, l, arg) else EntriesFit(b)
  {
    hide ListOk;
    var b := Waited(w, l, arg, m);
    if w.deferred {
      assert DeferredOk(b) && l == 2;
    } else {
      assert UsersFrom(b.lists[l], 0);
      forall k | 0 <= k < |w.lists|
        ensures UsersFrom(w.lists[k], 0)
      {
        assert UsersFrom(b.lists[k], 0);
      }
    }
  }

  lemma ResumedOk(c: CbList, t: Track, next: nat, arg: Arg, m: Memory)
    requires c.stack.Some? && ListOk(c.(stack := Some([arg] + c.stack.value), memory := m), t, next)
    ensures ListOk(c, t.(served := t.served + [arg]), next)
    ensures c.list.Some? && |t.ids| == |c.list.value| && !c.once
  {
    assert t.served + ([arg] + c.stack.value) == t.served + [arg] + c.stack.value;
    assert t.(served := t.served + [arg]).Ran() == t.Ran();
  }

  // ----- one turn of the firing loop

  /** The call of the next entry begins. */
  function CallWorld(w: World, l: nat, arg: Arg): (r: World)
    requires l < |w.lists| == |w.g| && 0 <= w.lists[l].firingIndex < |w.g[l].ids|
  {
    Set(w, l, w.lists[l], CallTrack(w.g[l], w.g[l].ids[w.lists[l].firingIndex], arg))
  }

  function Next(w: World, l: nat): (r: World)
    requires l < |w.lists| == |w.g|
  {
    w.(lists := w.lists[l := w.lists[l].(firingIndex := w.lists[l].firingIndex + 1)])
  }

  ghost predicate Turn(w: World, l: nat, arg: Arg) {
    && Head(w, l, arg) && w.lists[l].list.Some? && w.lists[l].firingIndex < w.lists[l].firingLength
  }

  lemma CallUser(w: World, l: nat, arg: Arg)
    requires Turn(w, l, arg) && w.lists[l].list.value[w.lists[l].firingIndex].User?
    ensures var d := CallWorld(w, l, arg);
            && Sound(d) && KeepsBut(w, d, l) && d.lists[l].firing
            && (forall k :: d.g[l].mark <= k < |d.g[l].calledArgs| ==> d.g[l].calledArgs[k] == arg)
            && d.g[l].mark < |d.g[l].calledArgs| && LastServed(d, l, arg)
  {
    hide AllFair, ListOk, DeferredOk, SettlingOk, Track.Ran, FiringOk, Named, AskedArgs, NextOk, EntriesOk;
    HeadFacts(w, l, arg);
    var d := CallWorld(w, l, arg);
    NamedSet(w, d, l);
    CallOk(w.lists[l], w.g[l], w.next, arg);
    if w.deferred && l < 2 {
      CallUserSettling(w, l, arg);
    } else if w.deferred {
      CallProgress(w, l, arg);
    }
  }

  lemma ListFacts(c: CbList, t: Track, next: nat)
    requires ListOk(c, t, next)
    ensures (c.list.None? ==> c.stack.None?) && t.mark <= |t.calledIds| == |t.calledArgs|
    ensures (c.list.Some? ==> |t.ids| == |c.list.value|)
  {
  }

  lemma HeadFacts(w: World, l: nat, arg: Arg)
    requires Head(w, l, arg) && w.lists[l].list.Some?
    ensures w.lists[l].firing && |w.g[l].ids| == |w.lists[l].list.value| == w.lists[l].firingLength
    ensures 0 <= w.lists[l].firingIndex
    ensures w.g[l].mark <= |w.g[l].calledArgs|
  {
  }

  lemma CallProgress(w: World, l: nat, arg: Arg)
    requires DeferredOk(w) && 2 <= l < |w.lists| && 0 <= w.lists[l].firingIndex < |w.g[l].ids|
    ensures DeferredOk(CallWorld(w, l, arg))
  {
  }

  lemma CallUserSettling(w: World, l: nat, arg: Arg)
    requires l < 2 && SettlingOk(w, l, arg) && |w.g[l].ids| == |w.lists[l].list.value|
    requires w.lists[l].firingIndex < |w.g[l].ids| && w.lists[l].list.value[w.lists[l].firingIndex].User?
    ensures DeferredOk(CallWorld(w, l, arg))
  {
    var c, t := w.lists[l], w.g[l];
    var k := c.firingIndex;
    assert t.attached[|t.calledIds|] == t.ids[k];
    assert t.calledIds + [t.ids[k]] <= t.attached;
    assert Settled(w.lists[l], CallTrack(t, t.ids[k], arg));
  }

  /** After the call, whatever the callback did. */
  lemma AfterCall(d: World, e: World, l: nat, arg: Arg)
    requires Sound(d) && Sound(e) && Keeps(d, e) && l < |d.lists| && d.lists[l].firing
    requires forall k :: d.g[l].mark <= k < |d.g[l].calledArgs| ==> d.g[l].calledArgs[k] == arg
    requires d.g[l].mark < |d.g[l].calledArgs| && LastServed(d, l, arg)
    ensures Head(Next(e, l), l, arg) && KeepsBut(e, Next(e, l), l)
    ensures e.g[l].late == d.g[l].late && e.g[l].skip == d.g[l].skip
    ensures e.g[l].mark == d.g[l].mark && e.g[l].from == d.g[l].from
  {
    hide AllFair, ListOk, DeferredOk, SettlingOk, Track.Ran, HeadOk, AllServed, LastServed, Named;
    NamedSet(e, Next(e, l), l);
    assert Kept1(d.lists[l], d.g[l], e.lists[l], e.g[l]);
    assert ListOk(e.lists[l], e.g[l], e.next);
    ReturnOk(e.lists[l], e.g[l], e.next);
    ListFacts(e.lists[l], e.g[l], e.next);
    NextServed(d, e, l, arg);
    if d.deferred {
      NextDeferred(d, e, l, arg);
    }
  }

  lemma NextServed(d: World, e: World, l: nat, arg: Arg)
    requires l < |d.lists| == |d.g| == |e.lists| == |e.g| && LastServed(d, l, arg) && AllServed(e)
    requires Kept1(d.lists[l], d.g[l], e.lists[l], e.g[l]) && d.lists[l].firing
    ensures |Next(e, l).lists| == |Next(e, l).g| && AllServed(Next(e, l)) && LastServed(Next(e, l), l, arg)
  {
    hide AskedArgs;
  }

  lemma NextDeferred(d: World, e: World, l: nat, arg: Arg)
    requires DeferredOk(d) && DeferredOk(e) && Keeps(d, e) && d.deferred && l < |d.lists| && d.lists[l].firing
    requires forall k :: d.g[l].mark <= k < |d.g[l].calledArgs| ==> d.g[l].calledArgs[k] == arg
    requires d.g[l].mark < |d.g[l].calledArgs|
    requires e.g[l].mark <= |e.g[l].calledIds| == |e.g[l].calledArgs|
    ensures if l < 2 then SettlingOk(Next(e, l), l, arg) else DeferredOk(Next(e, l))
  {
    assert Kept1(d.lists[l], d.g[l], e.lists[l], e.g[l]);
    if l < 2 {
      assert Settled(e.lists[l], e.g[l]);
      var last := |e.g[l].calledArgs| - 1;
      assert e.g[l].calledArgs[last] == arg;
    }
  }

  // ----- the callbacks of a deferred

  function Disabled(c: CbList): (r: CbList) {
    c.(list := None, stack := None, memory := Unset)
  }

  function Locked(c: CbList): (r: CbList) {
    if c.memory.Kept? then c.(stack := None) else Disabled(c)
  }

  /** What one of the callbacks of a deferred does. */
  function Effect(w: World, cb: Cb): (r: World)
    requires |w.lists| == |w.g|
    requires (cb.Disabler? || cb.Locker?) ==> cb.l < |w.lists|
  {
    match cb
    case User(_) => w
    case SetState(s) => w.(state := s)
    case Disabler(k) => w.(lists := w.lists[k := Disabled(w.lists[k])])
    case Locker(k) => w.(lists := w.lists[k := Locked(w.lists[k])])
  }

  lemma SilencingOk(c: CbList, t: Track, next: nat)
    requires ListOk(c, t, next)
    ensures ListOk(Disabled(c), t, next) && ListOk(Locked(c), t, next)
    ensures Kept1(c, t, Disabled(c), t) && Kept1(c, t, Locked(c), t)
    ensures StackOk(Disabled(c)) && StackOk(Locked(c))
  {
  }

  /** Function cb, one of the three that a deferred starts its list l with, is the next to be called. */
  predicate BuiltinTurn(w: World, l: nat, cb: Cb) {
    && l < 2 && |w.lists| == |w.g| == 3 && w.lists[l].list.Some?
    && 0 <= w.lists[l].firingIndex < 3 && w.lists[l].firingIndex < |w.g[l].ids| == |w.lists[l].list.value|
    && cb == w.lists[l].list.value[w.lists[l].firingIndex] == Starters(l)[w.lists[l].firingIndex]
    && !cb.User? && (cb.SetState? || cb.l < 3)
  }

  /** The world after its call. */
  function AfterBuiltin(w: World, l: nat, arg: Arg, cb: Cb): (r: World)
    requires BuiltinTurn(w, l, cb)
  {
    Next(Effect(CallWorld(w, l, arg), cb), l)
  }

  lemma BuiltinStep(w: World, l: nat, arg: Arg, cb: Cb)
    requires BuiltinTurn(w, l, cb) && Turn(w, l, arg) && w.deferred
    ensures Head(AfterBuiltin(w, l, arg, cb), l, arg) && KeepsBut(w, AfterBuiltin(w, l, arg, cb), l)
  {
    hide AllFair, ListOk, DeferredOk, SettlingOk, HeadOk, FiringOk;
    hide Starters, AfterBuiltin, AllServed, LastServed, AllOkBut, StacksOkBut, Named;
    HeadFacts(w, l, arg);
    BuiltinSettles(w, l, arg, cb);
    BuiltinLists(w, l, arg, cb);
    BuiltinServed(w, l, arg, cb);
    BuiltinNamed(w, l, arg, cb);
  }

  lemma BuiltinNamed(w: World, l: nat, arg: Arg, cb: Cb)
    requires BuiltinTurn(w, l, cb) && Named(w)
    ensures Named(AfterBuiltin(w, l, arg, cb))
  {
    hide Named, Starters;
    var d := CallWorld(w, l, arg);
    NamedSet(w, d, l);
    var e := Effect(d, cb);
    if !cb.SetState? {
      NamedSet(d, e, cb.l);
    } else {
      NamedSet(d, e, l);
    }
    NamedSet(e, Next(e, l), l);
  }

  lemma BuiltinServed(w: World, l: nat, arg: Arg, cb: Cb)
    requires BuiltinTurn(w, l, cb) && AllServed(w) && LastServed(w, l, arg)
    ensures var n := AfterBuiltin(w, l, arg, cb);
            AllServed(n) && |n.lists| == |n.g| == 3 && LastServed(n, l, arg)
  {
    hide AllServed, Starters, CallWorld, Effect, Next;
    var c := CallWorld(w, l, arg);
    CallServed(w, l, arg);
    EffectServed(c, l, cb);
    StepServed(Effect(c, cb), l);
  }

  lemma CallServed(w: World, l: nat, arg: Arg)
    requires AllServed(w) && l < |w.lists| == |w.g| && 0 <= w.lists[l].firingIndex < |w.g[l].ids|
    ensures var n := CallWorld(w, l, arg);
            && AllServed(n) && n.lists == w.lists && |n.g| == |w.g|
            && n.g[l].late == w.g[l].late && n.g[l].served == w.g[l].served
  {
    hide AskedArgs;
  }

  lemma EffectServed(w: World, l: nat, cb: Cb)
    requires AllServed(w) && |w.lists| == |w.g| && l < |w.g| && (cb.Disabler? || cb.Locker? ==> cb.l < |w.lists|)
    ensures AllServed(Effect(w, cb)) && |Effect(w, cb).lists| == |w.lists| && Effect(w, cb).g == w.g
  {
    hide AskedArgs, ServedOk;
    var n := Effect(w, cb);
    forall k | 0 <= k < |n.lists|
      ensures ServedOk(n.lists[k], n.g[k], AskedArgs(n.firings, k))
    {
      assert ServedOk(w.lists[k], w.g[k], AskedArgs(w.firings, k));
      ServedSame(w.lists[k], w.g[k], n.lists[k], n.g[k], AskedArgs(w.firings, k));
    }
  }

  lemma StepServed(w: World, l: nat)
    requires AllServed(w) && l < |w.lists| == |w.g|
    ensures AllServed(Next(w, l)) && Next(w, l).g == w.g && |Next(w, l).lists| == |w.lists|
  {
    hide AskedArgs;
  }

  /** The firings of a list are recorded as before as long as it keeps its memory, or goes. */
  lemma ServedSame(c: CbList, t: Track, c': CbList, t': Track, args: seq<Arg>)
    requires ServedOk(c, t, args) && c'.once == c.once && c'.keeps == c.keeps && c'.firing == c.firing
    requires t'.late == t.late && t'.asked == t.asked && t'.served == t.served
    requires c'.list.Some? ==> c.list.Some? && c'.memory == c.memory
    ensures ServedOk(c', t', args)
  {
  }

  /** The other lists stay in order, and list l goes on. */
  lemma BuiltinLists(w: World, l: nat, arg: Arg, cb: Cb)
    requires BuiltinTurn(w, l, cb) && HeadOk(w.lists[l], w.g[l], w.next) && w.lists[l].firing
    requires w.lists[l].firingIndex < w.lists[l].firingLength
    requires AllOkBut(w.lists, w.g, w.next, l) && StacksOkBut(w.lists, l)
    requires forall k :: w.g[l].mark <= k < |w.g[l].calledArgs| ==> w.g[l].calledArgs[k] == arg
    ensures var n := AfterBuiltin(w, l, arg, cb);
            && |n.lists| == |n.g| == 3 && n == w.(lists := n.lists, g := n.g, state := n.state)
            && AllOkBut(n.lists, n.g, n.next, l) && HeadOk(n.lists[l], n.g[l], n.next) && StacksOkBut(n.lists, l)
            && (forall k :: n.g[l].mark <= k < |n.g[l].calledArgs| ==> n.g[l].calledArgs[k] == arg)
            && AllKeptBut(w.lists, w.g, n.lists, n.g, l)
  {
    hide ListOk, HeadOk, Disabled, Locked, Kept1, StackOk, CallTrack, Starters;
    var c, t := w.lists[l], w.g[l];
    CallOk(c, t, w.next, arg);
    ReturnOk(c, CallTrack(t, t.ids[c.firingIndex], arg), w.next);
    StartersAct(l, c.firingIndex);
    EffectOthers(CallWorld(w, l, arg), cb, l);
    CalledArgs(t, t.ids[c.firingIndex], arg);
  }

  lemma CalledArgs(t: Track, id: nat, arg: Arg)
    ensures var t' := CallTrack(t, id, arg);
            t'.calledArgs == t.calledArgs + [arg] && t'.mark == t.mark && t.calledIds <= t'.calledIds
                && t.calledArgs <= t'.calledArgs
            && t'.attached == t.attached && t'.asked == t.asked && t'.served == t.served
  {
  }

  lemma StartersAct(a: nat, k: nat)
    requires a < 2 && k < 3
    ensures var cb := Starters(a)[k];
            cb.SetState? || ((cb.Disabler? || cb.Locker?) && cb.l < 3 && cb.l != a)
  {
  }

  /** Silencing another list leaves the lists other than l in order, and l as it is. */
  lemma EffectOthers(d: World, cb: Cb, l: nat)
    requires |d.lists| == |d.g| && AllOkBut(d.lists, d.g, d.next, l) && StacksOkBut(d.lists, l) && l < |d.lists|
    requires (cb.Disabler? || cb.Locker?) ==> cb.l < |d.lists| && cb.l != l
    ensures var e := Effect(d, cb);
            && |e.lists| == |e.g| == |d.lists| && AllOkBut(e.lists, e.g, e.next, l) && StacksOkBut(e.lists, l)
            && e.lists[l] == d.lists[l] && e == d.(lists := e.lists, state := e.state)
            && forall k :: 0 <= k < |d.lists| && k != l ==> Kept1(d.lists[k], d.g[k], e.lists[k], e.g[k])
  {
    hide ListOk, StackOk, Disabled, Locked, AllFair;
    if cb.Disabler? || cb.Locker? {
      assert ListOk(d.lists[cb.l], d.g[cb.l], d.next);
      SilencingOk(d.lists[cb.l], d.g[cb.l], d.next);
    }
  }

  lemma BuiltinSettles(w: World, l: nat, arg: Arg, cb: Cb)
    requires BuiltinTurn(w, l, cb) && SettlingOk(w, l, arg) && w.deferred
    ensures var n := AfterBuiltin(w, l, arg, cb);
            SettlingOk(n, l, arg) && (w.state != Pending ==> n.state == w.state)
  {
    var c, t := w.lists[l], w.g[l];
    assert t.attached[|t.calledIds|] == t.ids[c.firingIndex];
    assert t.calledIds + [t.ids[c.firingIndex]] <= t.attached;
  }

  // ----- the end of a firing

  /** List l and its track when the firing is over: a list that may fire once is emptied, or disabled. */
  function EndedList(c: CbList): (r: CbList) {
    var e := c.(firing := false);
    if c.list.None? || !c.once then e else if c.memory == Halted then Disabled(e) else e.(list := Some([]))
  }

  function EndedTrack(c: CbList, t: Track): (r: Track) {
    if c.list.None? || !c.once || c.memory == Halted then t else t.(ids := [])
  }

  function Record(c: CbList, t: Track): (r: Firing)
    requires t.mark <= |t.calledIds| == |t.calledArgs|
  {
    Firing(t.late, t.skip, t.calledIds[t.mark..], t.calledArgs[t.mark..], t.Came(),
           if c.list.Some? then Some(t.ids) else None)
  }

  function Ended(w: World, l: nat, arg: Arg): (r: World)
    requires l < |w.lists| == |w.g| && w.g[l].mark <= |w.g[l].calledIds| == |w.g[l].calledArgs|
  {
    Set(w, l, EndedList(w.lists[l]),
        EndedTrack(w.lists[l], w.g[l])).(firings := w.firings + [(l, arg, Record(w.lists[l], w.g[l]))])
  }

  lemma EndedOk(c: CbList, t: Track, next: nat)
    requires HeadOk(c, t, next)
    ensures ListOk(EndedList(c), EndedTrack(c, t), next) && Grows(c, t, EndedList(c), EndedTrack(c, t))
    ensures c.firing && !EndedList(c).firing && t.mark <= |t.calledIds| == |t.calledArgs|
    ensures EndedList(c).memory.Kept? ==> EndedList(c).memory == c.memory
    ensures c.list.None? || c.once ==> StackOk(EndedList(c))
    ensures EndedList(c).list.Some? && EndedList(c).list.value != [] ==> EndedList(c).list == c.list
  {
    assert EndedTrack(c, t).Ran() == t.Ran();
  }

  lemma EndSound(w: World, l: nat, arg: Arg)
    requires Head(w, l, arg) && !(w.lists[l].list.Some? && w.lists[l].firingIndex < w.lists[l].firingLength)
    ensures w.g[l].mark <= |w.g[l].calledIds| == |w.g[l].calledArgs|
    ensures var e := Ended(w, l, arg);
            && SoundBut(e, l) && KeepsBut(w, e, l) && !e.lists[l].firing && (StackOk(e.lists[l]) ==> Sound(e))
            && (w.lists[l].list.None? || w.lists[l].once ==> Sound(e))
  {
    hide ListOk, DeferredOk, SettlingOk, Track.Ran, FiringOk, HeadOk;
    hide EndedList, EndedTrack, FairFiring, Grows, EntriesFit, AllServed, Named;
    var c, t := w.lists[l], w.g[l];
    EndedOk(c, t, w.next);
    EndServed(w, l, arg);
    EndNamed(w, l, arg);
    EndIsFair(c, t, w.next, arg);
    EndSettles(w, l, arg);
    var e := Ended(w, l, arg);
    forall k | 0 <= k < |e.lists| && k != l
      ensures Kept1(w.lists[k], w.g[k], e.lists[k], e.g[k])
    {
      GrowsNot(w.lists[k], w.g[k]);
    }
  }

  /** The firing that is over is recorded. */
  lemma EndServed(w: World, l: nat, arg: Arg)
    requires l < |w.lists| == |w.g| && AllServed(w) && LastServed(w, l, arg) && w.lists[l].firing
    requires w.g[l].mark <= |w.g[l].calledIds| == |w.g[l].calledArgs|
    ensures AllServed(Ended(w, l, arg))
  {
    hide AskedArgs;
    var e, c, t := Ended(w, l, arg), w.lists[l], w.g[l];
    assert e.firings == w.firings + [(l, arg, Record(c, t))];
    assert ServedOk(c, t, AskedArgs(w.firings, l));
    if !t.late {
      assert t.served[..|t.served| - 1] + [arg] == t.served;
    }
    forall k | 0 <= k < |e.lists|
      ensures ServedOk(e.lists[k], e.g[k], AskedArgs(e.firings, k))
    {
      assert ServedOk(w.lists[k], w.g[k], AskedArgs(w.firings, k));
      AskedAppend(w.firings, l, arg, Record(c, t), k);
    }
  }

  lemma AskedAppend(firings: seq<(nat, Arg, Firing)>, l: nat, arg: Arg, f: Firing, k: nat)
    ensures AskedArgs(firings + [(l, arg, f)], k) == AskedArgs(firings, k) + if l == k && !f.late then [arg] else []
  {
    assert (firings + [(l, arg, f)])[..|firings|] == firings;
  }

  lemma EndNamed(w: World, l: nat, arg: Arg)
    requires l < |w.lists| == |w.g| && Named(w) && w.g[l].mark <= |w.g[l].calledIds| == |w.g[l].calledArgs|
    ensures Named(Ended(w, l, arg))
  {
    hide Named;
    NamedSet(w, Ended(w, l, arg), l);
  }

  lemma EndIsFair(c: CbList, t: Track, next: nat, arg: Arg)
    requires HeadOk(c, t, next) && !(c.list.Some? && c.firingIndex < c.firingLength)
    requires forall k :: t.mark <= k < |t.calledArgs| ==> t.calledArgs[k] == arg
    ensures t.mark <= |t.calledIds| == |t.calledArgs| && FairFiring(Record(c, t), arg)
  {
    EndFair(c, t, next, arg);
  }

  lemma EndSettles(w: World, l: nat, arg: Arg)
    requires Head(w, l, arg) && !(w.lists[l].list.Some? && w.lists[l].firingIndex < w.lists[l].firingLength)
    requires w.g[l].mark <= |w.g[l].calledIds| == |w.g[l].calledArgs|
    ensures EntriesFit(Ended(w, l, arg))
  {
    hide AllFair, ListOk, DeferredOk, SettlingOk, Track.Ran, EndedList, EndedTrack;
    if w.deferred && l < 2 {
      EndDeferred(w, l, arg);
    } else {
      EndOther(w, l, arg);
    }
  }

  lemma EndDeferred(w: World, l: nat, arg: Arg)
    requires l < 2 && SettlingOk(w, l, arg)
    requires w.lists[l].list.Some? ==> |w.g[l].ids| == |w.lists[l].list.value| == w.lists[l].firingIndex
    ensures DeferredOk(Ended(w, l, arg))
  {
    var c, t := w.lists[l], w.g[l];
    assert |t.calledIds| >= 3;
    assert |t.attached| == |t.calledIds|;
    assert Settled(EndedList(c), EndedTrack(c, t));
  }

  lemma EndOther(w: World, l: nat, arg: Arg)
    requires EntriesFit(w) && l < |w.lists| == |w.g| && (w.deferred ==> l >= 2)
    requires w.g[l].mark <= |w.g[l].calledIds| == |w.g[l].calledArgs|
    ensures EntriesFit(Ended(w, l, arg))
  {
    assert w.deferred ==> l == 2;
  }

  /** The next firing waiting on the stack is taken from it. */
  function Popped(w: World, l: nat): (r: World)
    requires l < |w.lists| == |w.g| && w.lists[l].stack.Some? && w.lists[l].stack.value != []
  {
    var s := w.lists[l].stack.value;
    Set(w, l, w.lists[l].(memory := Kept(s[0]), stack := Some(s[1..])), w.g[l])
  }

  lemma PopFires(w: World, l: nat)
    requires SoundBut(w, l) && l < |w.lists| && !w.lists[l].firing && w.lists[l].stack.Some?
    requires w.lists[l].stack.value != []
    ensures FiresAgain(Popped(w, l), l, w.lists[l].stack.value[0]) && KeepsBut(w, Popped(w, l), l)
  {
    hide AllFair, DeferredOk, Track.Ran, Named, AskedArgs;
    var c, s := w.lists[l], w.lists[l].stack.value;
    assert [s[0]] + s[1..] == s;
    assert Waited(Popped(w, l), l, s[0], c.memory) == w by {
      assert w.lists[l := c] == w.lists && w.g[l := w.g[l]] == w.g;
    }
  }

  // ----- remove, disable, lock

  /** The first entry found at or after i spliced out. */
  function Removed(w: World, l: nat, i: nat): (r: World)
    requires l < |w.lists| == |w.g| && w.lists[l].list.Some? && i < |w.lists[l].list.value| == |w.g[l].ids|
  {
    Set(w, l, Splice(w.lists[l], i), SpliceTrack(w.g[l], i))
  }

  lemma RemovedSound(w: World, l: nat, i: nat)
    requires Sound(w) && !w.deferred && l < |w.lists| && w.lists[l].list.Some? && i < |w.lists[l].list.value|
    ensures |w.lists[l].list.value| == |w.g[l].ids| && Sound(Removed(w, l, i)) && Keeps(w, Removed(w, l, i))
  {
    hide AllFair, ListOk, Track.Ran, Named, AskedArgs;
    assert ListOk(w.lists[l], w.g[l], w.next);
    ListFacts(w.lists[l], w.g[l], w.next);
    SpliceOk(w.lists[l], w.g[l], i, w.next);
    RemovedNamed(w, l, i);
    assert UsersFrom(w.lists[l], 0);
  }

  lemma RemovedNamed(w: World, l: nat, i: nat)
    requires Named(w) && l < |w.lists| && w.lists[l].list.Some? && i < |w.lists[l].list.value| == |w.g[l].ids|
    ensures Named(Removed(w, l, i))
  {
    var b := Removed(w, l, i);
    forall k | 0 <= k < |b.lists|
      ensures NamedList(b.lists[k], b.g[k], b.cbs)
    {
      assert NamedList(w.lists[k], w.g[k], w.cbs);
    }
  }

  lemma SilencedSound(w: World, l: nat, c: CbList)
    requires Sound(w) && !w.deferred && l < |w.lists| && (c == Disabled(w.lists[l]) || c == Locked(w.lists[l]))
    ensures var e := w.(lists := w.lists[l := c]);
            Sound(e) && Keeps(w, e)
  {
    hide AllFair, ListOk, Track.Ran, Named, AskedArgs;
    NamedSet(w, w.(lists := w.lists[l := c]), l);
    assert ListOk(w.lists[l], w.g[l], w.next);
    SilencingOk(w.lists[l], w.g[l], w.next);
    assert UsersFrom(w.lists[l], 0);
    assert Set(w, l, c, w.g[l]) == w.(lists := w.lists[l := c]);
  }

  lemma KeepsFromBut(a: World, b: World, l: nat)
    requires KeepsBut(a, b, l) && l < |a.lists| && !a.lists[l].firing && !b.lists[l].firing
    ensures Keeps(a, b)
  {
  }

  /** Whether firing a list now leads to its callbacks being called, now or once the current firing is over. */
  predicate Accepts(c: CbList) {
    c.stack.Some? && if c.firing then !c.once else !(c.once && c.memory != Unset)
  }

  function StackSize(c: CbList): nat {
    if c.stack.Some? then |c.stack.value| else 0
  }

  // ----- facts the methods need with the definitions hidden

  lemma SoundCounts(w: World)
    requires Sound(w)
    ensures |w.lists| == |w.g|
  {
  }

  lemma SoundShape(w: World)
    requires Sound(w)
    ensures |w.lists| == |w.g|
    ensures forall l :: 0 <= l < |w.lists| ==> (w.lists[l].stack.Some? ==> w.lists[l].list.Some?)
    ensures forall l :: 0 <= l < |w.lists| && w.lists[l].list.Some? ==> |w.lists[l].list.value| == |w.g[l].ids|
  {
    forall l | 0 <= l < |w.lists|
      ensures w.lists[l].stack.Some? ==> w.lists[l].list.Some?
      ensures w.lists[l].list.Some? ==> |w.lists[l].list.value| == |w.g[l].ids|
    {
      ListFacts(w.lists[l], w.g[l], w.next);
    }
  }

  lemma AgainShape(w: World, l: nat, arg: Arg)
    requires FiresAgain(w, l, arg)
    ensures l < |w.lists| == |w.g| && !w.lists[l].firing && !w.lists[l].once && w.lists[l].stack.Some?
  {
  }

  lemma TurnShape(w: World, l: nat, arg: Arg)
    requires Turn(w, l, arg)
    ensures l < |w.lists| == |w.g| && w.lists[l].list.Some?
    ensures 0 <= w.lists[l].firingIndex < |w.lists[l].list.value| == |w.g[l].ids|
    ensures var cb, k := w.lists[l].list.value[w.lists[l].firingIndex], w.lists[l].firingIndex;
            !cb.User? ==> w.deferred && BuiltinTurn(w, l, cb) && cb != Disabler(l) && cb != Locker(l)
  {
    hide ListOk, HeadOk, StacksOkBut, AllFair, AllServed, Named, Waiting, Settled;
    HeadFacts(w, l, arg);
    if !w.lists[l].list.value[w.lists[l].firingIndex].User? {
      StartersAct(l, w.lists[l].firingIndex);
    }
  }

  lemma KeepsRefl(w: World)
    requires |w.lists| == |w.g|
    ensures Keeps(w, w) && forall l :: KeepsBut(w, w, l)
  {
  }

  lemma KeepsCounts(a: World, b: World)
    requires Keeps(a, b)
    ensures |a.lists| == |a.g| == |b.lists| == |b.g| && |b.scripts| <= |a.scripts|
  {
  }

  lemma AskedKept(a: World, b: World, l: nat)
    requires KeepsBut(a, b, l) && l < |a.lists|
    ensures l < |a.g| == |b.g| && a.g[l].asked <= b.g[l].asked
  {
    assert Grows(a.lists[l], a.g[l], b.lists[l], b.g[l]);
  }

  lemma BeginKeeps(w: World, l: nat, start: nat, arg: Arg, late: bool)
    requires l < |w.lists| == |w.g| && w.lists[l].list.Some? && start <= |w.g[l].ids|
    ensures KeepsBut(w, BeginWorld(w, l, start, arg, late), l)
  {
  }

  lemma EndKeeps(w: World, l: nat, arg: Arg)
    requires l < |w.lists| == |w.g| && w.g[l].mark <= |w.g[l].calledIds| == |w.g[l].calledArgs|
    ensures var e := Ended(w, l, arg);
            |e.lists| == |w.lists| && e.firings == w.firings + [(l, arg, Record(w.lists[l], w.g[l]))]
                && e.scripts == w.scripts
  {
  }

  lemma TakeScript(w: World)
    requires Sound(w) && w.scripts != []
    ensures var w' := w.(scripts := w.scripts[1..]);
            Sound(w') && Keeps(w, w') && ScriptOk(w.scripts[0], |w.lists|, w.deferred)
  {
    hide ListOk, AllFair, Waiting, Settled;
  }

  lemma AddedIs(w: World, l: nat, fns: seq<nat>)
    requires l < |w.lists| == |w.g| && w.lists[l].list.Some?
    ensures var p := Pushed(w, l, fns);
            Added(w, l, fns) ==
              if w.lists[l].firing then p.(lists := p.lists[l := p.lists[l].(firingLength := |p.lists[l].list.value|)])
              else p
  {
  }

  lemma HeadCounts(w: World, l: nat, arg: Arg)
    requires Head(w, l, arg)
    ensures l < |w.lists| == |w.g| && w.g[l].mark <= |w.g[l].calledIds| == |w.g[l].calledArgs|
  {
  }

  lemma TurnHere(w: World, l: nat, arg: Arg)
    requires Head(w, l, arg) && l < |w.lists| && w.lists[l].list.Some?
    requires w.lists[l].firingIndex < w.lists[l].firingLength
    ensures Turn(w, l, arg)
  {
  }

  lemma KeepsFirings(a: World, b: World, l: nat)
    requires KeepsBut(a, b, l)
    ensures a.firings <= b.firings
  {
  }

  lemma CallWorldIs(w: World, l: nat, arg: Arg)
    requires l < |w.lists| == |w.g| && 0 <= w.lists[l].firingIndex < |w.g[l].ids|
    ensures CallWorld(w, l, arg) == w.(g := w.g[l := CallTrack(w.g[l], w.g[l].ids[w.lists[l].firingIndex], arg)])
  {
    assert w.lists[l := w.lists[l]] == w.lists;
  }

  lemma NextIs(w: World, l: nat)
    requires l < |w.lists| == |w.g|
    ensures Next(w, l) == w.(lists := w.lists[l := w.lists[l].(firingIndex := w.lists[l].firingIndex + 1)])
  {
  }

  lemma PushedNone(w: World, l: nat)
    requires |w.lists| == |w.g| && l < |w.lists| && w.lists[l].list.Some?
    ensures Pushed(w, l, []) == w && forall fns: seq<nat> :: fns[..0] == []
  {
    TrackStays(w.g[l], w.next);
    assert w.cbs + [] == w.cbs;
  }

  /** Pushing changes no more than the entries of list l. */
  lemma PushedLeaves(w: World, l: nat, fns: seq<nat>)
    requires |w.lists| == |w.g| && l < |w.lists| && w.lists[l].list.Some?
    ensures var p := Pushed(w, l, fns);
            && |p.lists| == |p.g| == |w.lists| && p.scripts == w.scripts && p.lists[l].list.Some?
            && p.lists[l] == w.lists[l].(list := p.lists[l].list)
  {
  }

  lemma PushedOne(w: World, l: nat, fns: seq<nat>, i: nat)
    requires |w.lists| == |w.g| && l < |w.lists| && w.lists[l].list.Some? && i < |fns|
    ensures var p, cb := Pushed(w, l, fns[..i]), User(fns[i]);
            Pushed(w, l, fns[..i + 1]) ==
            if p.lists[l].unique && cb in p.lists[l].list.value then p
            else Set(p, l, Push(p.lists[l], cb), PushTrack(p.g[l], p.next)).(next := p.next + 1, cbs := p.cbs + [cb])
  {
    var c := PushAll(w.lists[l], fns[..i]);
    var n := |c.list.value| - |w.lists[l].list.value|;
    assert fns[..i + 1][..i] == fns[..i];
    TrackGrows(w.g[l], w.next, n);
    var v, m := c.list.value, |w.lists[l].list.value|;
    assert (v + [User(fns[i])])[m..] == v[m..] + [User(fns[i])];
    assert w.cbs + v[m..] + [User(fns[i])] == w.cbs + (v + [User(fns[i])])[m..];
  }

  // ----- the functions that a script adds

  function Users(fns: seq<nat>): (r: seq<Cb>)
    ensures |r| == |fns|
  {
    seq(|fns|, i requires 0 <= i < |fns| => User(fns[i]))
  }

  /** The functions that a script gives to add of list l, in order. */
  function AddedTo(script: seq<Action>, l: nat): seq<Cb> {
    if script == [] then []
    else
      var last := script[|script| - 1];
      AddedTo(script[..|script| - 1], l) + if last.DoAdd? && last.l == l then Users(last.fns) else []
  }

  /** What entries stand for. */
  function Functions(cbs: seq<Cb>, ids: seq<nat>): (r: seq<Cb>)
    requires Below(ids, |cbs|)
    ensures |r| == |ids|
  {
    seq(|ids|, i requires 0 <= i < |ids| => cbs[ids[i]])
  }

  /** The functions that add puts on a list. */
  function Fresh(c: CbList, fns: seq<nat>): seq<Cb>
    requires c.list.Some?
  {
    PushAll(c, fns).list.value[|c.list.value|..]
  }

  /** These are all that add is given, or, on a list with the flag unique, those that were not there yet. */
  lemma {:induction false} FreshOnes(c: CbList, fns: seq<nat>)
    requires c.list.Some?
    ensures PushAll(c, fns).list.value == c.list.value + Fresh(c, fns)
    ensures !c.unique ==> Fresh(c, fns) == Users(fns)
    ensures c.unique ==> forall i :: 0 <= i < |fns| ==> User(fns[i]) in c.list.value + Fresh(c, fns)
  {
    PushAllUsers(c, fns);
    if fns != [] {
      var n := |fns| - 1;
      FreshOnes(c, fns[..n]);
      var v, m := PushAll(c, fns[..n]).list.value, |c.list.value|;
      assert (v + [User(fns[n])])[m..] == v[m..] + [User(fns[n])];
      assert Users(fns) == Users(fns[..n]) + [User(fns[n])];
    }
  }

  /** They come in the order given, and on a list with the flag unique none of them was there. */
  lemma {:induction false} FreshInOrder(c: CbList, fns: seq<nat>)
    requires c.list.Some?
    ensures Subsequence(Fresh(c, fns), Users(fns))
    ensures c.unique ==> forall i :: 0 <= i < |Fresh(c, fns)| ==> Fresh(c, fns)[i] !in c.list.value
  {
    hide Subsequence;
    if fns == [] {
      SubsequenceNone(Users(fns));
    } else {
      var n := |fns| - 1;
      FreshInOrder(c, fns[..n]);
      var v, m := PushAll(c, fns[..n]).list.value, |c.list.value|;
      assert (v + [User(fns[n])])[m..] == v[m..] + [User(fns[n])];
      assert Users(fns) == Users(fns[..n]) + [User(fns[n])];
      SubsequenceMore(Fresh(c, fns[..n]), Users(fns[..n]), User(fns[n]));
      FreshOnes(c, fns[..n]);
    }
  }

  /** New entries, numbered in turn, come to list l for these functions. */
  predicate Appends(a: World, b: World, l: nat, fns: seq<Cb>) {
    && l < |a.g| && l < |b.g| && a.cbs + fns <= b.cbs
    && a.g[l].attached + Numbers(a.next, |fns|) <= b.g[l].attached
  }

  /** The entries that have come to list l include one for each of these functions, in order. */
  ghost predicate Attaches(a: World, b: World, l: nat, fns: seq<Cb>) {
    && l < |a.g| && l < |b.g| && a.g[l].attached <= b.g[l].attached && Below(b.g[l].attached, |b.cbs|)
    && Subsequence(fns, Functions(b.cbs, b.g[l].attached)[|a.g[l].attached|..])
  }

  lemma SoundAttached(w: World, l: nat)
    requires Sound(w) && l < |w.lists|
    ensures |w.lists| == |w.g| && Below(w.g[l].attached, |w.cbs|) && |w.cbs| == w.next
  {
    assert ListOk(w.lists[l], w.g[l], w.next);
  }

  lemma AddedAppends(w: World, l: nat, fns: seq<nat>, b: World)
    requires Sound(w) && l < |w.lists| == |w.g| && w.lists[l].list.Some? && KeepsBut(Added(w, l, fns), b, l)
    ensures Appends(w, b, l, Fresh(w.lists[l], fns))
  {
    hide Sound, PushAll;
    var a := Added(w, l, fns);
    assert Grows(a.lists[l], a.g[l], b.lists[l], b.g[l]);
  }

  lemma AddedIds(w: World, l: nat, fns: seq<nat>)
    requires Sound(w) && l < |w.lists| == |w.g| && w.lists[l].list.Some?
    ensures Added(w, l, fns).g[l].ids == w.g[l].ids + Numbers(w.next, |Fresh(w.lists[l], fns)|)
    ensures Added(w, l, fns).scripts == w.scripts && Added(w, l, fns).firings == w.firings
    ensures |w.g[l].ids| == |w.lists[l].list.value|
  {
    hide PushAll;
    ListFacts(w.lists[l], w.g[l], w.next);
  }

  lemma AttachesNone(a: World, b: World, l: nat)
    requires Keeps(a, b) && Sound(b) && l < |b.lists|
    ensures Attaches(a, b, l, [])
  {
    hide Sound;
    SoundAttached(b, l);
    assert Kept1(a.lists[l], a.g[l], b.lists[l], b.g[l]);
  }

  lemma AppendsAttaches(a: World, b: World, l: nat, fns: seq<Cb>)
    requires Appends(a, b, l, fns) && Sound(b) && l < |b.lists| && |a.cbs| == a.next
    ensures Attaches(a, b, l, fns)
  {
    hide Sound, Subsequence;
    SoundAttached(b, l);
    var m, f := |a.g[l].attached|, Functions(b.cbs, b.g[l].attached);
    forall i | 0 <= i < |fns|
      ensures f[m..][i] == fns[i]
    {
      assert b.g[l].attached[m + i] == (a.g[l].attached + Numbers(a.next, |fns|))[m + i] == a.next + i;
      assert b.cbs[a.next + i] == (a.cbs + fns)[a.next + i];
    }
    assert f[m..] == fns + f[m..][|fns|..];
    SubsequencePrefix(fns, f[m..][|fns|..]);
  }

  lemma AttachesThen(a: World, b: World, c: World, l: nat, fns: seq<Cb>, more: seq<Cb>)
    requires Attaches(a, b, l, fns) && Attaches(b, c, l, more) && b.cbs <= c.cbs
    ensures Attaches(a, c, l, fns + more)
  {
    hide Subsequence;
    var f, h := Functions(b.cbs, b.g[l].attached), Functions(c.cbs, c.g[l].attached);
    var m, n := |a.g[l].attached|, |b.g[l].attached|;
    forall i | 0 <= i < n
      ensures h[i] == f[i]
    {
      assert c.g[l].attached[i] == b.g[l].attached[i];
    }
    assert h[m..] == f[m..] + h[n..];
    SubsequenceConcat(fns, f[m..], more, h[n..]);
  }

  /** One more action of a script performed. */
  lemma ActionAttaches(a: World, b: World, c: World, script: seq<Action>, i: nat, l: nat)
    requires i < |script| && Sound(b) && Sound(c) && Keeps(b, c) && l < |c.lists|
    requires c.lists[l].list.Some? && !c.lists[l].unique
    requires b.lists[l].list.Some? && !b.lists[l].unique ==> Attaches(a, b, l, AddedTo(script[..i], l))
    requires script[i].DoAdd? && script[i].l == l && b.lists[l].list.Some? ==>
      Appends(b, c, l, Fresh(b.lists[l], script[i].fns))
    ensures Attaches(a, c, l, AddedTo(script[..i + 1], l))
  {
    hide Sound, Attaches, Appends, Fresh, Users;
    assert script[..i + 1][..i] == script[..i];
    assert Kept1(b.lists[l], b.g[l], c.lists[l], c.g[l]);
    if script[i].DoAdd? && script[i].l == l {
      SoundAttached(b, l);
      FreshOnes(b.lists[l], script[i].fns);
      AppendsAttaches(b, c, l, Users(script[i].fns));
      AttachesThen(a, b, c, l, AddedTo(script[..i], l), Users(script[i].fns));
    } else {
      AttachesNone(b, c, l);
      AttachesThen(a, b, c, l, AddedTo(script[..i], l), []);
      assert AddedTo(script[..i], l) + [] == AddedTo(script[..i], l);
    }
  }

  lemma ActionsAttach(a: World, b: World, c: World, script: seq<Action>, i: nat)
    requires i < |script| && Sound(b) && Sound(c) && Keeps(b, c) && |b.lists| == |c.lists|
    requires forall l :: 0 <= l < |b.lists| && b.lists[l].list.Some? && !b.lists[l].unique ==>
      Attaches(a, b, l, AddedTo(script[..i], l))
    requires script[i].DoAdd? && script[i].l < |b.lists| && b.lists[script[i].l].list.Some? ==>
      Appends(b, c, script[i].l, Fresh(b.lists[script[i].l], script[i].fns))
    ensures forall l :: 0 <= l < |c.lists| && c.lists[l].list.Some? && !c.lists[l].unique ==>
      Attaches(a, c, l, AddedTo(script[..i + 1], l))
  {
    hide Sound, Attaches, Appends, Fresh, AddedTo, Keeps;
    forall l | 0 <= l < |c.lists| && c.lists[l].list.Some? && !c.lists[l].unique
      ensures Attaches(a, c, l, AddedTo(script[..i + 1], l))
    {
      ActionAttaches(a, b, c, script, i, l);
    }
  }

  lemma AttachesNothing(w: World)
    requires Sound(w)
    ensures forall l :: 0 <= l < |w.lists| ==> Attaches(w, w, l, AddedTo([], l))
  {
    hide Sound, Attaches, Keeps;
    SoundCounts(w);
    KeepsRefl(w);
    forall l | 0 <= l < |w.lists|
      ensures Attaches(w, w, l, AddedTo([], l))
    {
      AttachesNone(w, w, l);
    }
  }

  // ----- lists that nobody disables or locks

  predicate Leaves(script: seq<Action>, l: nat) {
    forall k :: 0 <= k < |script| && (script[k].DoDisable? || script[k].DoLock?) ==> script[k].l != l
  }

  predicate AllLeave(scripts: seq<seq<Action>>, l: nat) {
    forall j :: 0 <= j < |scripts| ==> Leaves(scripts[j], l)
  }

  /** List l may fire again and again, and no script to come disables or locks it. */
  predicate StaysOpen(w: World, l: nat) {
    !w.deferred && l < |w.lists| && !w.lists[l].once && w.lists[l].stack.Some? && AllLeave(w.scripts, l)
  }

  ghost predicate Opens(a: World, b: World) {
    forall l :: 0 <= l < |a.lists| && StaysOpen(a, l) ==> StaysOpen(b, l)
  }

  lemma OpensTrans(a: World, b: World, c: World)
    requires Opens(a, b) && Opens(b, c) && |a.lists| <= |b.lists|
    ensures Opens(a, c)
  {
    hide StaysOpen;
  }

  /** A list that is changed but not locked. */
  lemma OpensSet(a: World, b: World, l: nat)
    requires l < |a.lists| == |b.lists| && b.deferred == a.deferred && b.scripts == a.scripts
    requires forall k :: 0 <= k < |a.lists| && k != l ==> b.lists[k] == a.lists[k]
    requires !a.lists[l].once && a.lists[l].stack.Some? ==> !b.lists[l].once && b.lists[l].stack.Some?
    ensures Opens(a, b)
  {
  }

  lemma AddedOpens(w: World, l: nat, fns: seq<nat>)
    requires l < |w.lists| == |w.g| && w.lists[l].list.Some?
    ensures Opens(w, Added(w, l, fns)) && |Added(w, l, fns).lists| == |w.lists|
  {
    hide PushAll, Opens;
    OpensSet(w, Added(w, l, fns), l);
  }

  lemma BeginOpens(w: World, l: nat, start: nat, arg: Arg, late: bool)
    requires l < |w.lists| == |w.g| && w.lists[l].list.Some? && start <= |w.g[l].ids|
    ensures Opens(w, BeginWorld(w, l, start, arg, late))
  {
    hide Opens;
    OpensSet(w, BeginWorld(w, l, start, arg, late), l);
  }

  lemma EndedOpens(w: World, l: nat, arg: Arg)
    requires l < |w.lists| == |w.g| && w.g[l].mark <= |w.g[l].calledIds| == |w.g[l].calledArgs|
    ensures Opens(w, Ended(w, l, arg))
  {
    hide Opens;
    OpensSet(w, Ended(w, l, arg), l);
  }

  lemma RemovedOpens(w: World, l: nat, i: nat)
    requires l < |w.lists| == |w.g| && w.lists[l].list.Some? && i < |w.lists[l].list.value| == |w.g[l].ids|
    ensures Opens(w, Removed(w, l, i))
  {
    hide Opens;
    OpensSet(w, Removed(w, l, i), l);
  }

  lemma NextOpens(w: World, l: nat)
    requires l < |w.lists| == |w.g|
    ensures Opens(w, Next(w, l))
  {
    hide Opens;
    OpensSet(w, Next(w, l), l);
  }

  /** The arguments of the firings of list l that a script asks for, in order. */
  function AsksOf(script: seq<Action>, l: nat): seq<Arg> {
    if script == [] then []
    else
      var last := script[|script| - 1];
      AsksOf(script[..|script| - 1], l) + if last.DoFire? && last.l == l then [last.arg] else []
  }

  /** The firings asked for of list l since a include these, in order. */
  predicate Asks(a: World, b: World, l: nat, args: seq<Arg>) {
    && l < |a.g| && l < |b.g| && a.g[l].asked <= b.g[l].asked
    && Subsequence(args, b.g[l].asked[|a.g[l].asked|..])
  }

  lemma AsksThen(a: World, b: World, c: World, l: nat, args: seq<Arg>, more: seq<Arg>)
    requires Asks(a, b, l, args) && Asks(b, c, l, more)
    ensures Asks(a, c, l, args + more)
  {
    hide Subsequence;
    var m, n := |a.g[l].asked|, |b.g[l].asked|;
    assert c.g[l].asked[m..] == b.g[l].asked[m..] + c.g[l].asked[n..];
    SubsequenceConcat(args, b.g[l].asked[m..], more, c.g[l].asked[n..]);
  }

  lemma AsksOne(a: World, b: World, l: nat, arg: Arg)
    requires l < |a.g| && l < |b.g| && a.g[l].asked + [arg] <= b.g[l].asked
    ensures Asks(a, b, l, [arg])
  {
    hide Subsequence;
    var rest := b.g[l].asked[|a.g[l].asked|..];
    assert rest == [arg] + rest[1..];
    SubsequencePrefix([arg], rest[1..]);
  }

  /** One more action of a script performed; a is the state before the script, which is the first of its scripts. */
  lemma ActionAsks(a: World, b: World, c: World, script: seq<Action>, i: nat, l: nat)
    requires i < |script| && a.scripts != [] && a.scripts[0] == script && StaysOpen(a, l) && l < |b.lists|
    requires StaysOpen(b, l) && Asks(a, b, l, AsksOf(script[..i], l)) && Keeps(b, c)
    requires match script[i]
             case DoDisable(k) => k < |b.lists| && c == b.(lists := b.lists[k := Disabled(b.lists[k])])
             case DoLock(k) => k < |b.lists| && c == b.(lists := b.lists[k := Locked(b.lists[k])])
             case DoFire(k, arg) =>
               Opens(b, c) && k < |b.g| == |c.g| && (l == k ==> b.g[k].asked + [arg] <= c.g[k].asked)
             case _ => Opens(b, c)
    ensures StaysOpen(c, l) && Asks(a, c, l, AsksOf(script[..i + 1], l))
  {
    hide Asks, Disabled, Locked, Keeps;
    assert script[..i + 1][..i] == script[..i];
    assert Leaves(script, l);
    if script[i].DoFire? && script[i].l == l {
      AsksOne(b, c, l, script[i].arg);
      AsksThen(a, b, c, l, AsksOf(script[..i], l), [script[i].arg]);
    } else {
      AsksNone(b, c, l);
      AsksThen(a, b, c, l, AsksOf(script[..i], l), []);
      assert AsksOf(script[..i], l) + [] == AsksOf(script[..i], l);
    }
  }

  lemma AsksNone(a: World, b: World, l: nat)
    requires Keeps(a, b) && l < |a.lists|
    ensures Asks(a, b, l, [])
  {
    assert Kept1(a.lists[l], a.g[l], b.lists[l], b.g[l]);
  }

  /** A list that may fire again and again always accepts. */
  lemma OpenAccepts(w: World, l: nat)
    requires StaysOpen(w, l)
    ensures Accepts(w.lists[l])
  {
  }

  lemma ActionsAsk(a: World, b: World, c: World, script: seq<Action>, i: nat)
    requires i < |script| && a.scripts != [] && a.scripts[0] == script && |a.lists| == |b.lists| && Keeps(b, c)
    requires forall l :: 0 <= l < |a.lists| && StaysOpen(a, l) ==>
      StaysOpen(b, l) && Asks(a, b, l, AsksOf(script[..i], l))
    requires match script[i]
             case DoDisable(k) => k < |b.lists| && c == b.(lists := b.lists[k := Disabled(b.lists[k])])
             case DoLock(k) => k < |b.lists| && c == b.(lists := b.lists[k := Locked(b.lists[k])])
             case DoFire(k, arg) =>
               Opens(b, c) && k < |b.lists| && k < |b.g| == |c.g|
                 && (Accepts(b.lists[k]) ==> b.g[k].asked + [arg] <= c.g[k].asked)
             case _ => Opens(b, c)
    ensures forall l :: 0 <= l < |a.lists| && StaysOpen(a, l) ==>
      StaysOpen(c, l) && Asks(a, c, l, AsksOf(script[..i + 1], l))
  {
    hide StaysOpen, Asks, AsksOf, Opens, Keeps, Accepts;
    forall l | 0 <= l < |a.lists| && StaysOpen(a, l)
      ensures StaysOpen(c, l) && Asks(a, c, l, AsksOf(script[..i + 1], l))
    {
      OpenAccepts(b, l);
      ActionAsks(a, b, c, script, i, l);
    }
  }

  lemma AsksFrom(a: World, b: World, c: World, script: seq<Action>)
    requires a.g == b.g && |a.lists| == |c.lists|
    requires forall l :: 0 <= l < |c.lists| && StaysOpen(a, l) ==> Asks(a, c, l, AsksOf(script, l))
    ensures forall l :: 0 <= l < |c.lists| && StaysOpen(a, l) ==> Asks(b, c, l, AsksOf(script, l))
  {
    hide StaysOpen, AsksOf, Subsequence;
  }

  lemma DeferredOpens(a: World, b: World)
    requires a.deferred
    ensures Opens(a, b)
  {
  }

  lemma AsksNothing(a: World, b: World)
    requires |a.lists| == |a.g| && b == a.(scripts := b.scripts) && |a.scripts| > 0 && b.scripts == a.scripts[1..]
    ensures forall l :: 0 <= l < |a.lists| && StaysOpen(a, l) ==> StaysOpen(b, l) && Asks(a, b, l, AsksOf([], l))
  {
  }

  // ----- what remove leaves

  function Without(s: seq<Cb>, cb: Cb): (r: seq<Cb>)
    ensures cb !in r
  {
    if s == [] then [] else Without(s[..|s| - 1], cb) + if s[|s| - 1] == cb then [] else [s[|s| - 1]]
  }

  lemma {:induction false} WithoutAppend(s: seq<Cb>, t: seq<Cb>, cb: Cb)
    ensures Without(s + t, cb) == Without(s, cb) + Without(t, cb)
    decreases |t|
  {
    if t == [] {
      assert s + t == s;
    } else {
      var n := |t| - 1;
      assert (s + t)[..|s + t| - 1] == s + t[..n];
      WithoutAppend(s, t[..n], cb);
    }
  }

  /** All others are left, as often as before and in the same order. */
  lemma {:induction false} WithoutLeaves(s: seq<Cb>, cb: Cb)
    ensures Subsequence(Without(s, cb), s)
    ensures forall x :: x != cb ==> multiset(Without(s, cb))[x] == multiset(s)[x]
    decreases |s|
  {
    hide Subsequence;
    if s == [] {
      SubsequenceNone(s);
    } else {
      var n := |s| - 1;
      WithoutLeaves(s[..n], cb);
      assert s == s[..n] + [s[n]];
      SubsequenceMore(Without(s[..n], cb), s[..n], s[n]);
      if s[n] == cb {
        assert Without(s, cb) == Without(s[..n], cb);
      }
    }
  }

  lemma WithoutSplice(s: seq<Cb>, i: nat)
    requires i < |s|
    ensures Without(s[..i] + s[i + 1..], s[i]) == Without(s, s[i])
  {
    hide Without;
    assert s == s[..i] + ([s[i]] + s[i + 1..]);
    WithoutMiddle(s[..i], s[i], s[i + 1..]);
  }

  lemma WithoutOne(x: Cb)
    ensures Without([x], x) == []
  {
  }

  lemma WithoutMiddle(a: seq<Cb>, x: Cb, b: seq<Cb>)
    ensures Without(a + b, x) == Without(a + ([x] + b), x)
  {
    hide Without;
    WithoutAppend(a, b, x);
    WithoutAppend(a, [x] + b, x);
    WithoutAppend([x], b, x);
    WithoutOne(x);
    assert [] + Without(b, x) == Without(b, x);
  }

  lemma {:induction false} WithoutAbsent(s: seq<Cb>, cb: Cb)
    ensures cb !in s ==> Without(s, cb) == s
    decreases |s|
  {
    if s != [] {
      WithoutAbsent(s[..|s| - 1], cb);
      assert s[|s| - 1] in s;
    }
  }

  /** On a unique list there is no second entry to look for. */
  lemma UniqueGone(w: World, l: nat, i: nat)
    requires Sound(w) && l < |w.lists| && w.lists[l].list.Some? && w.lists[l].unique && i < |w.lists[l].list.value|
    ensures var s := w.lists[l].list.value;
            s[i] !in s[..i] + s[i + 1..]
  {
    assert ListOk(w.lists[l], w.g[l], w.next);
  }
}
