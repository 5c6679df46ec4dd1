/** The state of one callback list of html/njs/jquery-1.7.2.js, and what each of its operations keeps.

  Every registration of a callback gets a number of its own, so that the same function registered twice is two
  entries. The track of a list records these numbers and the calls that have been made; it is specification only.
 */
module CallbackLists {
  import opened Seqs
  import opened Wrappers

  datatype Value = Undefined | Atom(n: nat) | Many(vs: seq<Value>)

  /** The arguments that callbacks are called with. */
  type Arg = seq<Value>

  datatype State = Pending | Resolved | Rejected

  /** A function given to add: one of the caller's, or one of the three kinds that a deferred registers itself. */
  datatype Cb = User(fn: nat) | SetState(s: State) | Disabler(l: nat) | Locker(l: nat)

  /** The value of the variable memory: undefined, true, or the arguments of the last firing. */
  datatype Memory = Unset | Halted | Kept(arg: Arg)

  datatype CbList = CbList(
    once: bool,
    keeps: bool,             // the flag named memory
    unique: bool,
    list: Option<seq<Cb>>,
    stack: Option<seq<Arg>>,
    memory: Memory,
    firing: bool,
    firingLength: int,
    firingIndex: int)

  datatype Track = Track(
    ids: seq<nat>,           // the numbers of the entries of list
    late: bool,              // whether the firing begun last was due to a late addition, not asked for
    skip: seq<nat>,          // the entries it skips: those already on the list before the late addition
    calledIds: seq<nat>,     // every call made so far: which entry ...
    calledArgs: seq<Arg>,    // ... and with which arguments
    mark: nat,               // how many calls were made before the current firing
    from: nat,               // how many entries had been added before it
    attached: seq<nat>,      // every entry ever added
    asked: seq<Arg>,         // arguments of the firings that were accepted
    served: seq<Arg>)        // ... and of those that were begun
  {
    /** The entries that count as dealt with in the current firing, in order. */
    function Ran(): (r: seq<nat>) {
      if mark <= |calledIds| then skip + calledIds[mark..] else skip
    }

    /** The entries added since the current firing began. */
    function Came(): (r: seq<nat>) {
      if from <= |attached| then attached[from..] else []
    }
  }

  /** The track of a list that has entries but has never fired. */
  function NewTrack(ids: seq<nat>): Track {
    Track(ids, false, [], [], [], 0, 0, ids, [], [])
  }

  predicate Below(s: seq<nat>, n: nat) {
    forall i :: 0 <= i < |s| ==> s[i] < n
  }

  /** Numbers are given out in increasing order, so this is the order in which entries were added. */
  predicate Increasing(s: seq<nat>) {
    forall i, j :: 0 <= i < j < |s| ==> s[i] < s[j]
  }

  predicate Within(s: seq<nat>, r: seq<nat>) {
    forall i :: 0 <= i < |s| ==> s[i] in r
  }

  /** Everything in r was added before the entries of s from k on. */
  predicate Behind(r: seq<nat>, s: seq<nat>, k: int) {
    forall i, j :: 0 <= i < |r| && 0 <= j < |s| && k <= j ==> r[i] < s[j]
  }

  /** The members of r that are in s, in the order of r. */
  function Survivors(r: seq<nat>, s: seq<nat>): (q: seq<nat>)
    ensures forall x :: x in q <==> x in r && x in s
  {
    if r == [] then []
    else Survivors(r[..|r| - 1], s) + if r[|r| - 1] in s then [r[|r| - 1]] else []
  }

  /** The state of a list while callbacks are running, on this list or on others. */
  ghost predicate ListOk(c: CbList, t: Track, next: nat) {
    && t.mark <= |t.calledIds| == |t.calledArgs| && Increasing(t.Ran()) && Below(t.Ran(), next)
    && Increasing(t.attached) && Below(t.attached, next) && Within(t.calledIds, t.attached)
    && (c.list.None? ==> c.stack.None?)
    && (c.list.Some? ==> EntriesOk(c, t, next))
    && (c.list.Some? && c.firing ==> FiringOk(c, t)) && (c.firing ==> SkipOk(t))
    && (c.stack.Some? ==> t.asked == t.served + c.stack.value && (c.once ==> c.stack.value == []))
  }

  /** A firing that was asked for skips nothing. */
  predicate SkipOk(t: Track) {
    !t.late ==> t.skip == []
  }

  /** No firing is left waiting on a list that is not firing. */
  predicate StackOk(c: CbList) {
    c.stack.Some? && !c.firing ==> c.stack.value == []
  }

  ghost predicate EntriesOk(c: CbList, t: Track, next: nat)
    requires c.list.Some?
  {
    && |t.ids| == |c.list.value| && Increasing(t.ids) && Below(t.ids, next) && Within(t.ids, t.attached)
    && (c.unique ==> Distinct(c.list.value))
  }

  /** The entries dealt with that are still on the list are those up to the current one, in order. */
  ghost predicate FiringOk(c: CbList, t: Track)
    requires c.list.Some?
  {
    && c.firingLength == |c.list.value| && -1 <= c.firingIndex < |t.ids|
    && Survivors(t.Ran(), t.ids) == t.ids[..c.firingIndex + 1] && Behind(t.Ran(), t.ids, c.firingIndex + 1)
  }

  ghost predicate NextOk(c: CbList, t: Track)
    requires c.list.Some?
  {
    && c.firingLength == |c.list.value| && 0 <= c.firingIndex <= |t.ids|
    && Survivors(t.Ran(), t.ids) == t.ids[..c.firingIndex] && Behind(t.Ran(), t.ids, c.firingIndex)
  }

  /** The same at the head of the firing loop, where firingIndex is the entry to run next. */
  ghost predicate HeadOk(c: CbList, t: Track, next: nat) {
    && t.mark <= |t.calledIds| == |t.calledArgs| && Increasing(t.Ran()) && Below(t.Ran(), next)
    && Increasing(t.attached) && Below(t.attached, next) && Within(t.calledIds, t.attached)
    && c.firing && SkipOk(t) && (c.list.None? ==> c.stack.None?)
    && (c.list.Some? ==> EntriesOk(c, t, next) && NextOk(c, t))
    && (c.stack.Some? ==> t.asked == t.served + c.stack.value && (c.once ==> c.stack.value == []))
  }

  lemma NewListOk(c: CbList, ids: seq<nat>, next: nat)
    requires c.list.Some? && |c.list.value| == |ids| && c.stack == Some([]) && !c.firing
    requires Increasing(ids) && Below(ids, next) && (c.unique ==> Distinct(c.list.value))
    ensures ListOk(c, NewTrack(ids), next)
  {
  }

  // ----- survivors

  lemma {:induction false} SurvivorsPush(r: seq<nat>, s: seq<nat>, x: nat)
    requires x !in r
    ensures Survivors(r, s + [x]) == Survivors(r, s)
  {
    if r != [] {
      SurvivorsPush(r[..|r| - 1], s, x);
    }
  }

  /** Taking a member of s away takes it from the survivors. */
  lemma {:induction false} SurvivorsDrop(r: seq<nat>, s: seq<nat>, i: nat)
    requires i < |s| && Distinct(s)
    ensures Survivors(r, s[..i] + s[i + 1..]) == Except(Survivors(r, s), s[i])
  {
    var s' := s[..i] + s[i + 1..];
    forall x
      ensures x in s' <==> x in s && x != s[i]
    {
      if x in s && x != s[i] {
        var k :| 0 <= k < |s| && s[k] == x;
        assert s'[if k < i then k else k - 1] == x;
      }
    }
    if r != [] {
      var q := Survivors(r[..|r| - 1], s);
      SurvivorsDrop(r[..|r| - 1], s, i);
      if r[|r| - 1] in s {
        ExceptAppend(q, r[|r| - 1], s[i]);
      } else {
        assert q + [] == q;
      }
    }
  }

  function Except(s: seq<nat>, x: nat): seq<nat> {
    if s == [] then [] else Except(s[..|s| - 1], x) + if s[|s| - 1] == x then [] else [s[|s| - 1]]
  }

  lemma ExceptAppend(s: seq<nat>, y: nat, x: nat)
    ensures Except(s + [y], x) == Except(s, x) + if y == x then [] else [y]
  {
    assert (s + [y])[..|s|] == s;
  }

  lemma {:induction false} ExceptAbsent(s: seq<nat>, x: nat)
    requires x !in s
    ensures Except(s, x) == s
  {
    if s != [] {
      ExceptAbsent(s[..|s| - 1], x);
      assert s[|s| - 1] in s;
    }
  }

  lemma {:induction false} ExceptAt(s: seq<nat>, i: nat)
    requires i < |s| && Distinct(s)
    ensures Except(s, s[i]) == s[..i] + s[i + 1..]
    decreases |s|
  {
    var n := |s| - 1;
    if i < n {
      ExceptAt(s[..n], i);
      assert s[..n][..i] + s[..n][i + 1..] + [s[n]] == s[..i] + s[i + 1..];
    } else {
      ExceptAbsent(s[..n], s[n]);
    }
  }

  // ----- add

  /** One callback pushed. */
  function Push(c: CbList, cb: Cb): (r: CbList)
    requires c.list.Some?
  {
    c.(list := Some(c.list.value + [cb]))
  }

  function PushTrack(t: Track, id: nat): (r: Track) {
    t.(ids := t.ids + [id], attached := t.attached + [id])
  }

  /** In the middle of add the length of a firing list is behind. */
  ghost predicate AddingOk(c: CbList, t: Track, next: nat) {
    c.list.Some? && ListOk(c.(firingLength := |c.list.value|), t, next)
  }

  lemma PushOk(c: CbList, t: Track, cb: Cb, next: nat)
    requires AddingOk(c, t, next) && (c.unique ==> cb !in c.list.value)
    ensures AddingOk(Push(c, cb), PushTrack(t, next), next + 1)
    ensures PushTrack(t, next).Ran() == t.Ran()
  {
    hide Survivors, Increasing, Within, Behind, Below;
    var t' := PushTrack(t, next);
    BelowPush(t.Ran(), t.ids, next);
    BelowPush(t.Ran(), t.attached, next);
    WithinPush(t.calledIds, t.ids, t.attached, next);
    if c.unique {
      DistinctPush(c.list.value, cb);
    }
    if c.firing {
      BehindPush(t.Ran(), t.ids, c.firingIndex + 1, next);
      SurvivorsPush(t.Ran(), t.ids, next);
      assert t'.ids[..c.firingIndex + 1] == t.ids[..c.firingIndex + 1];
    }
  }

  lemma BelowPush(r: seq<nat>, s: seq<nat>, next: nat)
    requires Increasing(s) && Below(s, next) && Below(r, next)
    ensures Increasing(s + [next]) && Below(s + [next], next + 1) && Below(r, next + 1) && next !in r && next !in s
  {
  }

  lemma WithinPush(called: seq<nat>, s: seq<nat>, r: seq<nat>, next: nat)
    requires Within(called, r) && Within(s, r)
    ensures Within(called, r + [next]) && Within(s + [next], r + [next])
  {
  }

  lemma DistinctPush<T>(s: seq<T>, x: T)
    requires Distinct(s) && x !in s
    ensures Distinct(s + [x])
  {
  }

  lemma BehindPush(r: seq<nat>, s: seq<nat>, k: int, next: nat)
    requires Behind(r, s, k) && Below(r, next)
    ensures Behind(r, s + [next], k)
  {
  }

  // ----- remove

  /** Entry i spliced out, with the firing indices adjusted. */
  function Splice(c: CbList, i: nat): (r: CbList)
    requires c.list.Some? && i < |c.list.value|
  {
    c.(list := Some(c.list.value[..i] + c.list.value[i + 1..]),
       firingLength := if c.firing && i <= c.firingLength then c.firingLength - 1 else c.firingLength,
       firingIndex := if c.firing && i <= c.firingLength && i <= c.firingIndex then c.firingIndex - 1
           else c.firingIndex)
  }

  function SpliceTrack(t: Track, i: nat): (r: Track)
    requires i < |t.ids|
  {
    t.(ids := t.ids[..i] + t.ids[i + 1..])
  }

  lemma SpliceOk(c: CbList, t: Track, i: nat, next: nat)
    requires ListOk(c, t, next) && c.list.Some? && i < |c.list.value|
    ensures ListOk(Splice(c, i), SpliceTrack(t, i), next)
  {
    hide Survivors;
    var c', t' := Splice(c, i), SpliceTrack(t, i);
    assert t'.Ran() == t.Ran();
    IncreasingSplice(t.ids, i);
    if c.unique {
      DistinctSplice(c.list.value, i);
    }
    if c.firing {
      SpliceSurvivors(t.Ran(), t.ids, c.firingIndex + 1, i);
      SpliceBehind(t.Ran(), t.ids, c.firingIndex + 1, i);
    }
  }

  lemma IncreasingSplice(s: seq<nat>, i: nat)
    requires Increasing(s) && i < |s|
    ensures Distinct(s) && Increasing(s[..i] + s[i + 1..])
    ensures forall x :: x in s[..i] + s[i + 1..] <==> x in s && x != s[i]
  {
    var s' := s[..i] + s[i + 1..];
    forall j | 0 <= j < |s'|
      ensures s'[j] == s[if j < i then j else j + 1]
    {
    }
    forall x | x in s && x != s[i]
      ensures x in s'
    {
      var k :| 0 <= k < |s| && s[k] == x;
      assert s'[if k < i then k else k - 1] == x;
    }
  }

  lemma SpliceBehind(r: seq<nat>, s: seq<nat>, k: nat, i: nat)
    requires Behind(r, s, k) && i < |s|
    ensures Behind(r, s[..i] + s[i + 1..], if i < k then k - 1 else k)
  {
    var s' := s[..i] + s[i + 1..];
    forall j | 0 <= j < |s'|
      ensures s'[j] == s[if j < i then j else j + 1]
    {
    }
  }

  lemma SpliceSurvivors(r: seq<nat>, s: seq<nat>, k: nat, i: nat)
    requires Distinct(s) && k <= |s| && i < |s| && Survivors(r, s) == s[..k]
    ensures var s' := s[..i] + s[i + 1..];
            Survivors(r, s') == s'[..if i < k then k - 1 else k]
  {
    hide Survivors, Except;
    SurvivorsDrop(r, s, i);
    if i < k {
      assert s[..k][i] == s[i];
      ExceptAt(s[..k], i);
      SplicePrefix(s, k, i);
    } else {
      assert s[i] !in s[..k];
      ExceptAbsent(s[..k], s[i]);
      SpliceBeyond(s, k, i);
    }
  }

  lemma SplicePrefix(s: seq<nat>, k: nat, i: nat)
    requires i < k <= |s|
    ensures s[..k][..i] + s[..k][i + 1..] == (s[..i] + s[i + 1..])[..k - 1]
  {
  }

  lemma SpliceBeyond(s: seq<nat>, k: nat, i: nat)
    requires k <= i < |s|
    ensures (s[..i] + s[i + 1..])[..k] == s[..k]
  {
  }

  lemma DistinctSplice<T>(s: seq<T>, i: nat)
    requires Distinct(s) && i < |s|
    ensures Distinct(s[..i] + s[i + 1..])
  {
    var s' := s[..i] + s[i + 1..];
    forall j, k | 0 <= j < k < |s'|
      ensures s'[j] != s'[k]
    {
      assert s'[j] == s[if j < i then j else j + 1] && s'[k] == s[if k < i then k else k + 1];
    }
  }

  // ----- fire

  /** A firing begins at the given entry. */
  function Begin(c: CbList, start: nat, arg: Arg): (r: CbList)
    requires c.list.Some?
  {
    c.(memory := if c.keeps then Kept(arg) else Halted,
       firing := true, firingIndex := start, firingLength := |c.list.value|)
  }

  function BeginTrack(t: Track, start: nat, late: bool): (r: Track)
    requires start <= |t.ids|
  {
    t.(late := late, skip := t.ids[..start], mark := |t.calledIds|, from := |t.attached|)
  }

  lemma BeginOk(c: CbList, t: Track, next: nat, start: nat, arg: Arg, late: bool)
    requires ListOk(c, t, next) && c.list.Some? && start <= |c.list.value| && (!late ==> start == 0)
    ensures HeadOk(Begin(c, start, arg), BeginTrack(t, start, late), next)
  {
    var t' := BeginTrack(t, start, late);
    assert t'.Ran() == t.ids[..start];
    SurvivorsPrefix(t.ids, start);
  }

  lemma {:induction false} SurvivorsPrefix(s: seq<nat>, k: nat)
    requires k <= |s|
    ensures Survivors(s[..k], s) == s[..k]
    decreases k
  {
    if k > 0 {
      SurvivorsPrefix(s, k - 1);
      assert s[..k] == s[..k - 1] + [s[k - 1]];
      SurvivorsAppend(s[..k - 1], s, s[k - 1]);
    }
  }

  /** The call of the next entry begins. */
  function CallTrack(t: Track, id: nat, arg: Arg): (r: Track) {
    t.(calledIds := t.calledIds + [id], calledArgs := t.calledArgs + [arg])
  }

  lemma CallOk(c: CbList, t: Track, next: nat, arg: Arg)
    requires HeadOk(c, t, next) && c.list.Some? && c.firingIndex < c.firingLength
    ensures ListOk(c, CallTrack(t, t.ids[c.firingIndex], arg), next)
  {
    var k := c.firingIndex;
    var t' := CallTrack(t, t.ids[k], arg);
    assert t'.Ran() == t.Ran() + [t.ids[k]];
    CallBehind(t.Ran(), t.ids, k);
    CallSurvivors(t.Ran(), t.ids, k);
  }

  lemma CallBehind(r: seq<nat>, s: seq<nat>, k: nat)
    requires Increasing(r) && Increasing(s) && k < |s| && Behind(r, s, k)
    ensures Increasing(r + [s[k]]) && Behind(r + [s[k]], s, k + 1)
  {
  }

  lemma CallSurvivors(r: seq<nat>, s: seq<nat>, k: nat)
    requires k < |s| && Survivors(r, s) == s[..k]
    ensures Survivors(r + [s[k]], s) == s[..k + 1]
  {
    hide Survivors;
    assert s[k] in s;
    SurvivorsAppend(r, s, s[k]);
    assert s[..k + 1] == s[..k] + [s[k]];
  }

  lemma SurvivorsAppend(r: seq<nat>, s: seq<nat>, x: nat)
    requires x in s
    ensures Survivors(r + [x], s) == Survivors(r, s) + [x]
  {
    assert (r + [x])[..|r|] == r;
  }

  /** The call is over. */
  lemma ReturnOk(c: CbList, t: Track, next: nat)
    requires ListOk(c, t, next) && c.firing
    ensures HeadOk(c.(firingIndex := c.firingIndex + 1), t, next)
  {
  }

  // ----- what a firing has done

  /** One firing that is over: whether it was due to a late addition, the entries skipped, the entries called, in
    order, the entries added meanwhile, and the entries left on the list, if the list has not been disabled. */
  datatype Firing = Firing(
    late: bool,
    skipped: seq<nat>,
    called: seq<nat>,
    args: seq<Arg>,
    came: seq<nat>,
    left: Option<seq<nat>>)

  /** A firing that was asked for skipped nothing. Entries were called in the order in which they had been added, none
    twice, all with the same arguments; and every entry left was called or skipped. */
  ghost predicate FairFiring(f: Firing, arg: Arg) {
    && (!f.late ==> f.skipped == [])
    && Increasing(f.skipped + f.called) && |f.args| == |f.called|
    && (forall k :: 0 <= k < |f.args| ==> f.args[k] == arg)
    && (f.left.Some? ==> Survivors(f.skipped + f.called, f.left.value) == f.left.value)
    && (f.left.Some? ==> Increasing(f.left.value))
  }

  lemma EndFair(c: CbList, t: Track, next: nat, arg: Arg)
    requires HeadOk(c, t, next) && (c.list.Some? ==> c.firingIndex == c.firingLength)
    requires forall k :: t.mark <= k < |t.calledArgs| ==> t.calledArgs[k] == arg
    ensures var left := if c.list.Some? then Some(t.ids) else None;
            FairFiring(Firing(t.late, t.skip, t.calledIds[t.mark..], t.calledArgs[t.mark..], t.Came(), left), arg)
  {
    if c.list.Some? {
      assert t.ids[..c.firingIndex] == t.ids;
    }
  }

  // ----- several lists

  ghost predicate AllOk(lists: seq<CbList>, g: seq<Track>, next: nat) {
    |lists| == |g| && forall l :: 0 <= l < |lists| ==> ListOk(lists[l], g[l], next)
  }

  predicate StacksOk(lists: seq<CbList>) {
    forall l :: 0 <= l < |lists| ==> StackOk(lists[l])
  }

  predicate StacksOkBut(lists: seq<CbList>, k: nat) {
    forall l :: 0 <= l < |lists| && l != k ==> StackOk(lists[l])
  }

  ghost predicate AllOkBut(lists: seq<CbList>, g: seq<Track>, next: nat, k: nat) {
    |lists| == |g| && forall l :: 0 <= l < |lists| && l != k ==> ListOk(lists[l], g[l], next)
  }

  /** Nothing recorded about a list is ever taken back, and a disabled or locked list stays so. */
  predicate Grows(a: CbList, ta: Track, b: CbList, tb: Track) {
    && b.once == a.once && b.keeps == a.keeps && b.unique == a.unique
    && ta.calledIds <= tb.calledIds && ta.calledArgs <= tb.calledArgs
    && ta.attached <= tb.attached && ta.asked <= tb.asked && ta.served <= tb.served
    && (a.list.None? ==> b.list.None?) && (a.stack.None? ==> b.stack.None?)
  }

  /** What running some callbacks keeps of one list: a firing in progress stays where it is, whatever else happens. */
  predicate Kept1(a: CbList, ta: Track, b: CbList, tb: Track) {
    && Grows(a, ta, b, tb) && b.firing == a.firing
    && (a.firing ==> tb.mark == ta.mark && tb.from == ta.from && tb.late == ta.late && tb.skip == ta.skip)
    && (a.firing ==> tb.calledIds == ta.calledIds && tb.calledArgs == ta.calledArgs)
    && (a.firing ==> tb.served == ta.served)
  }

  predicate AllKept(a: seq<CbList>, ta: seq<Track>, b: seq<CbList>, tb: seq<Track>) {
    && |a| == |ta| == |b| == |tb|
    && forall l :: 0 <= l < |a| ==> Kept1(a[l], ta[l], b[l], tb[l])
  }

  /** The same, except that list k may have been called. */
  predicate AllKeptBut(a: seq<CbList>, ta: seq<Track>, b: seq<CbList>, tb: seq<Track>, k: nat) {
    && |a| == |ta| == |b| == |tb|
    && forall l :: 0 <= l < |a| ==> if l == k then Grows(a[l], ta[l], b[l], tb[l]) else Kept1(a[l], ta[l], b[l], tb[l])
  }

  lemma GrowsNot(c: CbList, t: Track)
    ensures Grows(c, t, c, t)
  {
  }

  lemma KeptButTrans(a: seq<CbList>, ta: seq<Track>, b: seq<CbList>, tb: seq<Track>, c: seq<CbList>, tc: seq<Track>,
      k: nat)
    requires AllKeptBut(a, ta, b, tb, k) && AllKeptBut(b, tb, c, tc, k)
    ensures AllKeptBut(a, ta, c, tc, k)
  {
    forall l | 0 <= l < |a|
      ensures if l == k then Grows(a[l], ta[l], c[l], tc[l]) else Kept1(a[l], ta[l], c[l], tc[l])
    {
    }
  }

  lemma KeptTrans(a: seq<CbList>, ta: seq<Track>, b: seq<CbList>, tb: seq<Track>, c: seq<CbList>, tc: seq<Track>)
    requires AllKept(a, ta, b, tb) && AllKept(b, tb, c, tc)
    ensures AllKept(a, ta, c, tc)
  {
    forall l | 0 <= l < |a|
      ensures Kept1(a[l], ta[l], c[l], tc[l])
    {
      assert Kept1(a[l], ta[l], b[l], tb[l]) && Kept1(b[l], tb[l], c[l], tc[l]);
    }
  }

  lemma NextGrows(lists: seq<CbList>, g: seq<Track>, next: nat, next': nat)
    requires AllOk(lists, g, next) && next <= next'
    ensures AllOk(lists, g, next')
  {
    forall l | 0 <= l < |lists|
      ensures ListOk(lists[l], g[l], next')
    {
      assert ListOk(lists[l], g[l], next);
    }
  }
}
