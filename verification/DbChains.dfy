/** The linked lists of the index file and who owns each record.

  A `State` is what the index file says (pointers and records) together with the lists the pointers are meant to
  spell: list 0 is the free list, list 1+h is hash chain h. Every record is owned by exactly one list, or by the
  operation in hand. `Unlink`, `Place` and `Grow` are the three ways a state changes.
 */
module DbChains {
  import opened DbText
  import opened DbLayout

  // ----- one linked list, over plain pointers and offsets

  /** The offset a pointer to position k of a list must hold: 0 at the end. */
  function Target(offs: seq<nat>, list: seq<nat>, k: nat): nat {
    if k < |list| && list[k] < |offs| then offs[list[k]] else 0
  }

  /** Starting at `head` and following `ptrs`, one meets exactly the records of `list`. */
  ghost predicate Spells(head: nat, ptrs: seq<nat>, offs: seq<nat>, list: seq<nat>) {
    && (forall k :: 0 <= k < |list| ==> list[k] < |ptrs| && list[k] < |offs|)
    && head == Target(offs, list, 0)
    && (forall k :: 0 <= k < |list| ==> ptrs[list[k]] == Target(offs, list, k + 1))
  }

  /** The records of a list are owned by it, and occur once. */
  ghost predicate OwnsList(owner: seq<nat>, s: nat, list: seq<nat>) {
    && (forall k :: 0 <= k < |list| ==> list[k] < |owner| && owner[list[k]] == s)
    && (forall j, k :: 0 <= j < k < |list| ==> list[j] != list[k])
  }

  function Without(list: seq<nat>, j: nat): (r: seq<nat>)
    requires j < |list|
    ensures |r| == |list| - 1
    ensures forall k :: 0 <= k < |r| ==> r[k] == list[if k < j then k else k + 1]
  {
    list[..j] + list[j + 1..]
  }

  lemma SpellsFrame(head: nat, ptrs: seq<nat>, ptrs': seq<nat>, offs: seq<nat>, offs': seq<nat>, list: seq<nat>)
    requires Spells(head, ptrs, offs, list) && |ptrs| <= |ptrs'| && offs <= offs'
    requires forall k :: 0 <= k < |list| ==> ptrs'[list[k]] == ptrs[list[k]]
    ensures Spells(head, ptrs', offs', list)
  {
  }

  lemma SpellsWithoutFirst(head: nat, ptrs: seq<nat>, offs: seq<nat>, list: seq<nat>)
    requires Spells(head, ptrs, offs, list) && list != []
    ensures Spells(ptrs[list[0]], ptrs, offs, Without(list, 0))
  {
    var r := Without(list, 0);
    forall k | 0 <= k < |r|
      ensures ptrs[r[k]] == Target(offs, r, k + 1)
    {
      assert r[k] == list[k + 1];
    }
  }

  lemma SpellsWithout(head: nat, ptrs: seq<nat>, offs: seq<nat>, list: seq<nat>, j: nat)
    requires Spells(head, ptrs, offs, list) && 0 < j < |list|
    requires forall k :: 0 <= k < |list| && k != j - 1 ==> list[k] != list[j - 1]
    ensures Spells(head, ptrs[list[j - 1] := ptrs[list[j]]], offs, Without(list, j))
  {
    var r := Without(list, j);
    var ptrs' := ptrs[list[j - 1] := ptrs[list[j]]];
    forall k | 0 <= k < |r|
      ensures r[k] < |ptrs'| && r[k] < |offs| && ptrs'[r[k]] == Target(offs, r, k + 1)
    {
      var k0 := if k < j then k else k + 1;
      assert r[k] == list[k0];
      assert ptrs[list[k0]] == Target(offs, list, k0 + 1);
      assert ptrs[list[j]] == Target(offs, list, j + 1);
    }
    assert r[0] == list[0];
  }

  lemma SpellsFront(head: nat, ptrs: seq<nat>, offs: seq<nat>, list: seq<nat>, i: nat)
    requires Spells(head, ptrs, offs, list) && i < |ptrs| && i < |offs| && ptrs[i] == head
    ensures Spells(offs[i], ptrs, offs, [i] + list)
  {
    var r := [i] + list;
    forall k | 0 <= k < |r|
      ensures r[k] < |ptrs| && r[k] < |offs| && ptrs[r[k]] == Target(offs, r, k + 1)
    {
      if k > 0 {
        assert r[k] == list[k - 1];
      }
    }
  }

  lemma OwnsWithout(owner: seq<nat>, s: nat, list: seq<nat>, j: nat, other: nat)
    requires OwnsList(owner, s, list) && j < |list|
    ensures OwnsList(owner[list[j] := other], s, Without(list, j))
  {
    var r := Without(list, j);
    forall k | 0 <= k < |r|
      ensures r[k] < |owner| && owner[list[j] := other][r[k]] == s
    {
      assert r[k] == list[if k < j then k else k + 1];
    }
  }

  lemma OwnsFront(owner: seq<nat>, s: nat, list: seq<nat>, i: nat)
    requires OwnsList(owner, s, list) && i < |owner| && owner[i] != s
    ensures OwnsList(owner[i := s], s, [i] + list)
  {
    var r := [i] + list;
    forall k | 0 <= k < |r|
      ensures r[k] < |owner| && owner[i := s][r[k]] == s
      ensures forall j :: 0 <= j < k ==> r[j] != r[k]
    {
      if k > 0 {
        assert r[k] == list[k - 1];
      }
    }
  }

  lemma StillWithout(list: seq<nat>, j: nat, m: nat)
    requires j < |list| && m in list && m != list[j]
    ensures m in Without(list, j)
  {
    var k :| 0 <= k < |list| && list[k] == m;
    assert Without(list, j)[if k < j then k else k - 1] == m;
  }

  // ----- all the lists of the database

  /** Owner of a record that is on no list because an operation is working on it. */
  const IN_HAND := SLOTS

  datatype State = State(heads: seq<nat>, recs: seq<Rec>, lists: seq<seq<nat>>, owner: seq<nat>)

  function Ptrs(recs: seq<Rec>): (p: seq<nat>)
    ensures |p| == |recs| && forall i :: 0 <= i < |recs| ==> p[i] == recs[i].ptr
  {
    seq(|recs|, i requires 0 <= i < |recs| => recs[i].ptr)
  }

  function Offs(recs: seq<Rec>): (o: seq<nat>)
    ensures |o| == |recs| && forall i :: 0 <= i < |recs| ==> o[i] == Off(recs, i)
  {
    seq(|recs|, i requires 0 <= i < |recs| => Off(recs, i))
  }

  predicate Sized(st: State) {
    |st.heads| == |st.lists| == SLOTS && |st.owner| == |st.recs|
  }

  predicate Good(st: State) {
    Sized(st) && GoodHeads(st.heads) && GoodRecs(st.recs)
  }

  ghost predicate GoodList(st: State, s: nat)
    requires Good(st) && s < SLOTS
  {
    Spells(st.heads[s], Ptrs(st.recs), Offs(st.recs), st.lists[s]) && OwnsList(st.owner, s, st.lists[s])
  }

  ghost predicate Covered(st: State, i: nat)
    requires Good(st) && i < |st.recs|
  {
    st.owner[i] <= IN_HAND && (st.owner[i] < SLOTS ==> i in st.lists[st.owner[i]])
  }

  /** Following the pointers of the file spells exactly the lists, and every record is owned by exactly one list
      or by the operation in hand. */
  ghost predicate Consistent(st: State) {
    && Good(st)
    && (forall s :: 0 <= s < SLOTS ==> GoodList(st, s))
    && (forall i :: 0 <= i < |st.recs| ==> Covered(st, i))
  }

  /** No operation has a record in hand. */
  predicate Settled(st: State) {
    forall i :: 0 <= i < |st.owner| ==> st.owner[i] < SLOTS
  }

  /** A pointer field of the index file: a list head, or the chain pointer of a record. */
  datatype Place = Head(s: nat) | Next(i: nat)

  /** The field that points to position j of list s. */
  function Pointing(st: State, s: nat, j: nat): Place
    requires s < |st.lists| && j <= |st.lists[s]|
  {
    if j == 0 then Head(s) else Next(st.lists[s][j - 1])
  }

  function SetPtr(st: State, p: Place, v: nat): State
    requires if p.Head? then p.s < |st.heads| else p.i < |st.recs|
  {
    if p.Head? then st.(heads := st.heads[p.s := v]) else st.(recs := st.recs[p.i := st.recs[p.i].(ptr := v)])
  }

  predicate OnList(st: State, s: nat, j: nat) {
    && |st.heads| == |st.lists| == SLOTS && s < SLOTS && j < |st.lists[s]|
    && forall k :: 0 <= k < |st.lists[s]| ==> st.lists[s][k] < |st.recs|
  }

  /** The state after the pointer to position j of list s has been overwritten with the pointer behind it. */
  function Unlink(st: State, s: nat, j: nat): State
    requires OnList(st, s, j)
  {
    var i := st.lists[s][j];
    SetPtr(st, Pointing(st, s, j), st.recs[i].ptr).(lists := st.lists[s := Without(st.lists[s], j)],
      owner := if i < |st.owner| then st.owner[i := IN_HAND] else st.owner)
  }

  /** Record i, in hand, rewritten as r and put at the front of list s. */
  function PutFront(st: State, s: nat, i: nat, r: Rec): State
    requires Sized(st) && s < SLOTS && i < |st.recs|
  {
    State(st.heads[s := Off(st.recs, i)], st.recs[i := r], st.lists[s := [i] + st.lists[s]], st.owner[i := s])
  }

  /** A record appended to the file, in hand. */
  function Grow(st: State, r: Rec): State {
    st.(recs := st.recs + [r], owner := st.owner + [IN_HAND])
  }

  lemma OffsSame(recs: seq<Rec>, recs': seq<Rec>)
    requires |recs| <= |recs'|
    requires forall k :: 0 <= k < |recs| ==> |RecText(recs[k])| == |RecText(recs'[k])|
    ensures Offs(recs) <= Offs(recs')
    ensures Off(recs, |recs|) == Off(recs', |recs|)
  {
    forall i | 0 <= i < |recs|
      ensures Offs(recs)[i] == Offs(recs')[i]
    {
      OffSame(recs, recs', i);
    }
    OffSame(recs, recs', |recs|);
  }

  lemma PtrKeepsSize(r: Rec, v: nat)
    requires GoodRec(r) && v <= PTR_MAX
    ensures GoodRec(r.(ptr := v)) && |RecText(r.(ptr := v))| == |RecText(r)|
  {
    assert RecBody(r.(ptr := v)) == RecBody(r);
    RecParts(r);
    RecParts(r.(ptr := v));
  }

  /** A pointer that a list holds is at most PTR_MAX. */
  lemma UnlinkGood(st: State, s: nat, j: nat)
    requires Consistent(st) && OnList(st, s, j)
    ensures Good(Unlink(st, s, j)) && Offs(Unlink(st, s, j).recs) == Offs(st.recs)
  {
    var st' := Unlink(st, s, j);
    var v := st.recs[st.lists[s][j]].ptr;
    assert GoodRec(st.recs[st.lists[s][j]]);
    if j > 0 {
      var p := st.lists[s][j - 1];
      PtrKeepsSize(st.recs[p], v);
      forall k | 0 <= k < |st.recs|
        ensures |RecText(st.recs[k])| == |RecText(st'.recs[k])| && GoodRec(st'.recs[k])
      {
      }
      OffsSame(st.recs, st'.recs);
    }
  }

  lemma UnlinkPtrs(st: State, s: nat, j: nat)
    requires Consistent(st) && OnList(st, s, j)
    ensures Sized(st) && var ptrs, list := Ptrs(st.recs), st.lists[s];
            && list[j] < |st.recs| && (j > 0 ==> list[j - 1] < |st.recs|)
            && Ptrs(Unlink(st, s, j).recs) == if j > 0 then ptrs[list[j - 1] := ptrs[list[j]]] else ptrs
  {
    var st', ptrs, list := Unlink(st, s, j), Ptrs(st.recs), st.lists[s];
    assert GoodList(st, s);
    assert j > 0 ==> Ptrs(st'.recs) == ptrs[list[j - 1] := ptrs[list[j]]];
    assert j == 0 ==> Ptrs(st'.recs) == ptrs;
  }

  lemma UnlinkOwnList(st: State, s: nat, j: nat)
    requires Consistent(st) && OnList(st, s, j) && Good(Unlink(st, s, j))
    requires Offs(Unlink(st, s, j).recs) == Offs(st.recs)
    ensures GoodList(Unlink(st, s, j), s)
  {
    hide Ptrs, Offs, Spells;
    var ptrs, offs, list := Ptrs(st.recs), Offs(st.recs), st.lists[s];
    assert GoodList(st, s);
    UnlinkPtrs(st, s, j);
    OwnsWithout(st.owner, s, list, j, IN_HAND);
    if j == 0 {
      SpellsWithoutFirst(st.heads[s], ptrs, offs, list);
    } else {
      SpellsWithout(st.heads[s], ptrs, offs, list, j);
    }
  }

  lemma UnlinkOtherList(st: State, s: nat, j: nat, s1: nat)
    requires Consistent(st) && OnList(st, s, j) && Good(Unlink(st, s, j)) && s1 < SLOTS && s1 != s
    requires Offs(Unlink(st, s, j).recs) == Offs(st.recs)
    ensures GoodList(Unlink(st, s, j), s1)
  {
    hide Offs, Spells;
    var st' := Unlink(st, s, j);
    var ptrs, offs, list := Ptrs(st.recs), Offs(st.recs), st.lists[s];
    assert GoodList(st, s) && GoodList(st, s1);
    UnlinkPtrs(st, s, j);
    hide Ptrs;
    forall k | 0 <= k < |st.lists[s1]|
      ensures Ptrs(st'.recs)[st.lists[s1][k]] == ptrs[st.lists[s1][k]]
      ensures st'.owner[st.lists[s1][k]] == s1
    {
      assert st.owner[st.lists[s1][k]] == s1;
      assert st.owner[list[j]] == s;
      assert j > 0 ==> st.owner[list[j - 1]] == s;
    }
    SpellsFrame(st.heads[s1], ptrs, Ptrs(st'.recs), offs, offs, st.lists[s1]);
  }

  lemma UnlinkConsistent(st: State, s: nat, j: nat)
    requires Consistent(st) && OnList(st, s, j)
    ensures Consistent(Unlink(st, s, j))
    ensures Offs(Unlink(st, s, j).recs) == Offs(st.recs)
  {
    var st' := Unlink(st, s, j);
    UnlinkGood(st, s, j);
    forall s1 | 0 <= s1 < SLOTS
      ensures GoodList(st', s1)
    {
      if s1 == s {
        UnlinkOwnList(st, s, j);
      } else {
        UnlinkOtherList(st, s, j, s1);
      }
    }
    forall m | 0 <= m < |st'.recs|
      ensures Covered(st', m)
    {
      assert Covered(st, m) && GoodList(st, s);
      if st'.owner[m] == s {
        StillWithout(st.lists[s], j, m);
      }
    }
  }

  lemma PutFrontGood(st: State, s: nat, i: nat, r: Rec)
    requires Good(st) && s < SLOTS && i < |st.recs|
    requires GoodRec(r) && |RecText(r)| == |RecText(st.recs[i])| && Off(st.recs, i) <= PTR_MAX
    ensures Good(PutFront(st, s, i, r)) && Offs(PutFront(st, s, i, r).recs) == Offs(st.recs)
  {
    var recs' := st.recs[i := r];
    forall k | 0 <= k < |st.recs|
      ensures |RecText(st.recs[k])| == |RecText(recs'[k])|
    {
    }
    OffsSame(st.recs, recs');
  }

  lemma PutFrontList(st: State, s: nat, i: nat, r: Rec, s1: nat)
    requires Consistent(st) && s < SLOTS && i < |st.recs| && st.owner[i] == IN_HAND && r.ptr == st.heads[s]
    requires Good(PutFront(st, s, i, r)) && Offs(PutFront(st, s, i, r).recs) == Offs(st.recs) && s1 < SLOTS
    ensures GoodList(PutFront(st, s, i, r), s1)
  {
    var st' := PutFront(st, s, i, r);
    var ptrs, ptrs', offs := Ptrs(st.recs), Ptrs(st'.recs), Offs(st.recs);
    var list := st.lists[s1];
    assert GoodList(st, s1);
    forall k | 0 <= k < |list|
      ensures ptrs'[list[k]] == ptrs[list[k]] && st'.owner[list[k]] == s1
    {
      assert st.owner[list[k]] == s1;
    }
    SpellsFrame(st.heads[s1], ptrs, ptrs', offs, offs, list);
    if s1 == s {
      SpellsFront(st.heads[s], ptrs', offs, list, i);
      OwnsFront(st.owner, s, list, i);
    }
  }

  lemma PutFrontConsistent(st: State, s: nat, i: nat, r: Rec)
    requires Consistent(st) && s < SLOTS && i < |st.recs| && st.owner[i] == IN_HAND && r.ptr == st.heads[s]
    requires GoodRec(r) && |RecText(r)| == |RecText(st.recs[i])| && Off(st.recs, i) <= PTR_MAX
    ensures Consistent(PutFront(st, s, i, r))
    ensures Offs(PutFront(st, s, i, r).recs) == Offs(st.recs)
  {
    var st' := PutFront(st, s, i, r);
    PutFrontGood(st, s, i, r);
    forall s1 | 0 <= s1 < SLOTS
      ensures GoodList(st', s1)
    {
      PutFrontList(st, s, i, r, s1);
    }
    forall m | 0 <= m < |st'.recs|
      ensures Covered(st', m)
    {
      assert Covered(st, m);
    }
  }

  lemma GrowConsistent(st: State, r: Rec)
    requires Consistent(st) && GoodRec(r)
    ensures Consistent(Grow(st, r))
    ensures Offs(st.recs) <= Offs(Grow(st, r).recs) && Off(Grow(st, r).recs, |st.recs|) == Off(st.recs, |st.recs|)
  {
    var st' := Grow(st, r);
    OffsSame(st.recs, st'.recs);
    forall s | 0 <= s < SLOTS
      ensures GoodList(st', s)
    {
      assert GoodList(st, s);
      SpellsFrame(st.heads[s], Ptrs(st.recs), Ptrs(st'.recs), Offs(st.recs), Offs(st'.recs), st.lists[s]);
    }
    forall m | 0 <= m < |st'.recs|
      ensures Covered(st', m)
    {
      if m < |st.recs| {
        assert Covered(st, m);
      }
    }
  }

  lemma ListedOwner(st: State, s: nat, j: nat)
    requires Consistent(st) && OnList(st, s, j)
    ensures st.owner[st.lists[s][j]] == s
  {
    assert GoodList(st, s);
  }
}
