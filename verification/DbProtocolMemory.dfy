/** What the writes of the protocol do to the lists. */
module DbProtocolMemory {
  import opened Wrappers
  import opened DbText
  import opened DbLayout
  import opened DbChains
  import DbContents
  import opened DbProtocol
  import opened DbProtocolInvariant

  /** Nothing that concerns list s has changed. */
  ghost predicate SlotSame(mem: Mem, mem': Mem, s: nat)
    requires Sizes(mem) && Sizes(mem') && s < SLOTS
  {
    && |mem.recs| <= |mem'.recs|
    && mem'.heads[s] == mem.heads[s] && mem'.lists[s] == mem.lists[s] && mem'.patch[s] == mem.patch[s]
    && forall i :: 0 <= i < |mem.recs| && mem.owner[i] == s ==> mem'.recs[i] == mem.recs[i] && mem'.owner[i] == s
  }

  lemma SlotFrame(mem: Mem, mem': Mem, s: nat)
    requires Sizes(mem) && Sizes(mem') && s < SLOTS && SlotOk(mem, s) && SlotSame(mem, mem', s)
    ensures SlotOk(mem', s)
  {
    hide AllBlank, DbContents.Hash;
    assert OwnsList(mem.owner, s, mem.lists[s]);
    ListFrame(mem, mem', s);
  }

  lemma ListFrame(mem: Mem, mem': Mem, s: nat)
    requires Sizes(mem) && Sizes(mem') && s < SLOTS && SlotOk(mem, s) && SlotSame(mem, mem', s)
    ensures ListOk(mem', s)
  {
    hide KeysOk;
    var list := mem.lists[s];
    forall k | 0 <= k < |list|
      ensures EffPtrs(mem', s)[list[k]] == EffPtrs(mem, s)[list[k]] && mem'.owner[list[k]] == s
    {
      assert mem.owner[list[k]] == s;
    }
    SpellsFrame(EffHead(mem, s), EffPtrs(mem, s), EffPtrs(mem', s), Ids(|mem.recs|), Ids(|mem'.recs|), list);
  }

  /** A record at a known position of a list. */
  lemma OnSlot(mem: Mem, s: nat, j: nat)
    requires Sizes(mem) && s < SLOTS && SlotOk(mem, s) && j < |mem.lists[s]|
    ensures mem.lists[s][j] < |mem.recs| && mem.owner[mem.lists[s][j]] == s
    ensures forall k :: 0 <= k < |mem.lists[s]| && k != j ==> mem.lists[s][k] != mem.lists[s][j]
  {
    var list := mem.lists[s];
    forall k | 0 <= k < |list| && k != j
      ensures list[k] != list[j]
    {
      assert if k < j then list[k] != list[j] else list[j] != list[k];
    }
  }

  lemma KeysWithout(recs: seq<Node>, recs': seq<Node>, s: nat, list: seq<nat>, j: nat)
    requires KeysOk(recs, s, list) && j < |list| && |recs'| == |recs|
    requires forall k :: 0 <= k < |list| && k != j ==> recs'[list[k]].key == recs[list[k]].key
    ensures KeysOk(recs', s, Without(list, j))
  {
    var r := Without(list, j);
    forall k | 0 <= k < |r|
      ensures r[k] < |recs'| && recs'[r[k]].key == recs[r[k]].key && r[k] == list[if k < j then k else k + 1]
    {
    }
  }

  /** Blanking a record takes it off its chain, with the bypassing pointer write pending. */
  lemma BlankedSlot(mem: Mem, p: nat, s: nat, j: nat, place: Place, i: nat, save: nat, freeptr: nat)
    requires Sizes(mem) && 1 <= s < SLOTS && SlotOk(mem, s) && mem.patch[s] == None && AtRec(mem, s, j, place, i, save)
    ensures SlotOk(Blanked(mem, p, s, j, place, i, save, freeptr), s)
  {
    hide AllBlank, DbContents.Hash, Spells, KeysOk, Without;
    var mem' := Blanked(mem, p, s, j, place, i, save, freeptr);
    OnSlot(mem, s, j);
    KeysWithout(mem.recs, mem'.recs, s, mem.lists[s], j);
    OwnsWithout(mem.owner, s, mem.lists[s], j, InHand(p));
    BlankedSpells(mem, p, s, j, place, i, save, freeptr);
    if j > 0 {
      OnSlot(mem, s, j - 1);
    }
  }

  lemma BlankedSpells(mem: Mem, p: nat, s: nat, j: nat, place: Place, i: nat, save: nat, freeptr: nat)
    requires Sizes(mem) && 1 <= s < SLOTS && SlotOk(mem, s) && mem.patch[s] == None && AtRec(mem, s, j, place, i, save)
    ensures var mem' := Blanked(mem, p, s, j, place, i, save, freeptr);
            Spells(EffHead(mem', s), EffPtrs(mem', s), Ids(|mem'.recs|), mem'.lists[s])
  {
    hide KeysOk, AllBlank, DbContents.Hash, Spells, Without, Blank;
    var mem' := Blanked(mem, p, s, j, place, i, save, freeptr);
    var list, ids, ptrs := mem.lists[s], Ids(|mem.recs|), PtrsOf(mem.recs);
    OnSlot(mem, s, j);
    WithoutMembers(list, j);
    if j == 0 {
      SpellsWithoutFirst(mem.heads[s], ptrs, ids, list);
      SpellsFrame(ptrs[i], ptrs, EffPtrs(mem', s), ids, ids, Without(list, j));
    } else {
      OnSlot(mem, s, j - 1);
      SpellsWithout(mem.heads[s], ptrs, ids, list, j);
      SpellsFrame(mem.heads[s], ptrs[list[j - 1] := ptrs[i]], EffPtrs(mem', s), ids, ids, Without(list, j));
    }
  }

  lemma WithoutMembers(list: seq<nat>, j: nat)
    requires j < |list| && forall k :: 0 <= k < |list| && k != j ==> list[k] != list[j]
    ensures forall k :: 0 <= k < |Without(list, j)| ==> Without(list, j)[k] != list[j]
    ensures forall i :: i in Without(list, j) <==> i in list && i != list[j]
  {
    var r := Without(list, j);
    forall i | i in list && i != list[j]
      ensures i in r
    {
      var k :| 0 <= k < |list| && list[k] == i;
      assert r[if k < j then k else k - 1] == i;
    }
  }

  /** Making a list head point at the record in hand puts it in front. */
  lemma LinkedSlot(mem: Mem, s: nat, i: nat)
    requires Sizes(mem) && s < SLOTS && SlotOk(mem, s) && mem.patch[s] == None
    requires i < |mem.recs| && mem.owner[i] >= SLOTS && mem.recs[i].ptr == mem.heads[s]
    requires if s == 0 then AllBlank(mem.recs[i].key) else s == 1 + DbContents.Hash(mem.recs[i].key)
    requires s != 0 ==> Lacks(mem, mem.lists[s], mem.recs[i].key)
    ensures SlotOk(Linked(mem, s, i), s)
  {
    SpellsFront(mem.heads[s], PtrsOf(mem.recs), Ids(|mem.recs|), mem.lists[s], i);
    OwnsFront(mem.owner, s, mem.lists[s], i);
  }

  /** Making the pending write changes no list. */
  lemma BypassedSlot(mem: Mem, s: nat)
    requires Sizes(mem) && s < SLOTS && SlotOk(mem, s) && mem.patch[s].Some?
    ensures var w := mem.patch[s].value;
            SlotOk(WritePtr(mem, w.place, w.v).(patch := mem.patch[s := None]), s)
  {
    var w := mem.patch[s].value;
    var mem' := WritePtr(mem, w.place, w.v).(patch := mem.patch[s := None]);
    assert EffHead(mem', s) == EffHead(mem, s);
    assert EffPtrs(mem', s) == EffPtrs(mem, s);
  }

  /** Bypassing a free record takes it off the free list. */
  lemma TakenSlot(mem: Mem, p: nat, j: nat, place: Place, i: nat, save: nat)
    requires Sizes(mem) && SlotOk(mem, 0) && mem.patch[0] == None && AtRec(mem, 0, j, place, i, save)
    ensures SlotOk(Taken(mem, p, j, place, i, save), 0)
  {
    var mem' := Taken(mem, p, j, place, i, save);
    var list, ids := mem.lists[0], Ids(|mem.recs|);
    var ptrs := PtrsOf(mem.recs);
    OnSlot(mem, 0, j);
    KeysWithout(mem.recs, mem'.recs, 0, list, j);
    OwnsWithout(mem.owner, 0, list, j, InHand(p));
    if j == 0 {
      SpellsWithoutFirst(mem.heads[0], ptrs, ids, list);
      assert PtrsOf(mem'.recs) == ptrs;
    } else {
      OnSlot(mem, 0, j - 1);
      SpellsWithout(mem.heads[0], ptrs, ids, list, j);
      assert PtrsOf(mem'.recs) == ptrs[list[j - 1] := ptrs[i]];
    }
  }

  // ----- what one step writes

  /** Only lists in `scope`, and records that a list in `scope` or process p owns, have changed; and unless the
      free list is in scope, only blank keys have been overwritten. */
  ghost predicate Within(mem: Mem, mem': Mem, p: nat, scope: set<nat>)
    requires Sizes(mem) && Sizes(mem')
  {
    && |mem.recs| <= |mem'.recs| && |mem.data| <= |mem'.data|
    && (forall i :: 0 <= i < |mem.recs| ==> mem'.recs[i].cell == mem.recs[i].cell)
    && (forall s :: 0 <= s < SLOTS && s !in scope ==>
          mem'.heads[s] == mem.heads[s] && mem'.lists[s] == mem.lists[s] && mem'.patch[s] == mem.patch[s])
    && (forall i :: 0 <= i < |mem.recs| && mem.owner[i] !in scope && mem.owner[i] != InHand(p) ==>
          mem'.recs[i] == mem.recs[i] && mem'.owner[i] == mem.owner[i])
    && (0 !in scope ==> forall i :: 0 <= i < |mem.recs| ==>
         mem'.recs[i].key == mem.recs[i].key || AllBlank(mem.recs[i].key))
  }

  /** The lists a process has locked for writing. */
  function Scope(proc: Proc): set<nat> {
    set l | l in proc.held && l < SLOTS && proc.held[l] == Write
  }

  /** What must be shown of a write. */
  ghost predicate GoodWrite(mem: Mem, mem': Mem, p: nat, proc: Proc)
    requires Sizes(mem)
  {
    MemOk(mem') && Within(mem, mem', p, Scope(proc))
  }

  /** If list s is well formed and nothing that concerns the others has changed, the memory is. */
  lemma OtherSlots(mem: Mem, mem': Mem, s: nat)
    requires MemOk(mem) && Sizes(mem') && s < SLOTS && SlotOk(mem', s) && CellsOk(mem') && mem'.patch[0] == None
    requires forall t :: 0 <= t < SLOTS && t != s ==> SlotSame(mem, mem', t)
    ensures MemOk(mem')
  {
    hide SlotOk, SlotSame;
    forall t | 0 <= t < SLOTS && t != s
      ensures SlotOk(mem', t)
    {
      assert SlotOk(mem, t);
      SlotFrame(mem, mem', t);
    }
  }

  lemma BlankedWrite(mem: Mem, p: nat, s: nat, j: nat, place: Place, i: nat, save: nat, freeptr: nat, scope: set<nat>)
    requires MemOk(mem) && 1 <= s < SLOTS && s in scope && 0 in scope
    requires mem.patch[s] == None && AtRec(mem, s, j, place, i, save)
    ensures var mem' := Blanked(mem, p, s, j, place, i, save, freeptr);
            MemOk(mem') && Within(mem, mem', p, scope)
  {
    hide ListOk, KeysOk, InChain;
    var mem' := Blanked(mem, p, s, j, place, i, save, freeptr);
    assert SlotOk(mem, s);
    BlankedSlot(mem, p, s, j, place, i, save, freeptr);
    OnSlot(mem, s, j);
    OtherSlots(mem, mem', s);
  }

  lemma LinkedWrite(mem: Mem, p: nat, s: nat, i: nat, scope: set<nat>)
    requires MemOk(mem) && s < SLOTS && s in scope && mem.patch[s] == None
    requires i < |mem.recs| && mem.owner[i] == InHand(p) && mem.recs[i].ptr == mem.heads[s]
    requires if s == 0 then AllBlank(mem.recs[i].key) else s == 1 + DbContents.Hash(mem.recs[i].key)
    requires s != 0 ==> Lacks(mem, mem.lists[s], mem.recs[i].key)
    ensures MemOk(Linked(mem, s, i)) && Within(mem, Linked(mem, s, i), p, scope)
  {
    hide ListOk, KeysOk, InChain, AllBlank, DbContents.Hash, Lacks;
    var mem' := Linked(mem, s, i);
    assert SlotOk(mem, s);
    LinkedSlot(mem, s, i);
    OtherSlots(mem, mem', s);
  }

  lemma BypassedWrite(mem: Mem, p: nat, s: nat, scope: set<nat>)
    requires MemOk(mem) && s < SLOTS && s in scope && mem.patch[s].Some?
    ensures var w := mem.patch[s].value;
            var mem' := WritePtr(mem, w.place, w.v).(patch := mem.patch[s := None]);
            MemOk(mem') && Within(mem, mem', p, scope)
  {
    hide ListOk, KeysOk;
    var w := mem.patch[s].value;
    var mem' := WritePtr(mem, w.place, w.v).(patch := mem.patch[s := None]);
    assert SlotOk(mem, s);
    BypassedSlot(mem, s);
    OtherSlots(mem, mem', s);
  }

  lemma TakenWrite(mem: Mem, p: nat, j: nat, place: Place, i: nat, save: nat, scope: set<nat>)
    requires MemOk(mem) && 0 in scope && AtRec(mem, 0, j, place, i, save)
    ensures MemOk(Taken(mem, p, j, place, i, save)) && Within(mem, Taken(mem, p, j, place, i, save), p, scope)
  {
    hide ListOk, KeysOk, InChain;
    var mem' := Taken(mem, p, j, place, i, save);
    assert SlotOk(mem, 0);
    TakenSlot(mem, p, j, place, i, save);
    OnSlot(mem, 0, j);
    if j > 0 {
      OnSlot(mem, 0, j - 1);
    }
    OtherSlots(mem, mem', 0);
  }

  lemma ReuseIdxWrite(mem: Mem, p: nat, proc: Proc)
    requires MemOk(mem) && Local(mem, p, proc) && proc.pc.ReuseIdx?
    ensures GoodWrite(mem, MemAfter(mem, p, proc), p, proc)
  {
    var mem' := MemAfter(mem, p, proc);
    forall t | 0 <= t < SLOTS
      ensures SlotOk(mem', t)
    {
      assert SlotOk(mem, t);
      SlotFrame(mem, mem', t);
    }
  }

  lemma AppendIdxWrite(mem: Mem, p: nat, proc: Proc)
    requires MemOk(mem) && Local(mem, p, proc) && proc.pc.AppendIdx?
    ensures GoodWrite(mem, MemAfter(mem, p, proc), p, proc)
  {
    var mem' := MemAfter(mem, p, proc);
    assert CellsOk(mem');
    forall t | 0 <= t < SLOTS
      ensures SlotOk(mem', t)
    {
      assert SlotOk(mem, t);
      SlotFrame(mem, mem', t);
    }
  }

  /** Steps that change nothing of the index file. */
  predicate DataStep(pc: Pc) {
    pc.BlankData? || pc.Overwrite? || pc.ReuseData? || pc.AppendDat? || pc.Release?
  }

  lemma DataShape(mem: Mem, p: nat, proc: Proc)
    requires DataStep(proc.pc)
    ensures var mem' := MemAfter(mem, p, proc);
            mem' == mem.(data := mem'.data, log := mem'.log) && |mem'.data| >= |mem.data|
  {
    hide AllBlank;
  }

  lemma SameIndexWrite(mem: Mem, mem': Mem, p: nat, scope: set<nat>)
    requires MemOk(mem) && mem' == mem.(data := mem'.data, log := mem'.log) && |mem'.data| >= |mem.data|
    ensures MemOk(mem') && Within(mem, mem', p, scope)
  {
    hide AllBlank, ListOk, KeysOk, InChain, SlotOk;
    forall t | 0 <= t < SLOTS
      ensures SlotOk(mem', t)
    {
      assert SlotOk(mem, t);
      SlotFrame(mem, mem', t);
    }
  }

  lemma DataWrite(mem: Mem, p: nat, proc: Proc)
    requires MemOk(mem) && DataStep(proc.pc)
    ensures GoodWrite(mem, MemAfter(mem, p, proc), p, proc)
  {
    hide MemOk, Within, MemAfter, DataStep;
    DataShape(mem, p, proc);
    SameIndexWrite(mem, MemAfter(mem, p, proc), p, Scope(proc));
    OkSizes(mem);
  }

  lemma OkSizes(mem: Mem)
    requires MemOk(mem)
    ensures Sizes(mem)
  {
  }

  /** Every step keeps the lists well formed, and writes only what the process has locked or in hand. */
  lemma StepWrites(mem: Mem, p: nat, proc: Proc)
    requires MemOk(mem) && Local(mem, p, proc)
    ensures GoodWrite(mem, MemAfter(mem, p, proc), p, proc)
  {
    hide SlotOk, Within, CellsOk, Lacks, Target, AllBlank;
    var op, s, scope := proc.op, proc.op.Slot(), Scope(proc);
    match proc.pc
    case BlankIdx(j, place, i, save, freeptr) => BlankedWrite(mem, p, s, j, place, i, save, freeptr, scope);
    case LinkFree(_, i, _) => LinkedWrite(mem, p, 0, i, scope);
    case Bypass(_, _) => BypassedWrite(mem, p, s, scope);
    case TakeFree(_, j, place, i, save) => TakenWrite(mem, p, j, place, i, save, scope);
    case ReuseIdx(_, _) => ReuseIdxWrite(mem, p, proc);
    case LinkChain(i) => LinkedWrite(mem, p, s, i, scope);
    case BlankData(_, _, _, _) => DataWrite(mem, p, proc);
    case Overwrite(_, _) => DataWrite(mem, p, proc);
    case ReuseData(_, _) => DataWrite(mem, p, proc);
    case AppendDat(_) => DataWrite(mem, p, proc);
    case Release(_) => DataWrite(mem, p, proc);
    case AppendIdx(_, _) => AppendIdxWrite(mem, p, proc);
    case _ => NoWrite(mem, p, proc);
  }

  lemma NoWrite(mem: Mem, p: nat, proc: Proc)
    requires MemOk(mem) && MemAfter(mem, p, proc) == mem
    ensures GoodWrite(mem, MemAfter(mem, p, proc), p, proc)
  {
  }
}
