/** Every step of every process keeps the invariant. */
module DbProtocolSteps {
  import opened Wrappers
  import opened DbText
  import opened DbLayout
  import opened DbChains
  import DbContents
  import opened DbProtocol
  import opened DbProtocolInvariant
  import opened DbProtocolMemory

  // ----- what a step of p leaves alone of what q knows

  /** The records of a list are the same, with the same owner. */
  ghost predicate ListKept(mem: Mem, mem': Mem, s: nat)
    requires Sizes(mem) && Sizes(mem') && s < SLOTS
  {
    && |mem.recs| <= |mem'.recs|
    && mem'.heads[s] == mem.heads[s] && mem'.lists[s] == mem.lists[s] && mem'.patch[s] == mem.patch[s]
    && forall k :: 0 <= k < |mem.lists[s]| ==>
         mem.lists[s][k] < |mem.recs| && mem'.recs[mem.lists[s][k]] == mem.recs[mem.lists[s][k]]
  }

  /** A list whose lock q holds is not touched by a step of p. */
  lemma LockedListKept(mem: Mem, mem': Mem, p: nat, scope: set<nat>, s: nat)
    requires MemOk(mem) && Sizes(mem') && Within(mem, mem', p, scope) && s < SLOTS && s !in scope
    ensures ListKept(mem, mem', s)
  {
    assert SlotOk(mem, s);
    forall k | 0 <= k < |mem.lists[s]|
      ensures mem.lists[s][k] < |mem.recs| && mem'.recs[mem.lists[s][k]] == mem.recs[mem.lists[s][k]]
    {
      assert mem.owner[mem.lists[s][k]] == s;
    }
  }

  lemma PosKept(mem: Mem, mem': Mem, s: nat, j: nat, place: Place, off: nat)
    requires Sizes(mem) && Sizes(mem') && s < SLOTS && ListKept(mem, mem', s) && AtPos(mem, s, j, place, off)
    ensures AtPos(mem', s, j, place, off)
  {
  }

  /** What a program point speaks of is kept: the lists locked there, the record in hand, and keys. */
  ghost predicate KeptFor(mem: Mem, mem': Mem, op: Op, pc: Pc)
    requires Sizes(mem) && Sizes(mem') && op.Slot() < SLOTS
  {
    && |mem.recs| <= |mem'.recs|
    && (op.Slot() in Holding(op, pc) ==> ListKept(mem, mem', op.Slot()))
    && (0 in Holding(op, pc) ==> ListKept(mem, mem', 0))
    && (Hand(pc).Some? && Hand(pc).value < |mem.recs| ==> mem'.recs[Hand(pc).value] == mem.recs[Hand(pc).value])
    && (pc.NrData? ==> forall i :: 0 <= i < |mem.recs| ==>
         mem'.recs[i].key == mem.recs[i].key || AllBlank(mem.recs[i].key))
  }

  /** The condition of a program point survives if the lists and records it speaks of are kept. */
  lemma PcKept(mem: Mem, mem': Mem, op: Op, pc: Pc)
    requires Sizes(mem) && Sizes(mem') && op.Slot() < SLOTS && OpFits(op, pc) && PcOk(mem, op, pc)
    requires KeptFor(mem, mem', op, pc)
    ensures PcOk(mem', op, pc)
  {
    hide PcOk, KeptFor, OpFits, OnRecord, Storing;
    match pc {
      case Walk(j, place, off) => WalkKept(mem, mem', op, j, place, off);
      case Scan(front, j, place, off) => ScanKept(mem, mem', op, front, j, place, off);
      case _ =>
        if OnRecord(pc) {
          RecordKept(mem, mem', op, pc);
        } else if Storing(pc) {
          StoringKept(mem, mem', op, pc);
        } else if pc.LinkFree? || pc.Bypass? || pc.FreeDone? || pc.ReadFront? {
          GoneKept(mem, mem', op, pc);
        } else {
          PlainKept(mem, mem', op, pc);
        }
    }
  }

  /** The points at which nothing, or only the key of one record, matters. */
  lemma PlainKept(mem: Mem, mem': Mem, op: Op, pc: Pc)
    requires Sizes(mem) && Sizes(mem') && op.Slot() < SLOTS && OpFits(op, pc) && PcOk(mem, op, pc)
    requires !pc.Walk? && !pc.Scan? && !OnRecord(pc) && !Storing(pc)
    requires !pc.LinkFree? && !pc.Bypass? && !pc.FreeDone? && !pc.ReadFront?
    requires KeptFor(mem, mem', op, pc)
    ensures PcOk(mem', op, pc)
  {
    hide AllBlank, Target, DbContents.Hash, AtPos, AtRec, Lacks;
  }

  lemma GoneKept(mem: Mem, mem': Mem, op: Op, pc: Pc)
    requires Sizes(mem) && Sizes(mem') && op.Slot() < SLOTS && OpFits(op, pc) && PcOk(mem, op, pc)
    requires pc.LinkFree? || pc.Bypass? || pc.FreeDone? || pc.ReadFront?
    requires KeptFor(mem, mem', op, pc)
    ensures PcOk(mem', op, pc)
  {
    hide AllBlank, Target, DbContents.Hash;
  }

  lemma ScanKept(mem: Mem, mem': Mem, op: Op, front: nat, j: nat, place: Place, off: nat)
    requires Sizes(mem) && Sizes(mem') && op.Slot() < SLOTS && OpFits(op, Scan(front, j, place, off))
    requires PcOk(mem, op, Scan(front, j, place, off))
    requires KeptFor(mem, mem', op, Scan(front, j, place, off))
    ensures PcOk(mem', op, Scan(front, j, place, off))
  {
    hide AllBlank, Target, DbContents.Hash;
    PosKept(mem, mem', 0, j, place, off);
  }

  /** The points of a store of a new key. */
  predicate Storing(pc: Pc) {
    pc.WantFree? || pc.ScanHead? || pc.TakeFree? || pc.ReuseUnlock? || pc.ReuseData? || pc.ReuseIdx?
    || pc.LinkChain? || pc.ScanFail?
    || pc.WantDat? || pc.AppendDat? || pc.DatUnlock? || pc.WantEnd? || pc.AppendIdx? || pc.EndUnlock?
  }

  lemma StoringKept(mem: Mem, mem': Mem, op: Op, pc: Pc)
    requires Sizes(mem) && Sizes(mem') && op.Slot() < SLOTS && OpFits(op, pc) && PcOk(mem, op, pc) && Storing(pc)
    requires KeptFor(mem, mem', op, pc)
    ensures PcOk(mem', op, pc)
  {
    hide AllBlank, Target, DbContents.Hash;
  }

  /** The points of a delete at which it is at a record of its chain. */
  predicate OnRecord(pc: Pc) {
    pc.WantFreeDel? || pc.BlankData? || pc.ReadFreePtr? || pc.BlankIdx? || pc.FetchData? || pc.Overwrite?
  }

  lemma RecordKept(mem: Mem, mem': Mem, op: Op, pc: Pc)
    requires Sizes(mem) && Sizes(mem') && op.Slot() < SLOTS && OpFits(op, pc) && PcOk(mem, op, pc) && OnRecord(pc)
    requires KeptFor(mem, mem', op, pc)
    ensures PcOk(mem', op, pc)
  {
    hide AllBlank, Target, DbContents.Hash;
  }

  lemma WalkKept(mem: Mem, mem': Mem, op: Op, j: nat, place: Place, off: nat)
    requires Sizes(mem) && Sizes(mem') && op.Slot() < SLOTS && OpFits(op, Walk(j, place, off))
    requires PcOk(mem, op, Walk(j, place, off))
    requires KeptFor(mem, mem', op, Walk(j, place, off))
    ensures PcOk(mem', op, Walk(j, place, off))
  {
    hide AllBlank, Target, DbContents.Hash;
    PosKept(mem, mem', op.Slot(), j, place, off);
  }

  lemma LocalKept(mem: Mem, mem': Mem, p: nat, scope: set<nat>, q: nat, proc: Proc)
    requires MemOk(mem) && Sizes(mem') && Within(mem, mem', p, scope) && q != p && Local(mem, q, proc)
    requires forall l :: l in proc.held && l < SLOTS ==> l !in scope
    requires forall l :: l in scope ==> l < SLOTS
    requires FreshCell(proc.pc).Some? ==>
               forall i :: |mem.recs| <= i < |mem'.recs| ==> mem'.recs[i].cell != FreshCell(proc.pc).value
    ensures Local(mem', q, proc)
  {
    hide SlotOk, PcOk, CellsOk;
    var op, pc := proc.op, proc.pc;
    var s := op.Slot();
    if s in proc.held {
      LockedListKept(mem, mem', p, scope, s);
    }
    if 0 in proc.held {
      LockedListKept(mem, mem', p, scope, 0);
    }
    PcKept(mem, mem', op, pc);
  }

  // ----- the process that steps

  /** What a pointer read in the walk of a list means. */
  lemma ListAt(mem: Mem, s: nat, j: nat, place: Place, off: nat)
    requires MemOk(mem) && s < SLOTS && mem.patch[s] == None && AtPos(mem, s, j, place, off)
    ensures var list := mem.lists[s];
            && (off == 0 <==> j == |list|)
            && (j < |list| ==> off == list[j] + 1 && list[j] < |mem.recs|
                               && AtRec(mem, s, j, place, list[j], mem.recs[list[j]].ptr)
                               && AtPos(mem, s, j + 1, Next(list[j]), mem.recs[list[j]].ptr))
  {
    assert SlotOk(mem, s);
    assert EffPtrs(mem, s) == PtrsOf(mem.recs);
  }

  lemma LacksOne(mem: Mem, list: seq<nat>, j: nat, key: string)
    requires j < |list| && list[j] < |mem.recs| && mem.recs[list[j]].key != key && Lacks(mem, list[..j], key)
    ensures Lacks(mem, list[..j + 1], key)
  {
    assert list[..j + 1] == list[..j] + [list[j]];
  }

  /** The walk along a chain: the position advances, or the key is found, or it is on no record. */
  lemma WalkKnows(mem: Mem, p: nat, proc: Proc)
    requires MemOk(mem) && Local(mem, p, proc) && proc.pc.Walk?
    ensures Local(mem, p, WalkStep(mem, proc, proc.pc.j, proc.pc.place, proc.pc.off))
  {
    hide AllBlank, DbContents.Hash, CellsOk, SlotOk, Target, Lacks, AtPos;
    var s, j, place, off := proc.op.Slot(), proc.pc.j, proc.pc.place, proc.pc.off;
    var list := mem.lists[s];
    WalkBound(mem, s, j, place, off);
    ListAt(mem, s, j, place, off);
    if off == 0 {
      assert list[..j] == list;
    } else if mem.recs[list[j]].key != proc.op.key {
      LacksOne(mem, list, j, proc.op.key);
    }
  }

  lemma WalkBound(mem: Mem, s: nat, j: nat, place: Place, off: nat)
    requires Sizes(mem) && s < SLOTS && AtPos(mem, s, j, place, off)
    ensures j <= |mem.lists[s]|
  {
  }

  lemma ScanKnows(mem: Mem, p: nat, proc: Proc)
    requires MemOk(mem) && Local(mem, p, proc) && proc.pc.Scan?
    ensures Local(mem, p, ScanStep(mem, proc, proc.pc.front, proc.pc.j, proc.pc.place, proc.pc.off))
  {
    hide AllBlank, DbContents.Hash, CellsOk, SlotOk, Target, Lacks, AtPos;
    var j, place, off := proc.pc.j, proc.pc.place, proc.pc.off;
    WalkBound(mem, 0, j, place, off);
    ListAt(mem, 0, j, place, off);
    if off != 0 {
      FreeBlank(mem, j);
    }
  }

  lemma FreeBlank(mem: Mem, j: nat)
    requires MemOk(mem) && j < |mem.lists[0]|
    ensures mem.lists[0][j] < |mem.recs| && AllBlank(mem.recs[mem.lists[0][j]].key)
  {
    assert SlotOk(mem, 0);
  }

  /** The head of a list with no write pending is its first record. */
  lemma HeadKnows(mem: Mem, s: nat)
    requires MemOk(mem) && s < SLOTS && mem.patch[s] == None
    ensures AtPos(mem, s, 0, Head(s), HeadOf(mem, s))
  {
    assert SlotOk(mem, s);
  }

  /** Steps that write to the index file, or append to the data file. */
  predicate Writes(pc: Pc) {
    pc.BlankIdx? || pc.LinkFree? || pc.Bypass? || pc.TakeFree? || pc.ReuseIdx? || pc.LinkChain? || pc.AppendDat?
    || pc.AppendIdx?
  }

  lemma LocalFits(mem: Mem, p: nat, proc: Proc)
    requires Sizes(mem) && Local(mem, p, proc)
    ensures OpFits(proc.op, proc.pc)
  {
  }

  /** A search starts at the head of a list. */
  lemma SearchKnows(mem: Mem, p: nat, proc: Proc, op: Op)
    requires MemOk(mem) && Local(mem, p, proc) && (proc.pc.WalkHead? || proc.pc.ScanHead?)
    ensures Local(mem, p, ProcAfter(mem, proc, op))
  {
    hide SlotOk, CellsOk, AllBlank, DbContents.Hash, Target;
    if proc.pc.WalkHead? {
      HeadKnows(mem, proc.op.Slot());
      assert mem.lists[proc.op.Slot()][..0] == [];
    } else {
      HeadKnows(mem, 0);
    }
  }

  /** What a process knows of the index file after any other step. */
  lemma ReadKnows(mem: Mem, p: nat, proc: Proc, op: Op)
    requires MemOk(mem) && Local(mem, p, proc) && !Writes(proc.pc)
    requires proc.pc.WantChain? ==> mem.patch[proc.op.Slot()] == None
    ensures Local(mem, p, ProcAfter(mem, proc, op))
  {
    hide MemOk, Local, InDeletion, InInsertion;
    OkSizes(mem);
    LocalFits(mem, p, proc);
    if proc.pc.WalkHead? || proc.pc.ScanHead? {
      SearchKnows(mem, p, proc, op);
    } else if proc.pc.Walk? {
      WalkKnows(mem, p, proc);
    } else if proc.pc.Scan? {
      ScanKnows(mem, p, proc);
    } else if InDeletion(proc.pc) {
      DeletionKnows(mem, p, proc, op);
    } else if InInsertion(proc.pc) {
      InsertionKnows(mem, p, proc, op);
    } else {
      PlainKnows(mem, p, proc, op);
    }
  }

  predicate InDeletion(pc: Pc) {
    pc.WantFreeDel? || pc.BlankData? || pc.ReadFreePtr? || pc.FreeDone?
  }

  predicate InInsertion(pc: Pc) {
    pc.ReadFront? || pc.WantFree? || pc.ReuseUnlock? || pc.ReuseData? || pc.ScanFail? || pc.WantDat? || pc.DatUnlock?
    || pc.WantEnd? || pc.EndUnlock?
  }

  lemma DeletionKnows(mem: Mem, p: nat, proc: Proc, op: Op)
    requires MemOk(mem) && Local(mem, p, proc) && InDeletion(proc.pc)
    ensures Local(mem, p, ProcAfter(mem, proc, op))
  {
    hide SlotOk, CellsOk, AllBlank, DbContents.Hash, Lacks, Target;
  }

  lemma InsertionKnows(mem: Mem, p: nat, proc: Proc, op: Op)
    requires MemOk(mem) && Local(mem, p, proc) && InInsertion(proc.pc)
    ensures Local(mem, p, ProcAfter(mem, proc, op))
  {
    hide SlotOk, CellsOk, AllBlank, DbContents.Hash, Lacks, Target;
  }

  lemma PlainKnows(mem: Mem, p: nat, proc: Proc, op: Op)
    requires MemOk(mem) && Local(mem, p, proc) && !Writes(proc.pc) && !InDeletion(proc.pc) && !InInsertion(proc.pc)
    requires !proc.pc.WalkHead? && !proc.pc.Walk? && !proc.pc.ScanHead? && !proc.pc.Scan?
    requires proc.pc.WantChain? ==> mem.patch[proc.op.Slot()] == None
    ensures Local(mem, p, ProcAfter(mem, proc, op))
  {
    hide SlotOk, CellsOk, AllBlank, DbContents.Hash, Lacks, Target;
  }

  // ----- the process that writes

  lemma BlankLength(s: string)
    ensures AllBlank(Blank(s))
  {
  }

  /** With a record taken off the chain, its key is on no other. */
  lemma LacksWithout(mem: Mem, recs': seq<Node>, s: nat, j: nat)
    requires MemOk(mem) && 1 <= s < SLOTS && j < |mem.lists[s]| && |recs'| == |mem.recs|
    requires mem.lists[s][j] < |mem.recs|
    requires forall i :: 0 <= i < |mem.recs| && i != mem.lists[s][j] ==> recs'[i].key == mem.recs[i].key
    ensures Lacks(mem.(recs := recs'), Without(mem.lists[s], j), mem.recs[mem.lists[s][j]].key)
  {
    var list := mem.lists[s];
    var r := Without(list, j);
    assert SlotOk(mem, s);
    OnSlot(mem, s, j);
    forall k | 0 <= k < |r|
      ensures r[k] < |recs'| && recs'[r[k]].key != mem.recs[list[j]].key
    {
      var k0 := if k < j then k else k + 1;
      assert r[k] == list[k0];
      assert if k0 < j then mem.recs[list[k0]].key != mem.recs[list[j]].key
             else mem.recs[list[j]].key != mem.recs[list[k0]].key;
    }
  }

  lemma BlankIdxKnows(mem: Mem, p: nat, proc: Proc, op: Op)
    requires MemOk(mem) && Local(mem, p, proc) && proc.pc.BlankIdx?
    requires Sizes(MemAfter(mem, p, proc))
    ensures Local(MemAfter(mem, p, proc), p, ProcAfter(mem, proc, op))
  {
    hide SlotOk, CellsOk, AllBlank, DbContents.Hash;
    var s, j, i := proc.op.Slot(), proc.pc.j, proc.pc.i;
    var mem' := MemAfter(mem, p, proc);
    BlankLength(mem.recs[i].key);
    LacksWithout(mem, mem'.recs, s, j);
  }

  /** Steps that make a record in hand part of a list, or the pending write: what is known of the chain's keys stays. */
  lemma LinkKnows(mem: Mem, p: nat, proc: Proc, op: Op)
    requires MemOk(mem) && Local(mem, p, proc) && (proc.pc.LinkFree? || proc.pc.LinkChain? || proc.pc.Bypass?)
    requires Sizes(MemAfter(mem, p, proc))
    ensures Local(MemAfter(mem, p, proc), p, ProcAfter(mem, proc, op))
  {
    hide SlotOk, CellsOk, AllBlank, DbContents.Hash, Target;
  }

  lemma TakeFreeKnows(mem: Mem, p: nat, proc: Proc, op: Op)
    requires MemOk(mem) && Local(mem, p, proc) && proc.pc.TakeFree?
    requires Sizes(MemAfter(mem, p, proc))
    ensures Local(MemAfter(mem, p, proc), p, ProcAfter(mem, proc, op))
  {
    hide SlotOk, CellsOk, AllBlank, DbContents.Hash, Target;
    assert SlotOk(mem, 0);
    OnSlot(mem, 0, proc.pc.j);
  }

  lemma ReuseIdxKnows(mem: Mem, p: nat, proc: Proc, op: Op)
    requires MemOk(mem) && Local(mem, p, proc) && proc.pc.ReuseIdx?
    requires Sizes(MemAfter(mem, p, proc))
    ensures Local(MemAfter(mem, p, proc), p, ProcAfter(mem, proc, op))
  {
    hide SlotOk, CellsOk, AllBlank, DbContents.Hash, Target;
    var s := proc.op.Slot();
    forall k | 0 <= k < |mem.lists[s]|
      ensures mem.lists[s][k] != proc.pc.i
    {
      assert SlotOk(mem, s);
      OnSlot(mem, s, k);
    }
  }

  lemma AppendKnows(mem: Mem, p: nat, proc: Proc, op: Op)
    requires MemOk(mem) && Local(mem, p, proc) && (proc.pc.AppendDat? || proc.pc.AppendIdx?)
    requires Sizes(MemAfter(mem, p, proc))
    ensures Local(MemAfter(mem, p, proc), p, ProcAfter(mem, proc, op))
  {
    hide SlotOk, AllBlank, DbContents.Hash, Target;
  }

  /** What is known of the index file does not depend on the data. */
  lemma SameIndexKnows(mem: Mem, mem': Mem, p: nat, proc: Proc)
    requires Sizes(mem) && Local(mem, p, proc) && mem' == mem.(data := mem'.data, log := mem'.log)
    requires |mem'.data| >= |mem.data|
    ensures Local(mem', p, proc)
  {
    hide AllBlank, Target, DbContents.Hash;
  }

  lemma QuietKnows(mem: Mem, p: nat, proc: Proc, op: Op)
    requires MemOk(mem) && Local(mem, p, proc) && !Writes(proc.pc) && Sizes(MemAfter(mem, p, proc))
    requires proc.pc.WantChain? ==> mem.patch[proc.op.Slot()] == None
    ensures Local(MemAfter(mem, p, proc), p, ProcAfter(mem, proc, op))
  {
    hide MemOk, Local, ProcAfter;
    OkSizes(mem);
    LocalFits(mem, p, proc);
    ReadKnows(mem, p, proc, op);
    if DataStep(proc.pc) {
      DataShape(mem, p, proc);
      SameIndexKnows(mem, MemAfter(mem, p, proc), p, ProcAfter(mem, proc, op));
    }
  }

  lemma SelfKnows(mem: Mem, p: nat, proc: Proc, op: Op)
    requires MemOk(mem) && Local(mem, p, proc) && Sizes(MemAfter(mem, p, proc))
    requires proc.pc.WantChain? ==> mem.patch[proc.op.Slot()] == None
    ensures Local(MemAfter(mem, p, proc), p, ProcAfter(mem, proc, op))
  {
    hide MemOk, Local, MemAfter, ProcAfter;
    match proc.pc
    case BlankIdx(_, _, _, _, _) => BlankIdxKnows(mem, p, proc, op);
    case LinkFree(_, _, _) => LinkKnows(mem, p, proc, op);
    case LinkChain(_) => LinkKnows(mem, p, proc, op);
    case Bypass(_, _) => LinkKnows(mem, p, proc, op);
    case TakeFree(_, _, _, _, _) => TakeFreeKnows(mem, p, proc, op);
    case ReuseIdx(_, _) => ReuseIdxKnows(mem, p, proc, op);
    case AppendDat(_) => AppendKnows(mem, p, proc, op);
    case AppendIdx(_, _) => AppendKnows(mem, p, proc, op);
    case _ => QuietKnows(mem, p, proc, op);
  }
}
