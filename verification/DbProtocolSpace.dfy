/** How the multi-process protocol uses the space of deleted records: a store that inserts takes the first free record
  of exactly the lengths it needs, and makes the files longer only when there is none, or when it replaces a record by
  one of another length. */
module DbProtocolSpace {
  import opened DbText
  import opened DbLayout
  import opened DbChains
  import DbContents
  import opened DbCalls
  import opened DbProtocol
  import opened DbProtocolInvariant
  import opened DbProtocolMemory
  import opened DbProtocolSteps
  import opened DbProtocolTheorems
  import opened DbProtocolData

  /** Record i has exactly the lengths that the store needs. */
  predicate Fits(mem: Mem, op: Op, i: nat) {
    op.Store? && i < |mem.recs| && |mem.recs[i].key| == |op.key| && mem.recs[i].len == |op.data| + 1
  }

  predicate NoneFits(mem: Mem, op: Op, list: seq<nat>) {
    forall k :: 0 <= k < |list| ==> !Fits(mem, op, list[k])
  }

  /** What a search of the free list has established. */
  predicate Searched(mem: Mem, op: Op, pc: Pc)
    requires Sizes(mem)
  {
    match pc
    case Scan(_, j, _, _) => j <= |mem.lists[0]| ==> NoneFits(mem, op, mem.lists[0][..j])
    case TakeFree(_, j, _, i, _) =>
      j < |mem.lists[0]| && NoneFits(mem, op, mem.lists[0][..j]) && i == mem.lists[0][j] && Fits(mem, op, i)
    case ScanFail(_) => NoneFits(mem, op, mem.lists[0])
    case _ => true
  }

  /** The points of a store that has deleted the record of its key, and of one that inserts. */
  predicate Replacing(op: Op, pc: Pc) {
    && op.Store?
    && (pc.ReadFreePtr? || pc.BlankIdx? || pc.LinkFree? || pc.Bypass? || pc.FreeDone? || pc == ReadFront(true))
  }

  predicate Inserting(pc: Pc) {
    pc == ReadFront(false) || pc.WantFree? || pc.ScanHead? || pc.Scan? || pc.TakeFree? || pc.ScanFail?
  }

  /** A store that replaces does so because the map has the key, and one that inserts because it has not. */
  predicate KeyKnown(mem: Mem, op: Op, pc: Pc) {
    && (Replacing(op, pc) ==> Get(Entries(mem.log), op.key).Some?)
    && (Inserting(pc) && !op.NextRec? ==> Get(Entries(mem.log), op.key).None?)
  }

  ghost predicate SpaceInv(sys: Sys)
    requires Sizes(sys.mem)
  {
    forall p :: 0 <= p < |sys.procs| ==>
      Searched(sys.mem, sys.procs[p].op, sys.procs[p].pc) && KeyKnown(sys.mem, sys.procs[p].op, sys.procs[p].pc)
  }

  // ----- the search of the free list

  lemma ScanSearches(mem: Mem, p: nat, proc: Proc)
    requires MemOk(mem) && Local(mem, p, proc) && proc.pc.Scan? && Searched(mem, proc.op, proc.pc)
    ensures var next := ScanStep(mem, proc, proc.pc.front, proc.pc.j, proc.pc.place, proc.pc.off);
            next.op == proc.op && Searched(mem, proc.op, next.pc)
  {
    hide AllBlank, DbContents.Hash, CellsOk, SlotOk, Lacks, Spells, NewKey, AtPos;
    OkSizes(mem);
    var list, j := mem.lists[0], proc.pc.j;
    WalkBound(mem, 0, j, proc.pc.place, proc.pc.off);
    ListAt(mem, 0, j, proc.pc.place, proc.pc.off);
    if proc.pc.off == 0 {
      assert list[..j] == list;
    } else {
      assert list[..j + 1] == list[..j] + [list[j]];
    }
  }

  lemma SelfSearched(mem: Mem, p: nat, proc: Proc, op: Op)
    requires MemOk(mem) && Local(mem, p, proc) && Searched(mem, proc.op, proc.pc)
    requires Sizes(MemAfter(mem, p, proc))
    ensures OpFits(proc.op, proc.pc)
    ensures var next := ProcAfter(mem, proc, op);
            Searched(MemAfter(mem, p, proc), next.op, next.pc)
  {
    LocalFits(mem, p, proc);
    if proc.pc.Scan? {
      ScanSearches(mem, p, proc);
    } else {
      OthersSearch(mem, p, proc, op);
    }
  }

  lemma OthersSearch(mem: Mem, p: nat, proc: Proc, op: Op)
    requires Sizes(mem) && OpFits(proc.op, proc.pc) && !proc.pc.Scan? && Sizes(MemAfter(mem, p, proc))
    ensures var next := ProcAfter(mem, proc, op);
            Searched(MemAfter(mem, p, proc), next.op, next.pc)
  {
    hide MemAfter, AllBlank, DbContents.Hash, NoneFits, Fits;
    assert NoneFits(MemAfter(mem, p, proc), proc.op, []) by {
      NothingFits(MemAfter(mem, p, proc), proc.op);
    }
    assert MemAfter(mem, p, proc).lists[0][..0] == [];
  }

  lemma NothingFits(mem: Mem, op: Op)
    ensures NoneFits(mem, op, [])
  {
  }

  /** The free list stays as it is while somebody searches it. */
  lemma SearchedKept(mem: Mem, mem': Mem, op: Op, pc: Pc)
    requires Sizes(mem) && Sizes(mem') && ListKept(mem, mem', 0) && Searched(mem, op, pc)
    ensures Searched(mem', op, pc)
  {
  }

  // ----- the key

  lemma Found(mem: Mem, p: nat, proc: Proc)
    requires MemOk(mem) && Local(mem, p, proc) && DataLocal(mem, proc) && proc.pc.BlankData?
    ensures Get(Entries(mem.log), proc.op.key).Some?
  {
    hide CellsOk, SlotOk, Target, Shows, Bears, Entries, DbContents.Hash, Reply, After;
    OkSizes(mem);
    var s, j := proc.op.Slot(), proc.pc.j;
    ListBears(mem, s, j, proc.op.key);
    ShowsSome(mem, proc.op.key, Get(Entries(mem.log), proc.op.key), proc.pc.i);
  }

  lemma NotFound(mem: Mem, p: nat, proc: Proc)
    requires MemOk(mem) && Local(mem, p, proc) && DataLocal(mem, proc) && proc.pc.Walk? && proc.pc.off == 0
    ensures Get(Entries(mem.log), proc.op.key).None?
  {
    hide CellsOk, SlotOk, Target, AtPos, Shows, Bears, Entries, DbContents.Hash, Reply, After;
    OkSizes(mem);
    var s, j := proc.op.Slot(), proc.pc.j;
    WalkBound(mem, s, j, proc.pc.place, proc.pc.off);
    ListAt(mem, s, j, proc.pc.place, proc.pc.off);
    assert mem.lists[s][..j] == mem.lists[s];
    LacksBears(mem, proc.op.key);
    ShowsNone(mem, proc.op.key, Get(Entries(mem.log), proc.op.key));
  }

  lemma SelfKeyKnown(mem: Mem, p: nat, proc: Proc, op: Op)
    requires MemOk(mem) && Local(mem, p, proc) && DataLocal(mem, proc) && KeyKnown(mem, proc.op, proc.pc)
    ensures OpFits(proc.op, proc.pc)
    ensures KeyKnown(MemAfter(mem, p, proc), ProcAfter(mem, proc, op).op, ProcAfter(mem, proc, op).pc)
  {
    hide MemOk, Local, DataLocal, Entries, MemAfter, ProcAfter;
    OkSizes(mem);
    LocalFits(mem, p, proc);
    if proc.pc.BlankData? {
      Found(mem, p, proc);
    } else if proc.pc.Walk? && proc.pc.off == 0 {
      NotFound(mem, p, proc);
    }
    KeyStep(mem, p, proc, op);
  }

  lemma KeyStep(mem: Mem, p: nat, proc: Proc, op: Op)
    requires OpFits(proc.op, proc.pc) && KeyKnown(mem, proc.op, proc.pc)
    requires proc.pc.BlankData? ==> Get(Entries(mem.log), proc.op.key).Some?
    requires proc.pc.Walk? && proc.pc.off == 0 ==> Get(Entries(mem.log), proc.op.key).None?
    ensures KeyKnown(MemAfter(mem, p, proc), ProcAfter(mem, proc, op).op, ProcAfter(mem, proc, op).pc)
  {
    hide Entries, AllBlank, DbContents.Hash, Get, Blanked, Linked, Taken, WritePtr, WriteData;
    if !proc.pc.Release? {
      LogSame(mem, p, proc);
    }
  }

  lemma LogSame(mem: Mem, p: nat, proc: Proc)
    requires !proc.pc.Release?
    ensures MemAfter(mem, p, proc).log == mem.log
  {
  }

  // ----- every step

  lemma OthersSpace(sys: Sys, p: nat, op: Op, q: nat)
    requires Inv(sys) && DataInv(sys) && Enabled(sys, p) && q < |sys.procs| && q != p
    requires OpFits(sys.procs[p].op, sys.procs[p].pc)
    requires Sizes(sys.mem) && Searched(sys.mem, sys.procs[q].op, sys.procs[q].pc)
    requires KeyKnown(sys.mem, sys.procs[q].op, sys.procs[q].pc)
    ensures Sizes(Exec(sys, p, op).mem) && Searched(Exec(sys, p, op).mem, sys.procs[q].op, sys.procs[q].pc)
    ensures KeyKnown(Exec(sys, p, op).mem, sys.procs[q].op, sys.procs[q].pc)
  {
    hide MemOk, OwnerOk, PatchOk, PcOk, ListKept, MemAfter, ProcAfter, Entries, DbContents.Hash, NoneFits, Fits;
    StepKeepsInv(sys, p, op);
    OkSizes(sys.mem);
    OkSizes(Exec(sys, p, op).mem);
    var b := sys.procs[q];
    assert Local(sys.mem, q, b) && Local(sys.mem, p, sys.procs[p]) && Compatible(sys.procs[p], b);
    if b.pc.Scan? || b.pc.TakeFree? || b.pc.ScanFail? {
      Isolation(sys, p, op, q, 0);
      SearchedKept(sys.mem, Exec(sys, p, op).mem, b.op, b.pc);
    }
    if Replacing(b.op, b.pc) || (Inserting(b.pc) && !b.op.NextRec?) {
      assert !Alters(sys.procs[p], b.op.key);
      Unaltered(sys.mem, p, sys.procs[p], b.op.key);
      KeptGet(sys.mem, Exec(sys, p, op).mem, b.op.key);
    }
  }

  lemma InvSizes(sys: Sys)
    requires Inv(sys)
    ensures Sizes(sys.mem)
  {
    hide Local, OwnerOk, PatchOk, Compatible;
    OkSizes(sys.mem);
  }

  lemma StepKeepsSpace(sys: Sys, p: nat, op: Op)
    requires Inv(sys) && DataInv(sys) && Enabled(sys, p) && OpFits(sys.procs[p].op, sys.procs[p].pc)
    requires Sizes(sys.mem) && SpaceInv(sys)
    ensures Sizes(Exec(sys, p, op).mem) && SpaceInv(Exec(sys, p, op))
  {
    hide MemOk, OwnerOk, PatchOk, PcOk, MemAfter, ProcAfter, Entries, Searched, KeyKnown, Local, DataLocal;
    StepKeepsInv(sys, p, op);
    assert Sizes(Exec(sys, p, op).mem) by {
      InvSizes(Exec(sys, p, op));
    }
    var mem, proc := sys.mem, sys.procs[p];
    assert Local(mem, p, proc) && DataLocal(mem, proc);
    SelfSearched(mem, p, proc, op);
    SelfKeyKnown(mem, p, proc, op);
    forall q | 0 <= q < |sys.procs| && q != p
      ensures Searched(Exec(sys, p, op).mem, sys.procs[q].op, sys.procs[q].pc)
      ensures KeyKnown(Exec(sys, p, op).mem, sys.procs[q].op, sys.procs[q].pc)
    {
      OthersSpace(sys, p, op, q);
    }
  }

  lemma {:induction false} RunsKeepSpace(sys: Sys, choices: seq<Choice>, end: Sys)
    requires Inv(sys) && DataInv(sys) && Legal(sys.mem.log) && Runs(sys, choices, end)
    requires Sizes(sys.mem) && SpaceInv(sys)
    ensures Inv(end) && DataInv(end) && Sizes(end.mem) && SpaceInv(end)
    decreases |choices|
  {
    hide Inv, DataInv, Legal, SpaceInv, Sizes;
    if choices != [] {
      var c := choices[0];
      StepKeepsInv(sys, c.p, c.op);
      StepKeepsData(sys, c.p, c.op);
      LogStep(sys, c.p, c.op);
      StepKeepsSpace(sys, c.p, c.op);
      RunsKeepSpace(Exec(sys, c.p, c.op), choices[1..], end);
    }
  }

  lemma StartsKnown(n: nat)
    ensures Sizes(Init(n).mem) && SpaceInv(Init(n))
  {
    hide Entries;
  }

  // ----- what it means

  /** Record i is on the free list. */
  predicate Free(mem: Mem, i: nat) {
    i < |mem.recs| && i < |mem.owner| && mem.owner[i] == 0
  }

  /** No record of the free list fits, wherever it is on the list. */
  lemma NoFreeFits(sys: Sys, op: Op)
    requires Inv(sys) && Sizes(sys.mem) && NoneFits(sys.mem, op, sys.mem.lists[0])
    ensures forall i :: Free(sys.mem, i) ==> !Fits(sys.mem, op, i)
  {
    hide MemOk, PatchOk, Local, Compatible, Fits;
    forall i | Free(sys.mem, i)
      ensures !Fits(sys.mem, op, i)
    {
      assert OwnerOk(sys, i);
      var k :| 0 <= k < |sys.mem.lists[0]| && sys.mem.lists[0][k] == i;
    }
  }

  /** The map has the key of the call. */
  predicate Stored(mem: Mem, op: Op) {
    !op.NextRec? && Get(Entries(mem.log), op.key).Some?
  }

  /** Record i, at place j of the free list, is the first there that fits. */
  ghost predicate FirstFit(mem: Mem, op: Op, j: nat, i: nat) {
    && |mem.lists| == SLOTS && j < |mem.lists[0]| && i == mem.lists[0][j] && Fits(mem, op, i)
    && forall k :: 0 <= k < j ==> !Fits(mem, op, mem.lists[0][k])
  }

  /** In every interleaving: a record is taken off the free list only by a store of a key that the map lacks, and is the
    first there of exactly the lengths it needs. The files are made longer only by a store of such a key when no free
    record fits, or by one that replaces the data of its key. */
  lemma SpaceIsReused(n: nat, choices: seq<Choice>, sys: Sys, p: nat, op: Op)
    requires Runs(Init(n), choices, sys) && Enabled(sys, p)
    ensures OpFits(sys.procs[p].op, sys.procs[p].pc) && Sizes(sys.mem)
    ensures var mem, call, pc := sys.mem, sys.procs[p].op, sys.procs[p].pc;
            && (pc.TakeFree? ==> !Stored(mem, call) && FirstFit(mem, call, pc.j, pc.i))
            && (ProcAfter(mem, sys.procs[p], op).pc.WantDat? ==>
                  Stored(mem, call) || (pc.ScanFail? && forall i :: Free(mem, i) ==> !Fits(mem, call, i)))
  {
    hide DataInv, Runs, Legal, MemOk, OwnerOk, PatchOk, PcOk, Compatible, Entries, DbContents.Hash, Fits;
    StartsRight(n);
    StartsKnown(n);
    RunsKeepSpace(Init(n), choices, sys);
    var mem, proc := sys.mem, sys.procs[p];
    assert Local(mem, p, proc);
    assert Searched(mem, proc.op, proc.pc) && KeyKnown(mem, proc.op, proc.pc);
    if proc.pc.ScanFail? {
      NoFreeFits(sys, proc.op);
    }
    if ProcAfter(mem, proc, op).pc.WantDat? {
      WantsDat(mem, proc, op);
    }
  }

  lemma WantsDat(mem: Mem, proc: Proc, op: Op)
    requires OpFits(proc.op, proc.pc) && ProcAfter(mem, proc, op).pc.WantDat?
    ensures proc.op.Store? && (proc.pc.ScanFail? || proc.pc == ReadFront(true))
  {
    hide AllBlank, DbContents.Hash;
  }
}
