/** The calls of the multi-process protocol come to an end: a process that nobody keeps waiting finishes its call, with
  the answer that the map has for it; and readers never wait for each other. */
module DbProtocolEnds {
  import opened DbText
  import opened DbLayout
  import opened DbChains
  import DbContents
  import opened DbCalls
  import opened DbProtocol
  import opened DbProtocolInvariant
  import opened DbProtocolMemory
  import opened DbProtocolSteps
  import opened DbProtocolTheorems
  import opened DbProtocolData

  // ----- readers

  /** A call that only reads. */
  predicate Reader(op: Op) {
    op.Fetch? || op.NextRec?
  }

  /** Fetches and sequential readers never wait for each other, only for a process that deletes or stores. */
  lemma ReadersShare(sys: Sys, p: nat, h: nat)
    requires Inv(sys) && InTheWay(sys, p, h) && Reader(sys.procs[p].op)
    ensures sys.procs[h].op.Delete? || sys.procs[h].op.Store?
  {
    hide MemOk, PcOk, OwnerOk, PatchOk, Compatible;
    OkSizes(sys.mem);
    assert Local(sys.mem, p, sys.procs[p]) && Local(sys.mem, h, sys.procs[h]);
  }

  // ----- how many steps are left

  /** No call takes more steps of its own than this, as long as the lists stay as they are. */
  function StepsLeft(mem: Mem, proc: Proc): int
    requires Sizes(mem) && proc.op.Slot() < SLOTS
  {
    var c, f := |mem.lists[proc.op.Slot()]|, |mem.lists[0]|;
    match proc.pc
    case Idle => 0
    case Dumped => 0
    case Release(_) => 1
    case FetchData(_, _) => 2
    case Overwrite(_, _) => 2
    case LinkChain(_) => 2
    case EndUnlock(_) => 3
    case AppendIdx(_, _) => 4
    case WantEnd(_, _) => 5
    case DatUnlock(_, _) => 6
    case AppendDat(_) => 7
    case WantDat(_) => 8
    case ScanFail(_) => 9
    case ReuseIdx(_, _) => 3
    case ReuseData(_, _) => 4
    case ReuseUnlock(_, _) => 5
    case TakeFree(_, _, _, _, _) => 6
    case Scan(_, j, _, _) => 10 + f - j
    case ScanHead(_) => 11 + f
    case WantFree(_) => 12 + f
    case ReadFront(_) => 13 + f
    case FreeDone => 14 + f
    case Bypass(_, _) => 15 + f
    case LinkFree(_, _, _) => 17 + f
    case BlankIdx(_, _, _, _, _) => 18 + f
    case ReadFreePtr(_, _, _, _) => 19 + f
    case BlankData(_, _, _, _) => 20 + f
    case WantFreeDel(_, _, _, _) => 21 + f
    case Walk(j, _, _) => 22 + f + c - j
    case WalkHead => 23 + f + c
    case WantChain => 24 + f + c
    case NrRelease => 1
    case NrData(_) => 2
    case NrRead(n) => 3 + if n < |mem.recs| then |mem.recs| - n else 0
    case NrWant(n) => 4 + if n < |mem.recs| then |mem.recs| - n else 0
  }

  lemma WalkShortens(mem: Mem, p: nat, proc: Proc)
    requires MemOk(mem) && Local(mem, p, proc) && (proc.pc.Walk? || proc.pc.Scan?)
    ensures Sizes(mem) && proc.op.Slot() < SLOTS && OpFits(proc.op, proc.pc)
    ensures forall op :: 0 <= StepsLeft(mem, ProcAfter(mem, proc, op)) < StepsLeft(mem, proc)
  {
    hide AllBlank, DbContents.Hash, CellsOk, SlotOk, Lacks, Spells;
    OkSizes(mem);
    if proc.pc.Walk? {
      ListAt(mem, proc.op.Slot(), proc.pc.j, proc.pc.place, proc.pc.off);
    } else {
      ListAt(mem, 0, proc.pc.j, proc.pc.place, proc.pc.off);
    }
  }

  /** A step of its own leaves a process with fewer to go. */
  lemma StepShortens(sys: Sys, p: nat, op: Op)
    requires Inv(sys) && Enabled(sys, p) && !sys.procs[p].pc.Idle?
    ensures OpFits(sys.procs[p].op, sys.procs[p].pc) && Inv(Exec(sys, p, op))
    ensures Sizes(sys.mem) && sys.procs[p].op.Slot() < SLOTS && Sizes(Exec(sys, p, op).mem)
    ensures Exec(sys, p, op).procs[p].op == sys.procs[p].op
    ensures 0 <= StepsLeft(Exec(sys, p, op).mem, Exec(sys, p, op).procs[p]) < StepsLeft(sys.mem, sys.procs[p])
  {
    hide MemOk, OwnerOk, PatchOk, Compatible, PcOk;
    StepKeepsInv(sys, p, op);
    var mem, proc := sys.mem, sys.procs[p];
    OkSizes(mem);
    OkSizes(Exec(sys, p, op).mem);
    assert Local(mem, p, proc);
    if proc.pc.Walk? || proc.pc.Scan? {
      WalkShortens(mem, p, proc);
    } else if proc.pc.BlankIdx? || proc.pc.TakeFree? {
      UnlinkShortens(mem, p, proc, op);
    } else if Relinks(proc.pc) {
      RelinkShortens(mem, p, proc, op);
    } else {
      PlainShortens(mem, p, proc, op);
    }
  }

  /** The steps that move a record to or from a list. */
  predicate Relinks(pc: Pc) {
    pc.BlankIdx? || pc.LinkFree? || pc.Bypass? || pc.TakeFree? || pc.LinkChain? || pc.AppendIdx?
  }

  lemma UnlinkShortens(mem: Mem, p: nat, proc: Proc, op: Op)
    requires Sizes(mem) && Local(mem, p, proc) && Sizes(MemAfter(mem, p, proc))
    requires proc.pc.BlankIdx? || proc.pc.TakeFree?
    ensures ProcAfter(mem, proc, op).op == proc.op
    ensures 0 <= StepsLeft(MemAfter(mem, p, proc), ProcAfter(mem, proc, op)) < StepsLeft(mem, proc)
  {
    hide AllBlank, DbContents.Hash, Lacks, Target, PcOk;
  }

  lemma RelinkShortens(mem: Mem, p: nat, proc: Proc, op: Op)
    requires Sizes(mem) && Local(mem, p, proc) && Sizes(MemAfter(mem, p, proc)) && Relinks(proc.pc)
    requires !proc.pc.BlankIdx? && !proc.pc.TakeFree?
    ensures ProcAfter(mem, proc, op).op == proc.op
    ensures 0 <= StepsLeft(MemAfter(mem, p, proc), ProcAfter(mem, proc, op)) < StepsLeft(mem, proc)
  {
    hide AllBlank, DbContents.Hash, Lacks, Target, PcOk;
  }

  lemma PlainShortens(mem: Mem, p: nat, proc: Proc, op: Op)
    requires Sizes(mem) && Local(mem, p, proc) && Sizes(MemAfter(mem, p, proc))
    requires !proc.pc.Walk? && !proc.pc.Scan? && !proc.pc.Idle? && !Relinks(proc.pc)
    ensures ProcAfter(mem, proc, op).op == proc.op
    ensures 0 <= StepsLeft(MemAfter(mem, p, proc), ProcAfter(mem, proc, op)) < StepsLeft(mem, proc)
  {
    hide PcOk, MemAfter, ProcAfter, StepsLeft;
    ListsSame(mem, p, proc);
    LeftSame(mem, MemAfter(mem, p, proc), ProcAfter(mem, proc, op));
    NotDumped(mem, proc);
    ReadShortens(mem, proc, op);
  }

  lemma LeftSame(mem: Mem, mem': Mem, proc: Proc)
    requires Sizes(mem) && Sizes(mem') && mem'.lists == mem.lists && |mem'.recs| == |mem.recs|
    requires proc.op.Slot() < SLOTS
    ensures StepsLeft(mem', proc) == StepsLeft(mem, proc)
  {
  }

  lemma ReadShortens(mem: Mem, proc: Proc, op: Op)
    requires Sizes(mem) && proc.op.Slot() < SLOTS && OpFits(proc.op, proc.pc)
    requires !proc.pc.Walk? && !proc.pc.Scan? && !proc.pc.Idle? && !proc.pc.Dumped? && !Relinks(proc.pc)
    ensures ProcAfter(mem, proc, op).op == proc.op
    ensures 0 <= StepsLeft(mem, ProcAfter(mem, proc, op)) < StepsLeft(mem, proc)
  {
    hide AllBlank, DbContents.Hash, HeadOf, DataOf, Missing;
    if InDeletion(proc.pc) {
      DeletionShortens(mem, proc, op);
    } else if InInsertion(proc.pc) {
      InsertionShortens(mem, proc, op);
    }
  }

  lemma DeletionShortens(mem: Mem, proc: Proc, op: Op)
    requires Sizes(mem) && proc.op.Slot() < SLOTS && OpFits(proc.op, proc.pc) && InDeletion(proc.pc)
    requires !Relinks(proc.pc)
    ensures ProcAfter(mem, proc, op).op == proc.op
    ensures 0 <= StepsLeft(mem, ProcAfter(mem, proc, op)) < StepsLeft(mem, proc)
  {
    hide DbContents.Hash, HeadOf;
  }

  lemma InsertionShortens(mem: Mem, proc: Proc, op: Op)
    requires Sizes(mem) && proc.op.Slot() < SLOTS && OpFits(proc.op, proc.pc) && InInsertion(proc.pc)
    requires !proc.pc.Scan? && !Relinks(proc.pc)
    ensures ProcAfter(mem, proc, op).op == proc.op
    ensures 0 <= StepsLeft(mem, ProcAfter(mem, proc, op)) < StepsLeft(mem, proc)
  {
    hide DbContents.Hash, HeadOf;
  }

  lemma NotDumped(mem: Mem, proc: Proc)
    requires Sizes(mem) && proc.op.Slot() < SLOTS && OpFits(proc.op, proc.pc)
    ensures PcOk(mem, proc.op, proc.pc) ==> !proc.pc.Dumped?
  {
  }

  // ----- sequential reading

  function StepsOf(p: nat, op: Op, n: nat): (choices: seq<Choice>)
    ensures |choices| == n
  {
    seq(n, _ => Choice(p, op))
  }

  /** A sequential reader comes to the first record from its place on that is not blank, and none is passed over; if
    there is none it is at the end of the file. */
  lemma {:induction false} NextRecFinds(sys: Sys, p: nat, op: Op, n: nat)
    requires p < |sys.procs| && sys.procs[p].pc.NrRead? && sys.procs[p].op.NextRec?
    requires sys.procs[p].pc.n <= n && (n < |sys.mem.recs| || n == sys.procs[p].pc.n || n == |sys.mem.recs|)
    requires forall i :: sys.procs[p].pc.n <= i < n ==> i < |sys.mem.recs| && AllBlank(sys.mem.recs[i].key)
    requires n < |sys.mem.recs| ==> !AllBlank(sys.mem.recs[n].key)
    ensures Runs(sys, StepsOf(p, op, n - sys.procs[p].pc.n + 1),
      sys.(procs := sys.procs[p := Go(sys.procs[p], if n < |sys.mem.recs| then NrData(n) else NrRelease)]))
    decreases n - sys.procs[p].pc.n
  {
    hide AllBlank;
    var k, next := sys.procs[p].pc.n, Exec(sys, p, op);
    var choices := StepsOf(p, op, n - k + 1);
    assert choices[1..] == StepsOf(p, op, n - k);
    if k < n {
      assert AllBlank(sys.mem.recs[k].key);
      NextRecFinds(next, p, op, n);
      assert next.procs[p := Go(next.procs[p], NrRelease)] == sys.procs[p := Go(sys.procs[p], NrRelease)];
      assert next.procs[p := Go(next.procs[p], NrData(n))] == sys.procs[p := Go(sys.procs[p], NrData(n))];
    }
  }

  // ----- alone

  /** Nobody else is in a call. */
  predicate Alone(sys: Sys, p: nat) {
    p < |sys.procs| && forall q :: 0 <= q < |sys.procs| && q != p ==> sys.procs[q].pc.Idle?
  }

  lemma AloneEnabled(sys: Sys, p: nat)
    requires Inv(sys) && Alone(sys, p)
    ensures Enabled(sys, p) && OpFits(sys.procs[p].op, sys.procs[p].pc)
  {
    hide MemOk, OwnerOk, PatchOk, Compatible;
    OkSizes(sys.mem);
    assert Local(sys.mem, p, sys.procs[p]);
    forall q | 0 <= q < |sys.procs| && q != p
      ensures sys.procs[q].held == map[]
    {
      assert Local(sys.mem, q, sys.procs[q]);
    }
  }

  lemma AloneStays(sys: Sys, p: nat, op: Op)
    requires Alone(sys, p) && OpFits(sys.procs[p].op, sys.procs[p].pc)
    ensures Alone(Exec(sys, p, op), p)
    ensures Exec(sys, p, op).procs == sys.procs[p := Exec(sys, p, op).procs[p]]
  {
    hide ProcAfter, MemAfter;
  }

  lemma DataOfEach(sys: Sys, p: nat)
    requires DataInv(sys) && p < |sys.procs|
    ensures DataLocal(sys.mem, sys.procs[p])
  {
  }

  /** The last step of a call on a key gives the answer that the map has. */
  lemma LastStep(sys: Sys, p: nat, op: Op)
    requires p < |sys.procs| && !sys.procs[p].pc.Idle? && OpFits(sys.procs[p].op, sys.procs[p].pc)
    requires DataLocal(sys.mem, sys.procs[p])
    ensures !sys.procs[p].op.NextRec? && ProcAfter(sys.mem, sys.procs[p], op).pc.Idle? ==> sys.procs[p].pc.Release?
    ensures sys.procs[p].pc.Release? ==>
      && !sys.procs[p].op.NextRec? && ProcAfter(sys.mem, sys.procs[p], op).pc.Idle?
      && sys.procs[p].pc.answer == Reply(Entries(sys.mem.log), sys.procs[p].op.Call())
  {
    hide Shows, Entries, Reply, After, DbContents.Hash;
  }

  /** A call that nobody keeps waiting ends, and its answer is the one that the map has for it. */
  lemma {:induction false} CallEnds(sys: Sys, p: nat, op: Op) returns (choices: seq<Choice>, end: Sys)
    requires Inv(sys) && DataInv(sys) && Legal(sys.mem.log) && Alone(sys, p)
    ensures Runs(sys, choices, end) && forall k :: 0 <= k < |choices| ==> choices[k].p == p
    ensures |end.procs| == |sys.procs| && end.procs == sys.procs[p := end.procs[p]] && end.procs[p].pc.Idle?
    ensures end.mem.log == sys.mem.log +
      if sys.procs[p].pc.Idle? || sys.procs[p].op.NextRec? then []
      else [Done(sys.procs[p].op.Call(), Reply(Entries(sys.mem.log), sys.procs[p].op.Call()))]
    decreases if Sizes(sys.mem) && sys.procs[p].op.Slot() < SLOTS then StepsLeft(sys.mem, sys.procs[p]) else 0
  {
    hide Inv, DataInv, DataLocal, Legal, Enabled, StepsLeft, MemAfter, ProcAfter, Entries, Reply;
    if sys.procs[p].pc.Idle? {
      choices, end := [], sys;
    } else {
      AloneEnabled(sys, p);
      AloneStays(sys, p, op);
      StepShortens(sys, p, op);
      StepKeepsData(sys, p, op);
      LogStep(sys, p, op);
      assert DataLocal(sys.mem, sys.procs[p]) by {
        DataOfEach(sys, p);
      }
      LastStep(sys, p, op);
      var next := Exec(sys, p, op);
      var rest;
      rest, end := CallEnds(next, p, op);
      choices := [Choice(p, op)] + rest;
      assert choices[1..] == rest;
    }
  }

  lemma StepFirst(sys: Sys, p: nat, op: Op, n: nat, end: Sys)
    requires Enabled(sys, p) && OpFits(sys.procs[p].op, sys.procs[p].pc)
    requires Runs(Exec(sys, p, op), StepsOf(p, op, n), end)
    ensures Runs(sys, StepsOf(p, op, n + 1), end)
  {
    hide Enabled, Exec;
    assert StepsOf(p, op, n + 1)[1..] == StepsOf(p, op, n);
  }

  /** The first two steps of a call of nextrec. */
  lemma NextRecBegins(sys: Sys, p: nat, start: nat)
    requires p < |sys.procs| && sys.procs[p].pc.Idle?
    ensures var one := Exec(sys, p, NextRec(start));
            && p < |one.procs| && one.procs[p] == Proc(NextRec(start), NrWant(start), map[])
            && Exec(one, p, NextRec(start)) ==
                 sys.(procs := sys.procs[p := Proc(NextRec(start), NrRead(start), map[0 := Read])])
  {
    hide AllBlank, DbContents.Hash;
  }

  /** The same for a whole call of nextrec that nobody keeps waiting: it starts at its place and comes to the first
    record that is not blank. */
  lemma NextRecFrom(sys: Sys, p: nat, start: nat, n: nat)
    requires Inv(sys) && Alone(sys, p) && sys.procs[p].pc.Idle? && start <= n <= |sys.mem.recs|
    requires forall i :: start <= i < n ==> AllBlank(sys.mem.recs[i].key)
    requires n < |sys.mem.recs| ==> !AllBlank(sys.mem.recs[n].key)
    ensures Runs(sys, StepsOf(p, NextRec(start), n - start + 3),
      sys.(procs := sys.procs[p := Proc(NextRec(start), if n < |sys.mem.recs| then NrData(n) else NrRelease,
                                        map[0 := Read])]))
  {
    hide Inv, AllBlank, Enabled, MemAfter, ProcAfter, Runs;
    var op := NextRec(start);
    AloneEnabled(sys, p);
    StepKeepsInv(sys, p, op);
    var one := Exec(sys, p, op);
    AloneStays(sys, p, op);
    AloneEnabled(one, p);
    NextRecBegins(sys, p, start);
    var two := Exec(one, p, op);
    NextRecFinds(two, p, op, n);
    var pc := if n < |sys.mem.recs| then NrData(n) else NrRelease;
    var end := sys.(procs := sys.procs[p := Proc(op, pc, map[0 := Read])]);
    assert two.procs[p := Go(two.procs[p], pc)] == end.procs;
    StepFirst(one, p, op, n - start + 1, end);
    StepFirst(sys, p, op, n - start + 2, end);
  }
}
