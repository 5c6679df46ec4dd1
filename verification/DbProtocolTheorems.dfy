/** The protocol in every interleaving: one owner per record, isolation under a lock, freedom from deadlock. */
module DbProtocolTheorems {
  import opened Seqs
  import opened Wrappers
  import opened DbText
  import opened DbLayout
  import opened DbChains
  import DbContents
  import opened DbProtocol
  import opened DbProtocolInvariant
  import opened DbProtocolMemory
  import opened DbProtocolSteps

  // ----- owners, pending writes and locks after a step

  lemma OwnersKept(sys: Sys, p: nat, op: Op, i: nat)
    requires Inv(sys) && p < |sys.procs| && OpFits(sys.procs[p].op, sys.procs[p].pc)
    requires Sizes(Exec(sys, p, op).mem) && i < |Exec(sys, p, op).mem.recs|
    ensures OwnerOk(Exec(sys, p, op), i)
  {
    hide MemOk, PatchOk, Compatible, Local, MemAfter, ProcAfter;
    OkSizes(sys.mem);
    var mem, proc := sys.mem, sys.procs[p];
    if i < |mem.recs| {
      assert OwnerOk(sys, i);
    }
    assert Local(mem, p, proc);
    if proc.pc.BlankIdx? || proc.pc.TakeFree? {
      OwnersUnlinked(sys, p, op, i);
    } else if proc.pc.LinkFree? || proc.pc.LinkChain? {
      OwnersLinked(sys, p, op, i);
    } else if proc.pc.AppendIdx? {
      OwnersAppended(sys, p, op, i);
    } else {
      ListsSame(mem, p, proc);
      OwnerSame(sys, p, op, i);
    }
  }

  lemma OwnersUnlinked(sys: Sys, p: nat, op: Op, i: nat)
    requires Sizes(sys.mem) && p < |sys.procs| && OpFits(sys.procs[p].op, sys.procs[p].pc)
    requires Local(sys.mem, p, sys.procs[p]) && (i < |sys.mem.recs| ==> OwnerOk(sys, i))
    requires sys.procs[p].pc.BlankIdx? || sys.procs[p].pc.TakeFree?
    requires Sizes(Exec(sys, p, op).mem) && i < |Exec(sys, p, op).mem.recs|
    ensures OwnerOk(Exec(sys, p, op), i)
  {
    hide SlotOk, CellsOk, PatchOk, AllBlank, DbContents.Hash, Compatible, Target, Lacks;
  }

  lemma OwnersLinked(sys: Sys, p: nat, op: Op, i: nat)
    requires Sizes(sys.mem) && p < |sys.procs| && OpFits(sys.procs[p].op, sys.procs[p].pc)
    requires Local(sys.mem, p, sys.procs[p]) && (i < |sys.mem.recs| ==> OwnerOk(sys, i))
    requires sys.procs[p].pc.LinkFree? || sys.procs[p].pc.LinkChain?
    requires Sizes(Exec(sys, p, op).mem) && i < |Exec(sys, p, op).mem.recs|
    ensures OwnerOk(Exec(sys, p, op), i)
  {
    hide SlotOk, CellsOk, PatchOk, AllBlank, DbContents.Hash, Compatible, Target, Lacks;
  }

  lemma OwnersAppended(sys: Sys, p: nat, op: Op, i: nat)
    requires Inv(sys) && p < |sys.procs| && OpFits(sys.procs[p].op, sys.procs[p].pc) && sys.procs[p].pc.AppendIdx?
    requires Sizes(Exec(sys, p, op).mem) && i < |Exec(sys, p, op).mem.recs|
    ensures OwnerOk(Exec(sys, p, op), i)
  {
    hide SlotOk, CellsOk, PatchOk, AllBlank, DbContents.Hash, Compatible, Target, Lacks, Local;
    if i < |sys.mem.recs| {
      assert OwnerOk(sys, i);
    }
  }

  lemma OwnerSame(sys: Sys, p: nat, op: Op, i: nat)
    requires Sizes(sys.mem) && p < |sys.procs| && OpFits(sys.procs[p].op, sys.procs[p].pc)
    requires i < |sys.mem.recs| && OwnerOk(sys, i)
    requires !sys.procs[p].pc.BlankIdx? && !sys.procs[p].pc.TakeFree? && !sys.procs[p].pc.LinkFree?
    requires !sys.procs[p].pc.LinkChain? && !sys.procs[p].pc.AppendIdx?
    requires Sizes(Exec(sys, p, op).mem)
    ensures i < |Exec(sys, p, op).mem.recs| && OwnerOk(Exec(sys, p, op), i)
  {
    ListsSame(sys.mem, p, sys.procs[p]);
  }

  lemma ListsSame(mem: Mem, p: nat, proc: Proc)
    requires !proc.pc.BlankIdx? && !proc.pc.TakeFree? && !proc.pc.LinkFree? && !proc.pc.LinkChain?
    requires !proc.pc.AppendIdx?
    ensures MemAfter(mem, p, proc).lists == mem.lists && MemAfter(mem, p, proc).owner == mem.owner
    ensures |MemAfter(mem, p, proc).recs| == |mem.recs|
  {
  }

  lemma PatchesKept(sys: Sys, p: nat, op: Op, s: nat)
    requires Inv(sys) && p < |sys.procs| && OpFits(sys.procs[p].op, sys.procs[p].pc)
    requires Sizes(Exec(sys, p, op).mem) && s < SLOTS
    ensures PatchOk(Exec(sys, p, op), s)
  {
    hide MemOk, OwnerOk, AllBlank, DbContents.Hash, Compatible, PcOk;
    OkSizes(sys.mem);
    assert Local(sys.mem, p, sys.procs[p]);
    assert PatchOk(sys, s);
  }

  /** A pending write on a chain is made under the chain's write lock. */
  lemma PatchHeld(sys: Sys, s: nat)
    requires Inv(sys) && s < SLOTS && sys.mem.patch[s].Some?
    ensures var q := sys.mem.patch[s].value.p;
            && q < |sys.procs| && s in sys.procs[q].held && sys.procs[q].held[s] == Write && !sys.procs[q].pc.WantChain?
  {
    hide MemOk, OwnerOk, PcOk, Compatible;
    OkSizes(sys.mem);
    assert PatchOk(sys, s);
    var q := sys.mem.patch[s].value.p;
    assert Local(sys.mem, q, sys.procs[q]);
  }

  /** A chain lock is granted only when no write is pending on the chain. */
  lemma NoPatchOnGrant(sys: Sys, p: nat)
    requires Inv(sys) && Enabled(sys, p) && sys.procs[p].pc.WantChain?
    ensures sys.mem.patch[sys.procs[p].op.Slot()] == None
  {
    hide MemOk, OwnerOk, PcOk, Compatible;
    OkSizes(sys.mem);
    assert Local(sys.mem, p, sys.procs[p]);
    if sys.mem.patch[sys.procs[p].op.Slot()].Some? {
      PatchHeld(sys, sys.procs[p].op.Slot());
    }
  }

  lemma SelfCompatible(sys: Sys, p: nat, op: Op, q: nat)
    requires Inv(sys) && Enabled(sys, p) && q < |sys.procs| && q != p && OpFits(sys.procs[p].op, sys.procs[p].pc)
    ensures Compatible(Exec(sys, p, op).procs[p], sys.procs[q]) && Compatible(sys.procs[q], Exec(sys, p, op).procs[p])
  {
    hide MemOk, OwnerOk, PatchOk, PcOk, MemAfter;
    OkSizes(sys.mem);
    var a, b := sys.procs[p], sys.procs[q];
    var a' := Exec(sys, p, op).procs[p];
    assert Compatible(a, b) && Local(sys.mem, p, a) && Local(sys.mem, q, b);
    HeldAfter(sys, p, op);
    var want := Wants(a.op, a.pc);
    forall l | l in a'.held && l in b.held
      ensures a'.held[l] == Read && b.held[l] == Read
    {
      if l in a.held && a'.held[l] == a.held[l] {
      } else {
        assert want == Some((l, a'.held[l]));
      }
    }
  }

  /** A step adds at most the lock it asked for. */
  lemma HeldAfter(sys: Sys, p: nat, op: Op)
    requires Sizes(sys.mem) && p < |sys.procs| && Local(sys.mem, p, sys.procs[p])
    ensures var a, a' := sys.procs[p], Exec(sys, p, op).procs[p];
            forall l :: l in a'.held ==>
                (l in a.held && a'.held[l] == a.held[l]) || Wants(a.op, a.pc) == Some((l, a'.held[l]))
    ensures var a, a' := sys.procs[p], Exec(sys, p, op).procs[p];
            FreshCell(a'.pc).Some? ==> FreshCell(a'.pc) == FreshCell(a.pc) || FreshCell(a'.pc) == Some(|sys.mem.data|)
  {
    hide PcOk, MemAfter;
  }

  // ----- the invariant

  lemma OtherKnows(sys: Sys, p: nat, op: Op, q: nat)
    requires Inv(sys) && p < |sys.procs| && q < |sys.procs| && q != p && OpFits(sys.procs[p].op, sys.procs[p].pc)
    requires GoodWrite(sys.mem, MemAfter(sys.mem, p, sys.procs[p]), p, sys.procs[p])
    ensures Local(Exec(sys, p, op).mem, q, sys.procs[q])
  {
    hide SlotOk, OwnerOk, PatchOk, CellsOk, Within, PcOk;
    var mem, proc := sys.mem, sys.procs[p];
    var mem' := MemAfter(mem, p, proc);
    assert Local(mem, p, proc) && Local(mem, q, sys.procs[q]);
    assert Compatible(proc, sys.procs[q]);
    LocalKept(mem, mem', p, Scope(proc), q, sys.procs[q]);
  }

  lemma StepKeepsInv(sys: Sys, p: nat, op: Op)
    requires Inv(sys) && Enabled(sys, p)
    ensures OpFits(sys.procs[p].op, sys.procs[p].pc) && Inv(Exec(sys, p, op))
  {
    hide MemOk, Within, Local, OwnerOk, PatchOk, Compatible, MemAfter, ProcAfter;
    var mem, proc := sys.mem, sys.procs[p];
    OkSizes(mem);
    assert Local(mem, p, proc);
    LocalFits(mem, p, proc);
    StepWrites(mem, p, proc);
    OkSizes(MemAfter(mem, p, proc));
    var sys' := Exec(sys, p, op);
    if proc.pc.WantChain? {
      NoPatchOnGrant(sys, p);
    }
    SelfKnows(mem, p, proc, op);
    forall q | 0 <= q < |sys.procs| && q != p
      ensures Local(sys'.mem, q, sys'.procs[q])
      ensures Compatible(sys'.procs[p], sys'.procs[q]) && Compatible(sys'.procs[q], sys'.procs[p])
    {
      OtherKnows(sys, p, op, q);
      SelfCompatible(sys, p, op, q);
    }
    forall i | 0 <= i < |sys'.mem.recs|
      ensures OwnerOk(sys', i)
    {
      OwnersKept(sys, p, op, i);
    }
    forall s | 0 <= s < SLOTS
      ensures PatchOk(sys', s)
    {
      PatchesKept(sys, p, op, s);
    }
  }

  // ----- runs

  datatype Choice = Choice(p: nat, op: Op)

  /** A schedule: at each point the chosen process is not blocked. */
  ghost predicate Runs(sys: Sys, choices: seq<Choice>, end: Sys)
    decreases |choices|
  {
    if choices == [] then end == sys
    else
      var c := choices[0];
      && Enabled(sys, c.p) && OpFits(sys.procs[c.p].op, sys.procs[c.p].pc)
      && Runs(Exec(sys, c.p, c.op), choices[1..], end)
  }

  /** In every interleaving of any number of processes the invariant holds. */
  lemma {:induction false} RunsKeepInv(sys: Sys, choices: seq<Choice>, end: Sys)
    requires Inv(sys) && Runs(sys, choices, end)
    ensures Inv(end)
    decreases |choices|
  {
    if choices != [] {
      StepKeepsInv(sys, choices[0].p, choices[0].op);
      RunsKeepInv(Exec(sys, choices[0].p, choices[0].op), choices[1..], end);
    }
  }

  /** From an empty database on, in every interleaving. */
  lemma Always(n: nat, choices: seq<Choice>, sys: Sys)
    requires Runs(Init(n), choices, sys)
    ensures Inv(sys)
  {
    RunsKeepInv(Init(n), choices, sys);
  }

  // ----- what the invariant means

  /** A record is on exactly one list, once, and in nobody's hand; or on no list, and in exactly one hand. */
  lemma OneOwner(sys: Sys, i: nat)
    requires Inv(sys) && i < |sys.mem.recs|
    ensures var o := sys.mem.owner[i];
            && (forall s, k :: 0 <= s < SLOTS && 0 <= k < |sys.mem.lists[s]| && sys.mem.lists[s][k] == i ==> s == o)
            && (o < SLOTS ==> multiset(sys.mem.lists[o])[i] == 1)
            && (forall p :: 0 <= p < |sys.procs| && Hand(sys.procs[p].pc) == Some(i) ==> o == InHand(p))
            && (o >= SLOTS ==> o - SLOTS < |sys.procs| && Hand(sys.procs[o - SLOTS].pc) == Some(i))
  {
    hide KeysOk, Spells, AllBlank, PatchOk, Compatible, PcOk;
    OkSizes(sys.mem);
    var o := sys.mem.owner[i];
    assert OwnerOk(sys, i);
    forall s, k | 0 <= s < SLOTS && 0 <= k < |sys.mem.lists[s]| && sys.mem.lists[s][k] == i
      ensures s == o
    {
      assert SlotOk(sys.mem, s);
      assert sys.mem.owner[sys.mem.lists[s][k]] == s;
    }
    if o < SLOTS {
      assert SlotOk(sys.mem, o);
      CountDistinct(sys.mem.lists[o], i);
    }
    forall p | 0 <= p < |sys.procs| && Hand(sys.procs[p].pc) == Some(i)
      ensures o == InHand(p)
    {
      assert Local(sys.mem, p, sys.procs[p]);
    }
  }

  /** What following the pointers of the file spells, when nobody is in the middle of bypassing a record. */
  lemma PointersSpell(sys: Sys, s: nat)
    requires Inv(sys) && s < SLOTS && sys.mem.patch[s] == None
    ensures Spells(sys.mem.heads[s], PtrsOf(sys.mem.recs), Ids(|sys.mem.recs|), sys.mem.lists[s])
  {
    assert SlotOk(sys.mem, s);
  }

  /** While q holds the lock of a list, in either mode, no other process changes the list, the pointers that spell
      it, or its records. */
  lemma Isolation(sys: Sys, p: nat, op: Op, q: nat, s: nat)
    requires Inv(sys) && Enabled(sys, p) && q < |sys.procs| && q != p && s < SLOTS && s in sys.procs[q].held
    requires OpFits(sys.procs[p].op, sys.procs[p].pc)
    ensures Inv(Exec(sys, p, op)) && ListKept(sys.mem, Exec(sys, p, op).mem, s)
  {
    hide MemOk, Within, Local, OwnerOk, PatchOk, MemAfter, ProcAfter, ListKept;
    OkSizes(sys.mem);
    assert Local(sys.mem, p, sys.procs[p]);
    StepKeepsInv(sys, p, op);
    StepWrites(sys.mem, p, sys.procs[p]);
    OkSizes(MemAfter(sys.mem, p, sys.procs[p]));
    LockedListKept(sys.mem, MemAfter(sys.mem, p, sys.procs[p]), p, Scope(sys.procs[p]), s);
  }

  /** Something of list s is different: its head, the records on it, or what one of them holds. */
  ghost predicate ListChanged(mem: Mem, mem': Mem, s: nat)
    requires Sizes(mem) && Sizes(mem') && s < SLOTS && |mem.recs| <= |mem'.recs|
  {
    || mem'.lists[s] != mem.lists[s] || mem'.heads[s] != mem.heads[s]
    || exists i :: 0 <= i < |mem.recs| && mem.owner[i] == s && mem'.recs[i] != mem.recs[i]
  }

  /** A hash chain and its records change only under its own write lock, and the free list and its records only under
    its own. */
  lemma ChangedUnderLock(sys: Sys, p: nat, op: Op, s: nat)
    requires Inv(sys) && Enabled(sys, p) && s < SLOTS && OpFits(sys.procs[p].op, sys.procs[p].pc)
    ensures var mem' := Exec(sys, p, op).mem;
            && Sizes(sys.mem) && Sizes(mem') && |sys.mem.recs| <= |mem'.recs|
            && (ListChanged(sys.mem, mem', s) ==> s in sys.procs[p].held && sys.procs[p].held[s] == Write)
  {
    hide MemOk, Local, OwnerOk, PatchOk, Compatible, MemAfter, ProcAfter;
    OkSizes(sys.mem);
    assert Local(sys.mem, p, sys.procs[p]);
    StepWrites(sys.mem, p, sys.procs[p]);
    OkSizes(MemAfter(sys.mem, p, sys.procs[p]));
    assert ListChanged(sys.mem, MemAfter(sys.mem, p, sys.procs[p]), s) ==> s in Scope(sys.procs[p]);
  }

  /** Locks are asked for in order: a hash chain by a process that holds nothing; the free list, the data file and
      the append region by one that holds at most a hash chain. */
  lemma LockOrder(sys: Sys, p: nat)
    requires Inv(sys) && p < |sys.procs| && Wants(sys.procs[p].op, sys.procs[p].pc).Some?
    ensures var l := Wants(sys.procs[p].op, sys.procs[p].pc).value.0;
            && l !in sys.procs[p].held
            && (1 <= l < SLOTS ==> sys.procs[p].held == map[])
            && forall h :: h in sys.procs[p].held ==> 1 <= h < SLOTS
  {
    hide MemOk, PcOk, OwnerOk, PatchOk, Compatible;
    OkSizes(sys.mem);
    assert Local(sys.mem, p, sys.procs[p]);
  }

  /** A process that holds the free list, the data file or the append region is not waiting for anything. */
  lemma SecondLockNeverWaits(sys: Sys, p: nat, l: nat)
    requires Inv(sys) && p < |sys.procs| && l in sys.procs[p].held && !(1 <= l < SLOTS)
    ensures Enabled(sys, p)
  {
    hide MemOk, OwnerOk, PatchOk, Compatible;
    OkSizes(sys.mem);
    assert Local(sys.mem, p, sys.procs[p]);
  }

  /** Process h holds the lock that p wants in a mode that keeps p from getting it. */
  ghost predicate InTheWay(sys: Sys, p: nat, h: nat) {
    && p < |sys.procs| && h < |sys.procs| && h != p
    && var want := Wants(sys.procs[p].op, sys.procs[p].pc);
       && want.Some? && want.value.0 in sys.procs[h].held
       && !(want.value.1 == Read && sys.procs[h].held[want.value.0] == Read)
  }

  /** Who waits for a process that waits itself does not wait for long: whatever is in the way of the latter can step.
    So processes never wait for each other in a circle. */
  lemma WaitsAreShort(sys: Sys, p: nat, h: nat, q: nat)
    requires Inv(sys) && InTheWay(sys, p, h) && InTheWay(sys, h, q)
    ensures Enabled(sys, q) && q != p && !InTheWay(sys, q, p)
  {
    hide Inv, Enabled;
    LockOrder(sys, h);
    SecondLockNeverWaits(sys, q, Wants(sys.procs[h].op, sys.procs[h].pc).value.0);
    EnabledIsFree(sys, q, p);
    if q == p {
      EnabledIsFree(sys, q, h);
    }
  }

  lemma EnabledIsFree(sys: Sys, q: nat, h: nat)
    requires Enabled(sys, q)
    ensures !InTheWay(sys, q, h)
  {
  }

  /** If a process is blocked, a process in its way can step, or one in the way of that one can. */
  lemma NoDeadlock(sys: Sys, p: nat) returns (q: nat)
    requires Inv(sys) && p < |sys.procs|
    ensures q < |sys.procs| && Enabled(sys, q)
    ensures if Enabled(sys, p) then q == p
            else exists h :: InTheWay(sys, p, h) && (h == q || InTheWay(sys, h, q))
  {
    hide Inv, Enabled;
    q := p;
    if !Enabled(sys, p) {
      var h := Blocker(sys, p);
      q := h;
      if !Enabled(sys, h) {
        q := Blocker(sys, h);
        WaitsAreShort(sys, p, h, q);
      }
    }
  }

  /** The process that stands in the way of a blocked one. */
  lemma Blocker(sys: Sys, p: nat) returns (h: nat)
    requires Inv(sys) && p < |sys.procs| && !Enabled(sys, p)
    ensures InTheWay(sys, p, h)
  {
    hide MemOk, OwnerOk, PatchOk, Compatible;
    OkSizes(sys.mem);
    assert Local(sys.mem, p, sys.procs[p]);
    var want := Wants(sys.procs[p].op, sys.procs[p].pc);
    h :| 0 <= h < |sys.procs| && h != p && want.value.0 in sys.procs[h].held
         && !(want.value.1 == Read && sys.procs[h].held[want.value.0] == Read);
  }

  /** A sequential reader that has seen a key is never looking at a record in the middle of its deletion: the
      record is on a hash chain, or complete and about to be put on one. */
  lemma NextRecSeesWhole(sys: Sys, p: nat)
    requires Inv(sys) && p < |sys.procs| && sys.procs[p].pc.NrData?
    ensures var n := sys.procs[p].pc.n;
            && n < |sys.mem.recs| && sys.mem.owner[n] != 0
            && (sys.mem.owner[n] >= SLOTS ==>
                  var q := sys.mem.owner[n] - SLOTS;
                  q < |sys.procs| && (sys.procs[q].pc.LinkChain? || sys.procs[q].pc.EndUnlock?))
  {
    hide KeysOk, Spells, PatchOk;
    OkSizes(sys.mem);
    assert Local(sys.mem, p, sys.procs[p]);
    var n := sys.procs[p].pc.n;
    assert OwnerOk(sys, n);
    if sys.mem.owner[n] == 0 {
      var k :| 0 <= k < |sys.mem.lists[0]| && sys.mem.lists[0][k] == n;
      FreeBlank(sys.mem, k);
    } else if sys.mem.owner[n] >= SLOTS {
      var q := sys.mem.owner[n] - SLOTS;
      assert Local(sys.mem, q, sys.procs[q]);
    }
  }

  /** When a search ends, it is right about the whole database at that moment: a fetch goes on to read a record that
      is on a chain under the key, or gives up when no record of any chain has the key. */
  lemma FetchExact(sys: Sys, p: nat, op: Op)
    requires Inv(sys) && p < |sys.procs| && sys.procs[p].op.Fetch? && sys.procs[p].pc.Walk?
    ensures var key := sys.procs[p].op.key;
            var next := ProcAfter(sys.mem, sys.procs[p], op).pc;
            && (next.FetchData? ==> next.i < |sys.mem.recs| && sys.mem.recs[next.i].key == key
                                    && 1 <= sys.mem.owner[next.i] < SLOTS)
            && (next.Release? ==> forall i :: 0 <= i < |sys.mem.recs| && 1 <= sys.mem.owner[i] < SLOTS ==>
                 sys.mem.recs[i].key != key)
            && (next.FetchData? || next.Release? || next.Walk?)
  {
    hide PatchOk, Compatible, Spells, Target;
    OkSizes(sys.mem);
    var s, key := sys.procs[p].op.Slot(), sys.procs[p].op.key;
    var next := ProcAfter(sys.mem, sys.procs[p], op).pc;
    assert Local(sys.mem, p, sys.procs[p]);
    WalkKnows(sys.mem, p, sys.procs[p]);
    WalkEnds(sys.mem, p, sys.procs[p]);
    if next.FetchData? {
      assert SlotOk(sys.mem, s);
      assert sys.mem.owner[sys.mem.lists[s][next.j]] == s;
    } else if next.Release? {
      forall i | 0 <= i < |sys.mem.recs| && 1 <= sys.mem.owner[i] < SLOTS
        ensures sys.mem.recs[i].key != key
      {
        var t := sys.mem.owner[i];
        assert OwnerOk(sys, i);
        assert SlotOk(sys.mem, t);
        var k :| 0 <= k < |sys.mem.lists[t]| && sys.mem.lists[t][k] == i;
        assert t == 1 + DbContents.Hash(sys.mem.recs[i].key);
      }
    }
  }

  lemma WalkEnds(mem: Mem, p: nat, proc: Proc)
    requires MemOk(mem) && Local(mem, p, proc) && proc.op.Fetch? && proc.pc.Walk?
    ensures var next := WalkStep(mem, proc, proc.pc.j, proc.pc.place, proc.pc.off).pc;
            && (next.Release? ==> Lacks(mem, mem.lists[proc.op.Slot()], proc.op.key))
            && (next.FetchData? || next.Release? || next.Walk?)
  {
    hide AllBlank, DbContents.Hash, CellsOk, SlotOk, Target, AtPos;
    var s := proc.op.Slot();
    WalkBound(mem, s, proc.pc.j, proc.pc.place, proc.pc.off);
    ListAt(mem, s, proc.pc.j, proc.pc.place, proc.pc.off);
    if proc.pc.off == 0 {
      assert mem.lists[s][..proc.pc.j] == mem.lists[s];
    }
  }
}
