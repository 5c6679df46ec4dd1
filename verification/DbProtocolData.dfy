/** The data of the multi-process protocol: every call that finishes has acted as one step on a map, in the order in
  which the calls let go of their chains. */
module DbProtocolData {
  import opened Wrappers
  import opened DbText
  import opened DbLayout
  import opened DbChains
  import DbContents
  import DbStore
  import opened DbCalls
  import opened DbProtocol
  import opened DbProtocolInvariant
  import opened DbProtocolMemory
  import opened DbProtocolSteps
  import opened DbProtocolTheorems

  // ----- what the finished calls have made

  function Finished(log: seq<Done>): (calls: seq<Call>)
    ensures |calls| == |log| && forall k :: 0 <= k < |log| ==> calls[k] == log[k].call
  {
    seq(|log|, k requires 0 <= k < |log| => log[k].call)
  }

  /** The map after all calls that have finished, each taken as one step. */
  function Entries(log: seq<Done>): map<string, string> {
    AfterAll(map[], Finished(log))
  }

  lemma EntriesStep(log: seq<Done>, d: Done)
    ensures Entries(log + [d]) == After(Entries(log), d.call)
  {
    assert Finished(log + [d])[..|log|] == Finished(log);
  }

  function Get(m: map<string, string>, key: string): Option<string> {
    if key in m then Some(m[key]) else None
  }

  // ----- what the files show of a key

  /** Record i is on the chain of the key, under the key. */
  predicate Bears(mem: Mem, key: string, i: nat) {
    && 1 + DbContents.Hash(key) < |mem.lists| && i in mem.lists[1 + DbContents.Hash(key)]
    && i < |mem.recs| && mem.recs[i].key == key
  }

  ghost predicate Shows(mem: Mem, key: string, v: Option<string>) {
    match v
    case None => forall i :: !Bears(mem, key, i)
    case Some(d) => exists i :: Bears(mem, key, i) && DataOf(mem, i) == d
  }

  lemma BearsOne(mem: Mem, key: string, i: nat, k: nat)
    requires MemOk(mem) && Bears(mem, key, i) && Bears(mem, key, k)
    ensures i == k && mem.owner[i] == 1 + DbContents.Hash(key)
  {
    hide DbContents.Hash, SlotOk;
    var s := 1 + DbContents.Hash(key);
    assert SlotOk(mem, s);
    ListOwns(mem, s, i);
    var a :| 0 <= a < |mem.lists[s]| && mem.lists[s][a] == i;
    var b :| 0 <= b < |mem.lists[s]| && mem.lists[s][b] == k;
    if a < b {
      KeysApart(mem, s, a, b);
    } else if b < a {
      KeysApart(mem, s, b, a);
    }
  }

  lemma KeysApart(mem: Mem, s: nat, a: nat, b: nat)
    requires Sizes(mem) && 1 <= s < SLOTS && SlotOk(mem, s) && a < b < |mem.lists[s]|
    ensures mem.lists[s][a] < |mem.recs| && mem.lists[s][b] < |mem.recs|
    ensures mem.recs[mem.lists[s][a]].key != mem.recs[mem.lists[s][b]].key
  {
  }

  lemma ListOwns(mem: Mem, s: nat, i: nat)
    requires Sizes(mem) && s < SLOTS && SlotOk(mem, s) && i in mem.lists[s]
    ensures i < |mem.recs| && mem.owner[i] == s
  {
    var a :| 0 <= a < |mem.lists[s]| && mem.lists[s][a] == i;
    assert mem.owner[mem.lists[s][a]] == s;
  }

  lemma ShowsSome(mem: Mem, key: string, v: Option<string>, i: nat)
    requires MemOk(mem) && Shows(mem, key, v) && Bears(mem, key, i)
    ensures v == Some(DataOf(mem, i))
  {
    hide MemOk, Bears;
    if v.Some? {
      var k :| Bears(mem, key, k) && DataOf(mem, k) == v.value;
      BearsOne(mem, key, i, k);
    }
  }

  lemma ShowsNone(mem: Mem, key: string, v: Option<string>)
    requires Shows(mem, key, v) && forall i :: !Bears(mem, key, i)
    ensures v == None
  {
  }

  // ----- what a process knows of the data

  ghost predicate Succeeds(op: Op, e: map<string, string>) {
    !op.NextRec? && Reply(e, op.Call()) == Code(0)
  }

  /** Before it alters anything a process knows that the files show its key as the map has it; afterwards, that its call
    will succeed; and when it lets go of its chain, that the files show what the map will have. */
  ghost predicate Knows(mem: Mem, op: Op, pc: Pc)
    requires OpFits(op, pc)
  {
    var e := Entries(mem.log);
    match pc
    case WalkHead => Shows(mem, op.key, Get(e, op.key))
    case Walk(_, _, _) => Shows(mem, op.key, Get(e, op.key))
    case FetchData(_, _) => Shows(mem, op.key, Get(e, op.key))
    case Overwrite(_, _) => Shows(mem, op.key, Get(e, op.key)) && op.flag != DbStore.DB_INSERT
    case WantFreeDel(_, _, _, _) => Shows(mem, op.key, Get(e, op.key)) && (op.Store? ==> op.flag != DbStore.DB_INSERT)
    case BlankData(_, _, _, _) => Shows(mem, op.key, Get(e, op.key)) && (op.Store? ==> op.flag != DbStore.DB_INSERT)
    case ReuseIdx(_, i) => Succeeds(op, e) && DataOf(mem, i) == op.data
    case LinkChain(i) => Succeeds(op, e) && DataOf(mem, i) == op.data
    case EndUnlock(i) => Succeeds(op, e) && DataOf(mem, i) == op.data
    case DatUnlock(_, c) => Succeeds(op, e) && c < |mem.data| && mem.data[c] == op.data
    case WantEnd(_, c) => Succeeds(op, e) && c < |mem.data| && mem.data[c] == op.data
    case AppendIdx(_, c) => Succeeds(op, e) && c < |mem.data| && mem.data[c] == op.data
    case Release(a) => a == Reply(e, op.Call()) && Shows(mem, op.key, Get(After(e, op.Call()), op.key))
    case _ => Altering(pc) ==> Succeeds(op, e)
  }

  /** The other points of a call that has found that it will succeed. */
  predicate Altering(pc: Pc) {
    pc.ReadFreePtr? || pc.BlankIdx? || pc.LinkFree? || pc.Bypass? || pc.FreeDone? || pc.ReadFront? || pc.WantFree?
    || pc.ScanHead? || pc.Scan? || pc.TakeFree? || pc.ReuseUnlock? || pc.ReuseData? || pc.ScanFail? || pc.WantDat?
    || pc.AppendDat?
  }

  /** A process that may be altering what the files show of a key. */
  predicate Alters(proc: Proc, key: string) {
    var s := proc.op.Slot();
    !proc.op.NextRec? && proc.op.key == key && s in proc.held && proc.held[s] == Write
  }

  /** The files show the map, key by key, except for keys that a process is altering. */
  ghost predicate DataInv(sys: Sys) {
    && (forall p :: 0 <= p < |sys.procs| ==> DataLocal(sys.mem, sys.procs[p]))
    && (forall key :: (forall q :: 0 <= q < |sys.procs| ==> !Alters(sys.procs[q], key)) ==>
          Shows(sys.mem, key, Get(Entries(sys.mem.log), key)))
  }

  ghost predicate DataLocal(mem: Mem, proc: Proc) {
    OpFits(proc.op, proc.pc) && Knows(mem, proc.op, proc.pc) && (!proc.pc.Idle? ==> proc.op.ValidFlag())
  }

  // ----- what a step leaves of a key that its process does not alter

  ghost predicate KeyKept(mem: Mem, mem': Mem, key: string) {
    && (forall i :: Bears(mem', key, i) <==> Bears(mem, key, i))
    && (forall i :: Bears(mem, key, i) ==> DataOf(mem', i) == DataOf(mem, i))
    && Get(Entries(mem'.log), key) == Get(Entries(mem.log), key)
  }

  lemma KeptShows(mem: Mem, mem': Mem, key: string, v: Option<string>)
    requires KeyKept(mem, mem', key) && Shows(mem, key, v)
    ensures Shows(mem', key, v)
  {
    hide Bears, Entries;
    if v.Some? {
      var i :| Bears(mem, key, i) && DataOf(mem, i) == v.value;
      assert Bears(mem', key, i);
    }
  }

  /** Writing over the data of a record changes no other record's. */
  lemma WriteDataKeeps(mem: Mem, i: nat, d: string, k: nat)
    requires CellsOk(mem) && i < |mem.recs| && k < |mem.recs|
    ensures DataOf(WriteData(mem, i, d), k) == if k == i then d else DataOf(mem, k)
    ensures WriteData(mem, i, d) == mem.(data := WriteData(mem, i, d).data) && |WriteData(mem, i, d).data| == |mem.data|
  {
    if k < i {
      assert mem.recs[k].cell != mem.recs[i].cell;
    } else if i < k {
      assert mem.recs[i].cell != mem.recs[k].cell;
    }
  }

  lemma WriteKept(mem: Mem, i: nat, d: string, key: string)
    requires MemOk(mem) && i < |mem.recs| && !Bears(mem, key, i)
    ensures KeyKept(mem, WriteData(mem, i, d), key)
  {
    hide SlotOk, Entries, DbContents.Hash;
    forall k | Bears(mem, key, k)
      ensures DataOf(WriteData(mem, i, d), k) == DataOf(mem, k)
    {
      WriteDataKeeps(mem, i, d, k);
    }
  }

  lemma DataUnaltered(mem: Mem, p: nat, proc: Proc, key: string)
    requires MemOk(mem) && Local(mem, p, proc) && !Alters(proc, key) && DataStep(proc.pc)
    ensures KeyKept(mem, MemAfter(mem, p, proc), key)
  {
    hide SlotOk, Entries, DbContents.Hash, Lacks, Target, AllBlank, CellsOk, WriteData;
    OkSizes(mem);
    var op, pc := proc.op, proc.pc;
    match pc
    case BlankData(j, place, i, save) => WriteKept(mem, i, Blank(DataOf(mem, i)), key);
    case Overwrite(j, i) => WriteKept(mem, i, op.data, key);
    case ReuseData(front, i) =>
      if Bears(mem, key, i) {
        BearsOne(mem, key, i, i);
      }
      WriteKept(mem, i, op.data, key);
    case AppendDat(front) => AppendKept(mem, op.data, key);
    case Release(a) => ReleaseKept(mem, op, a, key);
  }

  lemma AppendKept(mem: Mem, d: string, key: string)
    requires CellsOk(mem)
    ensures KeyKept(mem, mem.(data := mem.data + [d]), key)
  {
    hide Entries, DbContents.Hash;
  }

  lemma ReleaseKept(mem: Mem, op: Op, a: Answer, key: string)
    requires !op.NextRec? && (op.Fetch? || op.key != key)
    ensures KeyKept(mem, mem.(log := mem.log + [Done(op.Call(), a)]), key)
  {
    hide Entries, DbContents.Hash;
    EntriesStep(mem.log, Done(op.Call(), a));
  }

  /** A record that has just left the chain of another key is no concern of this one. */
  lemma BlankUnaltered(mem: Mem, p: nat, proc: Proc, key: string)
    requires MemOk(mem) && Local(mem, p, proc) && !Alters(proc, key) && proc.pc.BlankIdx?
    ensures KeyKept(mem, MemAfter(mem, p, proc), key)
  {
    hide Entries, DbContents.Hash, Lacks, Target, AllBlank, CellsOk, SlotOk, Without;
    OkSizes(mem);
    HashSlot(key);
    var i, s, j, mem' := proc.pc.i, proc.op.Slot(), proc.pc.j, MemAfter(mem, p, proc);
    OnSlot0(mem, s, j);
    WithoutMembers(mem.lists[s], j);
    if Bears(mem, key, i) {
      BearsOne(mem, key, i, i);
    }
    var t := 1 + DbContents.Hash(key);
    forall k
      ensures Bears(mem', key, k) <==> Bears(mem, key, k)
      ensures Bears(mem, key, k) ==> DataOf(mem', k) == DataOf(mem, k)
    {
      assert t != s ==> mem'.lists[t] == mem.lists[t];
      if k == i && t != s && k in mem.lists[t] {
        ListOwns0(mem, t, k);
      }
    }
  }

  lemma ListOwns0(mem: Mem, s: nat, i: nat)
    requires MemOk(mem) && s < SLOTS && i in mem.lists[s]
    ensures i < |mem.recs| && mem.owner[i] == s
  {
    assert SlotOk(mem, s);
    ListOwns(mem, s, i);
  }

  /** Nor is one that has just joined it. */
  lemma LinkUnaltered(mem: Mem, p: nat, proc: Proc, key: string)
    requires MemOk(mem) && Local(mem, p, proc) && !Alters(proc, key) && proc.pc.LinkChain?
    ensures KeyKept(mem, MemAfter(mem, p, proc), key)
  {
    hide Entries, DbContents.Hash, Lacks, Target, AllBlank, CellsOk, SlotOk;
    OkSizes(mem);
    HashSlot(key);
    var i, s, mem' := proc.pc.i, proc.op.Slot(), MemAfter(mem, p, proc);
    var t := 1 + DbContents.Hash(key);
    forall k
      ensures Bears(mem', key, k) <==> Bears(mem, key, k)
    {
      assert t != s ==> mem'.lists[t] == mem.lists[t];
      assert t == s ==> (k in mem'.lists[t] <==> k == i || k in mem.lists[t]);
    }
  }

  lemma HashSlot(key: string)
    ensures 1 + DbContents.Hash(key) < SLOTS
  {
  }

  lemma OnSlot0(mem: Mem, s: nat, j: nat)
    requires MemOk(mem) && s < SLOTS && j < |mem.lists[s]|
    ensures mem.lists[s][j] < |mem.recs| && mem.owner[mem.lists[s][j]] == s
    ensures forall k :: 0 <= k < |mem.lists[s]| && k != j ==> mem.lists[s][k] != mem.lists[s][j]
  {
    assert SlotOk(mem, s);
    OnSlot(mem, s, j);
  }

  /** A memory in which the chain of the key, and keys and data of its records, are the same. */
  lemma SameChain(mem: Mem, mem': Mem, key: string)
    requires Sizes(mem) && Sizes(mem') && mem'.data == mem.data && mem'.log == mem.log
    requires 1 + DbContents.Hash(key) < SLOTS
    requires var t := 1 + DbContents.Hash(key);
             && mem'.lists[t] == mem.lists[t]
             && (forall i :: i in mem.lists[t] ==> i < |mem.recs| && i < |mem'.recs|)
             && forall i :: i in mem.lists[t] ==>
                  mem'.recs[i].key == mem.recs[i].key && mem'.recs[i].cell == mem.recs[i].cell
    ensures KeyKept(mem, mem', key)
  {
    hide Entries, DbContents.Hash;
  }

  /** Records in hand are on no chain, and other writes change neither keys nor chains. */
  lemma RestUnaltered(mem: Mem, p: nat, proc: Proc, key: string)
    requires MemOk(mem) && Local(mem, p, proc)
    requires !DataStep(proc.pc) && !proc.pc.BlankIdx? && !proc.pc.LinkChain?
    ensures KeyKept(mem, MemAfter(mem, p, proc), key)
  {
    hide Entries, DbContents.Hash, Lacks, Target, AllBlank, CellsOk, SlotOk, KeyKept, Blank;
    OkSizes(mem);
    HashSlot(key);
    var t := 1 + DbContents.Hash(key);
    forall i | i in mem.lists[t]
      ensures i < |mem.recs| && mem.owner[i] == t
    {
      ListOwns0(mem, t, i);
    }
    SameChain(mem, MemAfter(mem, p, proc), key);
  }

  lemma Unaltered(mem: Mem, p: nat, proc: Proc, key: string)
    requires MemOk(mem) && Local(mem, p, proc) && !Alters(proc, key)
    ensures KeyKept(mem, MemAfter(mem, p, proc), key)
  {
    hide MemOk, Local, KeyKept, MemAfter, Alters, DataStep;
    if DataStep(proc.pc) {
      DataUnaltered(mem, p, proc, key);
    } else if proc.pc.BlankIdx? {
      BlankUnaltered(mem, p, proc, key);
    } else if proc.pc.LinkChain? {
      LinkUnaltered(mem, p, proc, key);
    } else {
      RestUnaltered(mem, p, proc, key);
    }
  }

  // ----- what the other processes know

  /** Other writes change no data, and no record's data extent. */
  lemma NoDataWritten(mem: Mem, p: nat, proc: Proc, i: nat)
    requires !DataStep(proc.pc) && i < |mem.recs|
    ensures DataOf(MemAfter(mem, p, proc), i) == DataOf(mem, i)
  {
    hide MemAfter;
    SameCells(mem, p, proc);
  }

  lemma SameCells(mem: Mem, p: nat, proc: Proc)
    requires !DataStep(proc.pc)
    ensures var mem' := MemAfter(mem, p, proc);
            mem'.data == mem.data && |mem'.recs| >= |mem.recs| && forall i :: 0 <= i < |mem.recs| ==>
                mem'.recs[i].cell == mem.recs[i].cell
  {
    hide Blank, Without, DbContents.Hash;
  }

  /** The data of a record that another process has in hand stay. */
  lemma HandDataKept(mem: Mem, p: nat, proc: Proc, q: nat, i: nat)
    requires MemOk(mem) && Local(mem, p, proc) && i < |mem.recs| && mem.owner[i] == InHand(q) && q != p
    ensures DataOf(MemAfter(mem, p, proc), i) == DataOf(mem, i)
  {
    hide MemOk, PcOk, DataOf, WriteData;
    OkSizes(mem);
    CellsFine(mem);
    var pc := proc.pc;
    if pc.BlankData? || pc.Overwrite? {
      WrittenOwner(mem, p, proc);
      WriteDataKeeps(mem, pc.i, if pc.BlankData? then Blank(DataOf(mem, pc.i)) else proc.op.data, i);
    } else if pc.ReuseData? {
      WriteDataKeeps(mem, pc.i, proc.op.data, i);
    } else if !pc.AppendDat? && !pc.Release? {
      NoDataWritten(mem, p, proc, i);
    } else {
      SameData(mem, p, proc, i);
    }
  }

  lemma SameData(mem: Mem, p: nat, proc: Proc, i: nat)
    requires proc.pc.AppendDat? || proc.pc.Release?
    requires i < |mem.recs| && CellsOk(mem)
    ensures DataOf(MemAfter(mem, p, proc), i) == DataOf(mem, i)
  {
  }

  lemma WrittenOwner(mem: Mem, p: nat, proc: Proc)
    requires MemOk(mem) && Sizes(mem) && Local(mem, p, proc) && (proc.pc.BlankData? || proc.pc.Overwrite?)
    ensures proc.pc.i < |mem.recs| && mem.owner[proc.pc.i] < SLOTS
  {
    hide MemOk, DbContents.Hash;
    OnSlot0(mem, proc.op.Slot(), proc.pc.j);
  }

  /** The data extent that another process has appended, and not yet described by a record, stays. */
  lemma FreshDataKept(mem: Mem, p: nat, proc: Proc, c: nat)
    requires MemOk(mem) && Local(mem, p, proc) && c < |mem.data|
    requires forall i :: 0 <= i < |mem.recs| ==> mem.recs[i].cell != c
    ensures c < |MemAfter(mem, p, proc).data| && MemAfter(mem, p, proc).data[c] == mem.data[c]
  {
    hide DbContents.Hash, Lacks, Target, AllBlank, SlotOk, Blank, Without;
    OkSizes(mem);
  }

  /** What is known of one key survives if it is kept. */
  lemma KeyFacts(mem: Mem, mem': Mem, op: Op)
    requires !op.NextRec? && KeyKept(mem, mem', op.key)
    ensures var e, e' := Entries(mem.log), Entries(mem'.log);
            && Reply(e', op.Call()) == Reply(e, op.Call()) && Succeeds(op, e') == Succeeds(op, e)
            && (Shows(mem, op.key, Get(e, op.key)) ==> Shows(mem', op.key, Get(e', op.key)))
            && (Shows(mem, op.key, Get(After(e, op.Call()), op.key)) ==>
                 Shows(mem', op.key, Get(After(e', op.Call()), op.key)))
  {
    hide Shows, Entries, KeyKept, Reply, After;
    var e, e' := Entries(mem.log), Entries(mem'.log);
    KeptGet(mem, mem', op.key);
    SameAnswer(op, e, e');
    if Shows(mem, op.key, Get(e, op.key)) {
      KeptShows(mem, mem', op.key, Get(e, op.key));
    }
    if Shows(mem, op.key, Get(After(e, op.Call()), op.key)) {
      KeptShows(mem, mem', op.key, Get(After(e, op.Call()), op.key));
    }
  }

  /** What a process knows of the data survives if what it speaks of is kept. */
  lemma KnowsKept(mem: Mem, mem': Mem, op: Op, pc: Pc)
    requires OpFits(op, pc) && Knows(mem, op, pc)
    requires !op.NextRec? && op.Slot() in Holding(op, pc) ==> KeyKept(mem, mem', op.key)
    requires Hand(pc).Some? ==> DataOf(mem', Hand(pc).value) == DataOf(mem, Hand(pc).value)
    requires FreshCell(pc).Some? && FreshCell(pc).value < |mem.data| ==>
      FreshCell(pc).value < |mem'.data| && mem'.data[FreshCell(pc).value] == mem.data[FreshCell(pc).value]
    ensures Knows(mem', op, pc)
  {
    hide Shows, Entries, KeyKept, DbContents.Hash, Reply, After, DataOf, Get, Succeeds;
    if !op.NextRec? && op.Slot() in Holding(op, pc) {
      KeyFacts(mem, mem', op);
    }
  }

  lemma KeptGet(mem: Mem, mem': Mem, key: string)
    requires KeyKept(mem, mem', key)
    ensures Get(Entries(mem'.log), key) == Get(Entries(mem.log), key)
  {
  }

  /** A call's answer, and what it leaves of its key, depend on the key alone. */
  lemma SameAnswer(op: Op, e: map<string, string>, e': map<string, string>)
    requires !op.NextRec? && Get(e', op.key) == Get(e, op.key)
    ensures Reply(e', op.Call()) == Reply(e, op.Call())
    ensures Get(After(e', op.Call()), op.key) == Get(After(e, op.Call()), op.key)
  {
  }

  lemma OthersKnowData(sys: Sys, p: nat, op: Op, q: nat)
    requires Inv(sys) && DataInv(sys) && p < |sys.procs| && q < |sys.procs| && q != p
    ensures DataLocal(MemAfter(sys.mem, p, sys.procs[p]), sys.procs[q])
  {
    hide MemOk, OwnerOk, PatchOk, PcOk, Knows, Shows, MemAfter, KeyKept, Entries, Hand, FreshCell, DbContents.Hash;
    OkSizes(sys.mem);
    var mem, a, b := sys.mem, sys.procs[p], sys.procs[q];
    assert Local(mem, p, a) && Local(mem, q, b) && Compatible(a, b) && DataLocal(mem, b);
    if !b.op.NextRec? && b.op.Slot() in Holding(b.op, b.pc) {
      assert !Alters(a, b.op.key);
      Unaltered(mem, p, a, b.op.key);
    }
    if Hand(b.pc).Some? {
      HandDataKept(mem, p, a, q, Hand(b.pc).value);
    }
    if FreshCell(b.pc).Some? {
      FreshDataKept(mem, p, a, FreshCell(b.pc).value);
    }
    KnowsKept(mem, MemAfter(mem, p, a), b.op, b.pc);
  }

  // ----- what the process that steps knows

  /** A search knows what its end means. */
  lemma WalkKnowsData(mem: Mem, p: nat, proc: Proc)
    requires MemOk(mem) && Local(mem, p, proc) && DataLocal(mem, proc) && proc.pc.Walk?
    ensures DataLocal(mem, WalkStep(mem, proc, proc.pc.j, proc.pc.place, proc.pc.off))
  {
    hide CellsOk, SlotOk, Target, AtPos, Shows, Bears, Entries, DbContents.Hash, Reply, After;
    OkSizes(mem);
    var op, j, off := proc.op, proc.pc.j, proc.pc.off;
    var s, v := op.Slot(), Get(Entries(mem.log), op.key);
    WalkBound(mem, s, j, proc.pc.place, off);
    ListAt(mem, s, j, proc.pc.place, off);
    if off == 0 {
      assert mem.lists[s][..j] == mem.lists[s];
      LacksBears(mem, op.key);
      ShowsNone(mem, op.key, v);
      MissingMeans(op, Entries(mem.log));
    } else {
      var i := off - 1;
      if mem.recs[i].key == op.key {
        ListBears(mem, s, j, op.key);
        ShowsSome(mem, op.key, v, i);
        FoundMeans(op, Entries(mem.log));
      }
    }
  }

  lemma LacksBears(mem: Mem, key: string)
    requires 1 + DbContents.Hash(key) < |mem.lists| && Lacks(mem, mem.lists[1 + DbContents.Hash(key)], key)
    ensures forall i :: !Bears(mem, key, i)
  {
  }

  lemma ListBears(mem: Mem, s: nat, j: nat, key: string)
    requires s == 1 + DbContents.Hash(key) < |mem.lists| && j < |mem.lists[s]| && mem.lists[s][j] < |mem.recs|
    requires mem.recs[mem.lists[s][j]].key == key
    ensures Bears(mem, key, mem.lists[s][j])
  {
  }

  /** What a call answers for a key that the map lacks. */
  lemma MissingMeans(op: Op, e: map<string, string>)
    requires !op.NextRec? && op.ValidFlag() && op.key !in e
    ensures if op.Store? && op.flag != DbStore.DB_REPLACE then Succeeds(op, e)
            else Reply(e, op.Call()) == Missing(op) && Get(After(e, op.Call()), op.key) == None
  {
  }

  /** What a call answers for a key that the map has. */
  lemma FoundMeans(op: Op, e: map<string, string>)
    requires !op.NextRec? && op.ValidFlag() && op.key in e
    ensures op.Fetch? ==> Reply(e, op.Call()) == Data(Some(e[op.key])) && After(e, op.Call()) == e
    ensures op.Store? && op.flag == DbStore.DB_INSERT ==> Reply(e, op.Call()) == Code(1) && After(e, op.Call()) == e
    ensures op.Delete? || (op.Store? && op.flag != DbStore.DB_INSERT) ==> Succeeds(op, e)
  {
  }

  /** What a call that succeeds leaves of its key. */
  lemma SuccessMeans(op: Op, e: map<string, string>)
    requires Succeeds(op, e)
    ensures op.Delete? ==> Get(After(e, op.Call()), op.key) == None
    ensures op.Store? ==> Get(After(e, op.Call()), op.key) == Some(op.data)
  {
  }

  /** The end of a call: the data are read, or the record is gone. */
  lemma EndKnowsData(mem: Mem, p: nat, proc: Proc, op: Op)
    requires MemOk(mem) && Local(mem, p, proc) && DataLocal(mem, proc) && (proc.pc.FetchData? || proc.pc.FreeDone?)
    ensures DataLocal(MemAfter(mem, p, proc), ProcAfter(mem, proc, op))
  {
    hide SlotOk, Target, Bears, Entries, DbContents.Hash, Reply, After, CellsOk, DataOf;
    OkSizes(mem);
    var call, e := proc.op, Entries(mem.log);
    if proc.pc.FetchData? {
      ListBears(mem, call.Slot(), proc.pc.j, call.key);
      ShowsSome(mem, call.key, Get(e, call.key), proc.pc.i);
      FoundMeans(call, e);
    } else {
      SuccessMeans(call, e);
      LacksBears(mem, call.key);
    }
  }

  /** The end of a call that writes over the data. */
  lemma OverwriteKnowsData(mem: Mem, p: nat, proc: Proc, op: Op)
    requires MemOk(mem) && Local(mem, p, proc) && DataLocal(mem, proc) && proc.pc.Overwrite?
    ensures DataLocal(MemAfter(mem, p, proc), ProcAfter(mem, proc, op))
  {
    hide MemOk, Target, Bears, Entries, DbContents.Hash, Reply, After, WriteData, DataOf;
    OkSizes(mem);
    CellsFine(mem);
    var call, e, i := proc.op, Entries(mem.log), proc.pc.i;
    ListBears(mem, call.Slot(), proc.pc.j, call.key);
    ShowsSome(mem, call.key, Get(e, call.key), i);
    FoundMeans(call, e);
    SuccessMeans(call, e);
    WriteDataKeeps(mem, i, call.data, i);
    ListBears(MemAfter(mem, p, proc), call.Slot(), proc.pc.j, call.key);
  }

  /** The end of a call that links a record in. */
  lemma LinkKnowsData(mem: Mem, p: nat, proc: Proc, op: Op)
    requires Sizes(mem) && Local(mem, p, proc) && DataLocal(mem, proc) && proc.pc.LinkChain?
    ensures DataLocal(MemAfter(mem, p, proc), ProcAfter(mem, proc, op))
  {
    hide Lacks, Target, Bears, Entries, DbContents.Hash, Reply, After, WriteData, DataOf, Linked;
    var call, i := proc.op, proc.pc.i;
    SuccessMeans(call, Entries(mem.log));
    LinkedIs(mem, call.Slot(), i);
    ListBears(MemAfter(mem, p, proc), call.Slot(), 0, call.key);
  }

  lemma CellsFine(mem: Mem)
    requires MemOk(mem)
    ensures CellsOk(mem)
  {
  }

  lemma LinkedIs(mem: Mem, s: nat, i: nat)
    requires Sizes(mem) && s < SLOTS && i < |mem.recs|
    ensures var mem' := Linked(mem, s, i);
            mem'.recs == mem.recs && mem'.data == mem.data && mem'.log == mem.log
            && |mem'.lists| == SLOTS && mem'.lists[s] == [i] + mem.lists[s] && DataOf(mem', i) == DataOf(mem, i)
  {
  }

  /** The first write of a deletion, after which the call will succeed. */
  lemma BlankKnowsData(mem: Mem, p: nat, proc: Proc, op: Op)
    requires MemOk(mem) && Local(mem, p, proc) && DataLocal(mem, proc) && proc.pc.BlankData?
    ensures DataLocal(MemAfter(mem, p, proc), ProcAfter(mem, proc, op))
  {
    hide SlotOk, Target, Bears, Entries, DbContents.Hash, Reply, After, CellsOk, Shows, Lacks, AllBlank, DataOf;
    OkSizes(mem);
    ListBears(mem, proc.op.Slot(), proc.pc.j, proc.op.key);
    ShowsSome(mem, proc.op.key, Get(Entries(mem.log), proc.op.key), proc.pc.i);
    FoundMeans(proc.op, Entries(mem.log));
  }

  /** Steps to points at which nothing more is known than before. */
  predicate Early(proc: Proc) {
    proc.pc.Idle? || proc.pc.Dumped? || proc.pc.WantChain? || proc.pc.WalkHead? || proc.pc.WantFreeDel?
    || proc.pc.Release?
    || proc.op.NextRec?
  }

  lemma EarlyKnowsData(mem: Mem, p: nat, proc: Proc, op: Op)
    requires Sizes(mem) && Local(mem, p, proc) && DataLocal(mem, proc) && Early(proc)
    requires proc.pc.WantChain? ==> Shows(mem, proc.op.key, Get(Entries(mem.log), proc.op.key))
    ensures DataLocal(MemAfter(mem, p, proc), ProcAfter(mem, proc, op))
  {
    hide Bears, Entries, DbContents.Hash, Reply, After, Shows, AllBlank, DataOf, PcOk;
  }

  predicate Removing(pc: Pc) {
    pc.ReadFreePtr? || pc.BlankIdx? || pc.LinkFree? || pc.Bypass?
  }

  lemma RemoveKnowsData(mem: Mem, p: nat, proc: Proc, op: Op)
    requires Sizes(mem) && Local(mem, p, proc) && DataLocal(mem, proc) && Removing(proc.pc)
    ensures DataLocal(MemAfter(mem, p, proc), ProcAfter(mem, proc, op))
  {
    hide Bears, Entries, DbContents.Hash, Reply, After, Shows, AllBlank, DataOf, PcOk, Without, Blank;
  }

  /** The steps of an insertion that write data, or the record that describes them. */
  lemma PlaceKnowsData(mem: Mem, p: nat, proc: Proc, op: Op)
    requires Sizes(mem) && CellsOk(mem) && Local(mem, p, proc) && DataLocal(mem, proc)
    requires proc.pc.ReuseData? || proc.pc.ReuseIdx? || proc.pc.AppendDat? || proc.pc.AppendIdx?
    ensures DataLocal(MemAfter(mem, p, proc), ProcAfter(mem, proc, op))
  {
    hide Target, Bears, Entries, DbContents.Hash, Reply, After, Shows, Lacks, AllBlank;
  }

  /** Its other steps. */
  lemma InsertKnowsData(mem: Mem, p: nat, proc: Proc, op: Op)
    requires Sizes(mem) && Local(mem, p, proc) && DataLocal(mem, proc)
    requires (Storing(proc.pc) && !proc.pc.LinkChain?) || proc.pc.ReadFront? || proc.pc.Scan?
    requires !proc.pc.ReuseData? && !proc.pc.ReuseIdx? && !proc.pc.AppendDat? && !proc.pc.AppendIdx?
    ensures DataLocal(MemAfter(mem, p, proc), ProcAfter(mem, proc, op))
  {
    hide Target, Bears, Entries, DbContents.Hash, Reply, After, Shows, Lacks, AllBlank, PcOk, Without;
  }

  lemma SelfKnowsData(mem: Mem, p: nat, proc: Proc, op: Op)
    requires MemOk(mem) && Sizes(mem) && Local(mem, p, proc) && DataLocal(mem, proc)
    requires proc.pc.WantChain? ==> Shows(mem, proc.op.key, Get(Entries(mem.log), proc.op.key))
    ensures OpFits(proc.op, proc.pc) && DataLocal(MemAfter(mem, p, proc), ProcAfter(mem, proc, op))
  {
    hide MemOk, Local, DataLocal, Early, Removing, Storing;
    LocalFits(mem, p, proc);
    var pc := proc.pc;
    if pc.Walk? {
      WalkKnowsData(mem, p, proc);
    } else if pc.FetchData? || pc.FreeDone? {
      EndKnowsData(mem, p, proc, op);
    } else if pc.Overwrite? {
      OverwriteKnowsData(mem, p, proc, op);
    } else if pc.LinkChain? {
      LinkKnowsData(mem, p, proc, op);
    } else if pc.BlankData? {
      BlankKnowsData(mem, p, proc, op);
    } else if Early(proc) {
      EarlyKnowsData(mem, p, proc, op);
    } else if Removing(pc) {
      RemoveKnowsData(mem, p, proc, op);
    } else if pc.ReuseData? || pc.ReuseIdx? || pc.AppendDat? || pc.AppendIdx? {
      CellsFine(mem);
      PlaceKnowsData(mem, p, proc, op);
    } else {
      Remaining(proc);
      InsertKnowsData(mem, p, proc, op);
    }
  }

  lemma Remaining(proc: Proc)
    requires OpFits(proc.op, proc.pc) && !Early(proc) && !Removing(proc.pc) && !proc.pc.Walk? && !proc.pc.BlankData?
    requires !proc.pc.FetchData? && !proc.pc.Overwrite? && !proc.pc.FreeDone? && !proc.pc.LinkChain?
    ensures Storing(proc.pc) || proc.pc.ReadFront? || proc.pc.Scan?
  {
  }

  // ----- all processes, all keys

  /** A chain lock is granted only when nobody is altering what the chain shows. */
  lemma GrantShows(sys: Sys, p: nat)
    requires Inv(sys) && DataInv(sys) && Enabled(sys, p) && sys.procs[p].pc.WantChain?
    ensures OpFits(sys.procs[p].op, WantChain)
    ensures Shows(sys.mem, sys.procs[p].op.key, Get(Entries(sys.mem.log), sys.procs[p].op.key))
  {
    hide MemOk, OwnerOk, PatchOk, Compatible, PcOk, Shows, Entries, DbContents.Hash;
    OkSizes(sys.mem);
    assert Local(sys.mem, p, sys.procs[p]) && DataLocal(sys.mem, sys.procs[p]);
  }

  /** The process that has altered a key lets go of its chain when the files show what the map has become. */
  lemma ReleasedShows(mem: Mem, p: nat, proc: Proc, op: Op, key: string)
    requires Sizes(mem) && Local(mem, p, proc) && DataLocal(mem, proc)
    requires Alters(proc, key) && !Alters(ProcAfter(mem, proc, op), key)
    ensures Shows(MemAfter(mem, p, proc), key, Get(Entries(MemAfter(mem, p, proc).log), key))
  {
    hide Bears, Entries, DbContents.Hash, Reply, After, PcOk;
    ReleasedAt(mem, p, proc, op, key);
    EntriesStep(mem.log, Done(proc.op.Call(), proc.pc.answer));
    LogShows(mem, MemAfter(mem, p, proc), key, Get(After(Entries(mem.log), proc.op.Call()), key));
  }

  lemma ReleasedAt(mem: Mem, p: nat, proc: Proc, op: Op, key: string)
    requires Sizes(mem) && Local(mem, p, proc)
    requires Alters(proc, key) && !Alters(ProcAfter(mem, proc, op), key)
    ensures proc.pc.Release?
  {
    hide PcOk, DbContents.Hash;
  }

  lemma LogShows(mem: Mem, mem': Mem, key: string, v: Option<string>)
    requires mem' == mem.(log := mem'.log) && Shows(mem, key, v)
    ensures Shows(mem', key, v)
  {
    hide DbContents.Hash;
    if v.Some? {
      var i :| Bears(mem, key, i) && DataOf(mem, i) == v.value;
      assert Bears(mem', key, i) && DataOf(mem', i) == v.value;
    } else {
      forall i
        ensures !Bears(mem', key, i)
      {
        assert !Bears(mem, key, i);
      }
    }
  }

  lemma StepKeepsData(sys: Sys, p: nat, op: Op)
    requires Inv(sys) && DataInv(sys) && Enabled(sys, p) && OpFits(sys.procs[p].op, sys.procs[p].pc)
    ensures DataInv(Exec(sys, p, op))
  {
    hide MemOk, Local, OwnerOk, PatchOk, Compatible, Shows, Entries, MemAfter, ProcAfter, Alters, DataLocal, KeyKept;
    OkSizes(sys.mem);
    var mem, proc, sys' := sys.mem, sys.procs[p], Exec(sys, p, op);
    assert Local(mem, p, proc) && DataLocal(mem, proc);
    if proc.pc.WantChain? {
      GrantShows(sys, p);
    }
    SelfKnowsData(mem, p, proc, op);
    forall q | 0 <= q < |sys'.procs|
      ensures DataLocal(sys'.mem, sys'.procs[q])
    {
      if q != p {
        OthersKnowData(sys, p, op, q);
      }
    }
    forall key | forall q :: 0 <= q < |sys'.procs| ==> !Alters(sys'.procs[q], key)
      ensures Shows(sys'.mem, key, Get(Entries(sys'.mem.log), key))
    {
      if Alters(proc, key) {
        assert !Alters(sys'.procs[p], key);
        ReleasedShows(mem, p, proc, op, key);
      } else {
        forall q | 0 <= q < |sys.procs|
          ensures !Alters(sys.procs[q], key)
        {
          assert !Alters(sys'.procs[q], key);
        }
        Unaltered(mem, p, proc, key);
        KeptGet(mem, sys'.mem, key);
        KeptShows(mem, sys'.mem, key, Get(Entries(mem.log), key));
      }
    }
  }

  // ----- runs

  /** Each finished call has answered as on the map made by those that finished before it. */
  ghost predicate Legal(log: seq<Done>) {
    forall k :: 0 <= k < |log| ==> log[k].answer == Reply(Entries(log[..k]), log[k].call)
  }

  lemma LogStep(sys: Sys, p: nat, op: Op)
    requires Inv(sys) && DataInv(sys) && Enabled(sys, p) && OpFits(sys.procs[p].op, sys.procs[p].pc)
    requires Legal(sys.mem.log)
    ensures Legal(Exec(sys, p, op).mem.log)
    ensures var a, b := sys.procs[p], Exec(sys, p, op);
            if a.pc.Release? && !a.op.NextRec? then b.mem.log == sys.mem.log + [Done(a.op.Call(), a.pc.answer)]
            else b.mem.log == sys.mem.log
  {
    hide MemOk, Local, OwnerOk, PatchOk, Compatible, Shows, Entries;
    hide ProcAfter, Reply, After, AllBlank, Without, Blank, DbContents.Hash;
    var log, log' := sys.mem.log, Exec(sys, p, op).mem.log;
    assert DataLocal(sys.mem, sys.procs[p]);
    forall k | 0 <= k < |log'|
      ensures log'[k].answer == Reply(Entries(log'[..k]), log'[k].call)
    {
      if k < |log| {
        assert log'[..k] == log[..k];
      } else {
        assert log'[..k] == log;
      }
    }
  }

  lemma {:induction false} RunsKeepData(sys: Sys, choices: seq<Choice>, end: Sys)
    requires Inv(sys) && DataInv(sys) && Legal(sys.mem.log) && Runs(sys, choices, end)
    ensures Inv(end) && DataInv(end) && Legal(end.mem.log)
    decreases |choices|
  {
    hide Inv, DataInv, Legal;
    if choices != [] {
      var c := choices[0];
      StepKeepsInv(sys, c.p, c.op);
      StepKeepsData(sys, c.p, c.op);
      LogStep(sys, c.p, c.op);
      RunsKeepData(Exec(sys, c.p, c.op), choices[1..], end);
    }
  }

  /** From an empty database on, in every interleaving of any number of processes, the calls act one at a time: in the
    order in which they finish, each answers as on the map that those before it have made, data included; and what the
    files show of every key that no process is altering is what the map has. */
  lemma ActAsOneMap(n: nat, choices: seq<Choice>, sys: Sys)
    requires Runs(Init(n), choices, sys)
    ensures forall k :: 0 <= k < |sys.mem.log| ==>
      sys.mem.log[k].answer == Reply(Entries(sys.mem.log[..k]), sys.mem.log[k].call)
    ensures forall key :: (forall q :: 0 <= q < |sys.procs| ==> !Alters(sys.procs[q], key)) ==>
      Shows(sys.mem, key, Get(Entries(sys.mem.log), key))
  {
    hide Runs, Shows, Alters, Reply, Entries, Inv, DataLocal;
    StartsRight(n);
    RunsKeepData(Init(n), choices, sys);
  }

  // ----- what a sequential reader gets

  /** Process q is storing these data under the key, and will succeed. */
  ghost predicate Stores(sys: Sys, q: nat, key: string, d: string) {
    && q < |sys.procs| && sys.procs[q].op.Store? && sys.procs[q].op.key == key && sys.procs[q].op.data == d
    && Alters(sys.procs[q], key) && Succeeds(sys.procs[q].op, Entries(sys.mem.log))
  }

  /** The record that a sequential reader has come to is on the chain of its key, or in the hand of a process that is
      about to put it there. */
  lemma ReadsWhere(sys: Sys, p: nat)
    requires Inv(sys) && p < |sys.procs| && sys.procs[p].pc.NrData?
    ensures var n := sys.procs[p].pc.n;
            && n < |sys.mem.recs| && n < |sys.mem.owner| && var key := sys.mem.recs[n].key;
            if sys.mem.owner[n] < SLOTS then Bears(sys.mem, key, n)
            else var q := sys.mem.owner[n] - SLOTS;
                 && q < |sys.procs| && Hand(sys.procs[q].pc) == Some(n)
                 && (sys.procs[q].pc.LinkChain? || sys.procs[q].pc.EndUnlock?)
  {
    hide Spells, PatchOk, DbContents.Hash, Compatible;
    NextRecSeesWhole(sys, p);
    OkSizes(sys.mem);
    var n := sys.procs[p].pc.n;
    assert OwnerOk(sys, n);
    var s := sys.mem.owner[n];
    if s < SLOTS {
      assert SlotOk(sys.mem, s);
      var k :| 0 <= k < |sys.mem.lists[s]| && sys.mem.lists[s][k] == n;
    }
  }

  /** What is known of a key whose record is on its chain while nobody has the free list to himself: the process that
      holds the chain has found it and not begun, or is done. */
  lemma AlteringShows(mem: Mem, q: nat, proc: Proc, key: string, n: nat)
    requires MemOk(mem) && Local(mem, q, proc) && DataLocal(mem, proc) && Alters(proc, key) && Bears(mem, key, n)
    requires 0 !in proc.held
    ensures Get(Entries(mem.log), key) == Some(DataOf(mem, n))
            || (proc.op.Store? && proc.op.data == DataOf(mem, n) && Succeeds(proc.op, Entries(mem.log)))
  {
    hide MemOk, SlotOk, CellsOk, Shows, Entries, DbContents.Hash, DataOf, AllBlank, Target, Bears, Reply, After, Lacks;
    OkSizes(mem);
    var op, e := proc.op, Entries(mem.log);
    if proc.pc.Release? {
      ShowsSome(mem, key, Get(After(e, op.Call()), key), n);
      StoredOrKept(op, e, DataOf(mem, n));
    } else if proc.pc.WalkHead? || proc.pc.Walk? || proc.pc.Overwrite? || proc.pc.WantFreeDel? {
      ShowsSome(mem, key, Get(e, key), n);
    } else {
      assert Lacks(mem, mem.lists[op.Slot()], key);
      LacksBears(mem, key);
    }
  }

  /** Data that a call leaves were there before, or are those it stores. */
  lemma StoredOrKept(op: Op, e: map<string, string>, d: string)
    requires !op.NextRec? && op.ValidFlag() && Get(After(e, op.Call()), op.key) == Some(d)
    ensures Get(e, op.key) == Some(d) || (op.Store? && op.data == d && Succeeds(op, e))
  {
  }

  /** The data that a sequential reader is about to read are those that the map has for the key, or those of a store
      that is in progress and will succeed. */
  lemma NextRecData(sys: Sys, p: nat)
    requires Inv(sys) && DataInv(sys) && p < |sys.procs| && sys.procs[p].pc.NrData?
    ensures var n := sys.procs[p].pc.n;
            && n < |sys.mem.recs| && var key, d := sys.mem.recs[n].key, DataOf(sys.mem, n);
            Get(Entries(sys.mem.log), key) == Some(d) || exists q :: Stores(sys, q, key, d)
  {
    hide MemOk, OwnerOk, PatchOk, Shows, Entries, DbContents.Hash, DataOf, Bears, Succeeds, PcOk;
    ReadsWhere(sys, p);
    OkSizes(sys.mem);
    var n := sys.procs[p].pc.n;
    var key, d := sys.mem.recs[n].key, DataOf(sys.mem, n);
    assert Local(sys.mem, p, sys.procs[p]);
    if sys.mem.owner[n] >= SLOTS {
      var q := sys.mem.owner[n] - SLOTS;
      assert Local(sys.mem, q, sys.procs[q]) && DataLocal(sys.mem, sys.procs[q]);
      HandStores(sys.mem, q, sys.procs[q], n);
      assert Stores(sys, q, key, d);
    } else if q :| 0 <= q < |sys.procs| && Alters(sys.procs[q], key) {
      assert Local(sys.mem, q, sys.procs[q]) && DataLocal(sys.mem, sys.procs[q]);
      assert Compatible(sys.procs[p], sys.procs[q]);
      FreeNotHeld(sys.mem, q, sys.procs[q]);
      AlteringShows(sys.mem, q, sys.procs[q], key, n);
      assert Get(Entries(sys.mem.log), key) == Some(d) || Stores(sys, q, key, d);
    } else {
      ShowsSome(sys.mem, key, Get(Entries(sys.mem.log), key), n);
    }
  }

  /** A process with a record in hand that has a key is storing it. */
  lemma HandStores(mem: Mem, q: nat, proc: Proc, n: nat)
    requires Sizes(mem) && Local(mem, q, proc) && DataLocal(mem, proc) && n < |mem.recs|
    requires (proc.pc.LinkChain? || proc.pc.EndUnlock?) && Hand(proc.pc) == Some(n)
    ensures proc.op.Store? && proc.op.key == mem.recs[n].key && proc.op.data == DataOf(mem, n)
    ensures Alters(proc, proc.op.key) && Succeeds(proc.op, Entries(mem.log))
  {
    hide Entries, DbContents.Hash, DataOf, Lacks, Reply;
  }

  /** The free list is only ever held to oneself by a process that works on a chain. */
  lemma FreeNotHeld(mem: Mem, q: nat, proc: Proc)
    requires Sizes(mem) && Local(mem, q, proc) && !proc.op.NextRec?
    ensures 0 in proc.held ==> proc.held[0] == Write
  {
    hide PcOk, DbContents.Hash;
  }

  lemma StartsRight(n: nat)
    ensures Inv(Init(n)) && DataInv(Init(n)) && Legal(Init(n).mem.log)
  {
    hide DbContents.Hash;
    assert Finished([]) == [];
    forall key
      ensures Shows(Init(n).mem, key, Get(Entries(Init(n).mem.log), key))
    {
      HashSlot(key);
    }
  }
}
