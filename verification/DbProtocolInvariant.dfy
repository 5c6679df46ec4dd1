/** The invariant of the multi-process protocol. */
module DbProtocolInvariant {
  import opened Wrappers
  import opened DbText
  import opened DbLayout
  import opened DbChains
  import DbContents
  import opened DbProtocol

  // ----- what a program point implies about locks and about things in hand

  /** The locks held at a program point: the chain, and at most one of free list, data file and append region. */
  function Holding(op: Op, pc: Pc): map<nat, Mode> {
    var chain := map[op.Slot() := op.ChainMode()];
    match pc
    case Idle => map[]
    case Dumped => map[]
    case WantChain => map[]
    case NrWant(_) => map[]
    case NrRead(_) => map[0 := Read]
    case NrData(_) => map[0 := Read]
    case NrRelease => map[0 := Read]
    case BlankData(_, _, _, _) => chain[0 := Write]
    case ReadFreePtr(_, _, _, _) => chain[0 := Write]
    case BlankIdx(_, _, _, _, _) => chain[0 := Write]
    case LinkFree(_, _, _) => chain[0 := Write]
    case Bypass(_, _) => chain[0 := Write]
    case FreeDone => chain[0 := Write]
    case ScanHead(_) => chain[0 := Write]
    case Scan(_, _, _, _) => chain[0 := Write]
    case TakeFree(_, _, _, _, _) => chain[0 := Write]
    case ReuseUnlock(_, _) => chain[0 := Write]
    case ScanFail(_) => chain[0 := Write]
    case AppendDat(_) => chain[DAT_FILE := Write]
    case DatUnlock(_, _) => chain[DAT_FILE := Write]
    case AppendIdx(_, _) => chain[IDX_END := Write]
    case EndUnlock(_) => chain[IDX_END := Write]
    case _ => chain
  }

  /** The record in hand. */
  function Hand(pc: Pc): Option<nat> {
    match pc
    case LinkFree(_, i, _) => Some(i)
    case ReuseUnlock(_, i) => Some(i)
    case ReuseData(_, i) => Some(i)
    case ReuseIdx(_, i) => Some(i)
    case LinkChain(i) => Some(i)
    case EndUnlock(i) => Some(i)
    case _ => None
  }

  /** The data extent appended but not yet described by a record. */
  function FreshCell(pc: Pc): Option<nat> {
    match pc
    case DatUnlock(_, c) => Some(c)
    case WantEnd(_, c) => Some(c)
    case AppendIdx(_, c) => Some(c)
    case _ => None
  }

  /** The pointer write still to come. */
  function PatchOf(p: nat, pc: Pc): Option<Pending> {
    match pc
    case LinkFree(place, _, save) => Some(Pending(p, place, save))
    case Bypass(place, save) => Some(Pending(p, place, save))
    case _ => None
  }

  // ----- the memory

  predicate Sizes(mem: Mem) {
    |mem.heads| == |mem.lists| == |mem.patch| == SLOTS && |mem.owner| == |mem.recs|
  }

  /** The head of a list, and the record pointers, as they will be once the pending write has been made. */
  function EffHead(mem: Mem, s: nat): nat
    requires Sizes(mem) && s < SLOTS
  {
    if mem.patch[s].Some? && mem.patch[s].value.place == Head(s) then mem.patch[s].value.v else mem.heads[s]
  }

  function EffPtrs(mem: Mem, s: nat): (ptrs: seq<nat>)
    requires Sizes(mem) && s < SLOTS
    ensures |ptrs| == |mem.recs|
  {
    if mem.patch[s].Some? && mem.patch[s].value.place.Next? && mem.patch[s].value.place.i < |mem.recs|
    then PtrsOf(mem.recs)[mem.patch[s].value.place.i := mem.patch[s].value.v]
    else PtrsOf(mem.recs)
  }

  /** A pointer field of chain s: its head, or the pointer of one of its records. */
  predicate InChain(mem: Mem, s: nat, place: Place) {
    if place.Head? then place.s == s else place.i < |mem.recs| && place.i < |mem.owner| && mem.owner[place.i] == s
  }

  /** Following the pointers spells the list, and the list owns its records. */
  ghost predicate ListOk(mem: Mem, s: nat)
    requires Sizes(mem) && s < SLOTS
  {
    && Spells(EffHead(mem, s), EffPtrs(mem, s), Ids(|mem.recs|), mem.lists[s])
    && OwnsList(mem.owner, s, mem.lists[s])
  }

  /** Keys are on their own hash chain, once; free records are blank. */
  ghost predicate KeysOk(recs: seq<Node>, s: nat, list: seq<nat>) {
    && (forall k :: 0 <= k < |list| ==>
          list[k] < |recs| && if s == 0 then AllBlank(recs[list[k]].key)
              else s == 1 + DbContents.Hash(recs[list[k]].key))
    && (s != 0 ==> forall j, k :: 0 <= j < k < |list| ==> recs[list[j]].key != recs[list[k]].key)
  }

  ghost predicate CellsOk(mem: Mem) {
    && (forall i :: 0 <= i < |mem.recs| ==> mem.recs[i].cell < |mem.data|)
    && (forall i, k :: 0 <= i < k < |mem.recs| ==> mem.recs[i].cell != mem.recs[k].cell)
  }

  ghost predicate SlotOk(mem: Mem, s: nat)
    requires Sizes(mem) && s < SLOTS
  {
    && ListOk(mem, s) && KeysOk(mem.recs, s, mem.lists[s])
    && (mem.patch[s].Some? ==> InChain(mem, s, mem.patch[s].value.place))
  }

  ghost predicate MemOk(mem: Mem) {
    && Sizes(mem) && mem.patch[0] == None && CellsOk(mem)
    && forall s :: 0 <= s < SLOTS ==> SlotOk(mem, s)
  }

  // ----- what each program point knows

  /** The pointer field that leads to position j of a list. */
  function PointingAt(list: seq<nat>, s: nat, j: nat): Place
    requires j <= |list|
  {
    if j == 0 then Head(s) else Next(list[j - 1])
  }

  predicate AtPos(mem: Mem, s: nat, j: nat, place: Place, off: nat)
    requires Sizes(mem) && s < SLOTS
  {
    j <= |mem.lists[s]| && place == PointingAt(mem.lists[s], s, j) && off == Target(Ids(|mem.recs|), mem.lists[s], j)
  }

  predicate AtRec(mem: Mem, s: nat, j: nat, place: Place, i: nat, save: nat)
    requires Sizes(mem) && s < SLOTS
  {
    && j < |mem.lists[s]| && mem.lists[s][j] == i && i < |mem.recs|
    && place == PointingAt(mem.lists[s], s, j) && save == mem.recs[i].ptr
  }

  predicate Lacks(mem: Mem, list: seq<nat>, key: string) {
    forall k :: 0 <= k < |list| ==> list[k] < |mem.recs| && mem.recs[list[k]].key != key
  }

  /** The key is on no record of its chain, and `front` is the chain's head. */
  predicate NewKey(mem: Mem, op: Op, front: nat)
    requires Sizes(mem) && op.Slot() < SLOTS && !op.NextRec?
  {
    Lacks(mem, mem.lists[op.Slot()], op.key) && front == mem.heads[op.Slot()]
  }

  predicate FreeInHand(mem: Mem, op: Op, i: nat)
    requires op.Store?
  {
    i < |mem.recs| && AllBlank(mem.recs[i].key) && |mem.recs[i].key| == |op.key| && mem.recs[i].len == op.Len()
  }

  predicate NewInHand(mem: Mem, op: Op, i: nat)
    requires Sizes(mem) && op.Slot() < SLOTS && !op.NextRec?
  {
    i < |mem.recs| && NewKey(mem, op, mem.recs[i].ptr) && mem.recs[i].key == op.key
  }

  ghost predicate PcOk(mem: Mem, op: Op, pc: Pc)
    requires Sizes(mem) && op.Slot() < SLOTS && OpFits(op, pc)
  {
    var s := op.Slot();
    match pc
    case Idle => true
    case Dumped => false
    case WantChain => true
    case WalkHead => true
    case Release(_) => true
    case Walk(j, place, off) => AtPos(mem, s, j, place, off) && Lacks(mem, mem.lists[s][..j], op.key)
    case FetchData(j, i) => j < |mem.lists[s]| && mem.lists[s][j] == i && i < |mem.recs| && mem.recs[i].key == op.key
    case Overwrite(j, i) => j < |mem.lists[s]| && mem.lists[s][j] == i && i < |mem.recs| && mem.recs[i].key == op.key
    case WantFreeDel(j, place, i, save) => AtRec(mem, s, j, place, i, save) && mem.recs[i].key == op.key
    case BlankData(j, place, i, save) => AtRec(mem, s, j, place, i, save) && mem.recs[i].key == op.key
    case ReadFreePtr(j, place, i, save) => AtRec(mem, s, j, place, i, save) && mem.recs[i].key == op.key
    case BlankIdx(j, place, i, save, freeptr) =>
      AtRec(mem, s, j, place, i, save) && mem.recs[i].key == op.key && freeptr == mem.heads[0]
    case LinkFree(_, i, _) => i < |mem.recs| && mem.recs[i].ptr == mem.heads[0] && AllBlank(mem.recs[i].key)
                              && Lacks(mem, mem.lists[s], op.key)
    case Bypass(_, _) => Lacks(mem, mem.lists[s], op.key)
    case FreeDone => Lacks(mem, mem.lists[s], op.key)
    case ReadFront(_) => Lacks(mem, mem.lists[s], op.key)
    case WantFree(front) => NewKey(mem, op, front)
    case ScanHead(front) => NewKey(mem, op, front)
    case Scan(front, j, place, off) => NewKey(mem, op, front) && AtPos(mem, 0, j, place, off)
    case TakeFree(front, j, place, i, save) =>
      NewKey(mem, op, front) && AtRec(mem, 0, j, place, i, save) && FreeInHand(mem, op, i)
    case ReuseUnlock(front, i) => NewKey(mem, op, front) && FreeInHand(mem, op, i)
    case ReuseData(front, i) => NewKey(mem, op, front) && FreeInHand(mem, op, i)
    case ReuseIdx(front, i) => NewKey(mem, op, front) && FreeInHand(mem, op, i)
    case LinkChain(i) => NewInHand(mem, op, i)
    case ScanFail(front) => NewKey(mem, op, front)
    case WantDat(front) => NewKey(mem, op, front)
    case AppendDat(front) => NewKey(mem, op, front)
    case DatUnlock(front, _) => NewKey(mem, op, front)
    case WantEnd(front, _) => NewKey(mem, op, front)
    case AppendIdx(front, _) => NewKey(mem, op, front)
    case EndUnlock(i) => NewInHand(mem, op, i)
    case NrWant(_) => true
    case NrRead(_) => true
    case NrData(n) => n < |mem.recs| && !AllBlank(mem.recs[n].key)
    case NrRelease => true
  }

  ghost predicate Local(mem: Mem, p: nat, proc: Proc)
    requires Sizes(mem)
  {
    var op, pc := proc.op, proc.pc;
    && OpFits(op, pc) && op.Slot() < SLOTS && proc.held == Holding(op, pc)
    && PcOk(mem, op, pc)
    && (op.Slot() != 0 && op.Slot() in proc.held ==> mem.patch[op.Slot()] == PatchOf(p, pc))
    && (Hand(pc).Some? ==> Hand(pc).value < |mem.owner| && mem.owner[Hand(pc).value] == InHand(p))
    && (FreshCell(pc).Some? ==>
          FreshCell(pc).value < |mem.data| && forall i :: 0 <= i < |mem.recs| ==>
              mem.recs[i].cell != FreshCell(pc).value)
  }

  /** Two processes hold a lock together only for reading, and never have the same fresh data extent. */
  predicate Compatible(a: Proc, b: Proc) {
    && (forall l :: l in a.held && l in b.held ==> a.held[l] == Read && b.held[l] == Read)
    && (FreshCell(a.pc).Some? ==> FreshCell(a.pc) != FreshCell(b.pc))
  }

  /** Each record is owned by a list, or by the one process that has it in hand. */
  ghost predicate OwnerOk(sys: Sys, i: nat)
    requires Sizes(sys.mem) && i < |sys.mem.recs|
  {
    var o := sys.mem.owner[i];
    if o < SLOTS then i in sys.mem.lists[o]
    else o - SLOTS < |sys.procs| && Hand(sys.procs[o - SLOTS].pc) == Some(i)
  }

  /** A pending write belongs to a process that is about to make it, under the chain's lock. */
  ghost predicate PatchOk(sys: Sys, s: nat)
    requires Sizes(sys.mem) && s < SLOTS
  {
    sys.mem.patch[s].Some? ==>
      var p := sys.mem.patch[s].value.p;
      p < |sys.procs| && sys.procs[p].op.Slot() == s && PatchOf(p, sys.procs[p].pc) == sys.mem.patch[s]
  }

  ghost predicate Inv(sys: Sys) {
    && MemOk(sys.mem)
    && (forall i :: 0 <= i < |sys.mem.recs| ==> OwnerOk(sys, i))
    && (forall s :: 0 <= s < SLOTS ==> PatchOk(sys, s))
    && (forall p :: 0 <= p < |sys.procs| ==> Local(sys.mem, p, sys.procs[p]))
    && (forall p, q :: 0 <= p < |sys.procs| && 0 <= q < |sys.procs| && p != q ==>
         Compatible(sys.procs[p], sys.procs[q]))
  }
}
