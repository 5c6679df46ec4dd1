/** The multi-process protocol of apue.2e/db/db.c: any number of processes running fetch, delete, store and nextrec,
  interleaved at every lock, read and write of the shared index file.

  The memory holds the pointers and records of the index file, the data extents of the data file, and history
  components that no process reads: the lists the pointers are meant to spell, the owner of each record, for a chain
  whose deletion is half done the pointer write still to come, and the calls that have finished, with their answers.
  A process is an operation, a program point, and the locks it holds.
 */
module DbProtocol {
  import opened Wrappers
  import opened DbText
  import opened DbLayout
  import opened DbChains
  import DbContents
  import DbStore
  import DbCalls

  // ----- locks: one byte per list head, the append region of the index file, the data file

  const IDX_END := SLOTS
  const DAT_FILE := SLOTS + 1

  datatype Mode = Read | Write

  // ----- memory

  /** A record of the index file; offsets are counted in records, and a pointer is 0 or 1 plus a record number. The cell
      is the data extent it describes. */
  datatype Node = Node(ptr: nat, key: string, len: nat, cell: nat)

  /** A pointer write that a process has yet to make. */
  datatype Pending = Pending(p: nat, place: Place, v: nat)

  /** A call that has finished. */
  datatype Done = Done(call: DbCalls.Call, answer: DbCalls.Answer)

  datatype Mem = Mem(heads: seq<nat>, recs: seq<Node>, data: seq<string>,
                     lists: seq<seq<nat>>, owner: seq<nat>, patch: seq<Option<Pending>>, log: seq<Done>)

  /** The owner of a record that process p has in hand. */
  function InHand(p: nat): nat { SLOTS + p }

  function Ids(n: nat): (ids: seq<nat>)
    ensures |ids| == n && forall i :: 0 <= i < n ==> ids[i] == i + 1
  {
    seq(n, i => i + 1)
  }

  function PtrsOf(recs: seq<Node>): (p: seq<nat>)
    ensures |p| == |recs| && forall i :: 0 <= i < |recs| ==> p[i] == recs[i].ptr
  {
    seq(|recs|, i requires 0 <= i < |recs| => recs[i].ptr)
  }

  // ----- processes

  datatype Op =
    | Fetch(key: string)
    | Delete(key: string)
    | Store(key: string, data: string, flag: int)
    | NextRec(start: nat)
  {
    function Slot(): nat {
      if NextRec? then 0 else 1 + DbContents.Hash(key)
    }

    function ChainMode(): Mode {
      if Fetch? then Read else Write
    }

    /** The length of the data with its newline. */
    function Len(): nat {
      if Store? then |data| + 1 else 0
    }

    /** A store with any other flag returns before it touches the files. */
    predicate ValidFlag() {
      Store? ==> DbStore.ValidFlag(flag)
    }

    function Call(): DbCalls.Call
      requires !NextRec?
    {
      match this
      case Fetch(k) => DbCalls.Fetch(k)
      case Delete(k) => DbCalls.Delete(k)
      case Store(k, d, f) => DbCalls.Store(k, d, f)
    }
  }

  /** Program points. `j` is a position in a list, `place` the pointer field that leads there, `i` a record, `save`
      the pointer found in it, `front` the chain head read before an insertion. */
  datatype Pc =
    | Idle
    | Dumped
    | WantChain
    | WalkHead
    | Walk(j: nat, place: Place, off: nat)
    | FetchData(j: nat, i: nat)
    | Overwrite(j: nat, i: nat)
    // deletion
    | WantFreeDel(j: nat, place: Place, i: nat, save: nat)
    | BlankData(j: nat, place: Place, i: nat, save: nat)
    | ReadFreePtr(j: nat, place: Place, i: nat, save: nat)
    | BlankIdx(j: nat, place: Place, i: nat, save: nat, freeptr: nat)
    | LinkFree(place: Place, i: nat, save: nat)
    | Bypass(place: Place, save: nat)
    | FreeDone
    // insertion
    | ReadFront(deleted: bool)
    | WantFree(front: nat)
    | ScanHead(front: nat)
    | Scan(front: nat, j: nat, place: Place, off: nat)
    | TakeFree(front: nat, j: nat, place: Place, i: nat, save: nat)
    | ReuseUnlock(front: nat, i: nat)
    | ReuseData(front: nat, i: nat)
    | ReuseIdx(front: nat, i: nat)
    | LinkChain(i: nat)
    | ScanFail(front: nat)
    | WantDat(front: nat)
    | AppendDat(front: nat)
    | DatUnlock(front: nat, cell: nat)
    | WantEnd(front: nat, cell: nat)
    | AppendIdx(front: nat, cell: nat)
    | EndUnlock(i: nat)
    | Release(answer: DbCalls.Answer)
    // sequential reading
    | NrWant(n: nat)
    | NrRead(n: nat)
    | NrData(n: nat)
    | NrRelease

  datatype Proc = Proc(op: Op, pc: Pc, held: map<nat, Mode>)

  datatype Sys = Sys(mem: Mem, procs: seq<Proc>)

  /** The lock a program point asks for. */
  function Wants(op: Op, pc: Pc): Option<(nat, Mode)> {
    match pc
    case WantChain => Some((op.Slot(), op.ChainMode()))
    case WantFreeDel(_, _, _, _) => Some((0, Write))
    case WantFree(_) => Some((0, Write))
    case WantDat(_) => Some((DAT_FILE, Write))
    case WantEnd(_, _) => Some((IDX_END, Write))
    case NrWant(_) => Some((0, Read))
    case _ => None
  }

  /** A lock is granted when no other process holds it in a conflicting mode. */
  ghost predicate Grantable(procs: seq<Proc>, p: nat, l: nat, mode: Mode) {
    forall q :: 0 <= q < |procs| && q != p && l in procs[q].held ==> mode == Read && procs[q].held[l] == Read
  }

  ghost predicate Enabled(sys: Sys, p: nat) {
    && p < |sys.procs| && !sys.procs[p].pc.Dumped?
    && var want := Wants(sys.procs[p].op, sys.procs[p].pc);
       want.Some? ==> Grantable(sys.procs, p, want.value.0, want.value.1)
  }

  // ----- one step of one process

  function Go(proc: Proc, pc: Pc): Proc { proc.(pc := pc) }

  function Locks(proc: Proc, l: nat, mode: Mode, pc: Pc): Proc { proc.(pc := pc, held := proc.held[l := mode]) }

  function Unlocks(proc: Proc, l: nat, pc: Pc): Proc { proc.(pc := pc, held := proc.held - {l}) }

  /** The search along a hash chain. */
  function WalkStep(mem: Mem, proc: Proc, j: nat, place: Place, off: nat): Proc
    requires !proc.op.NextRec?
  {
    var op := proc.op;
    if off == 0 then
      Go(proc, if op.Store? && op.flag != DbStore.DB_REPLACE then ReadFront(false) else Release(Missing(op)))
    else if off > |mem.recs| then Go(proc, Dumped)
    else
      var i := off - 1;
      var r := mem.recs[i];
      if r.key != op.key then Go(proc, Walk(j + 1, Next(i), r.ptr))
      else if op.Fetch? then Go(proc, FetchData(j, i))
      else if op.Store? && op.flag == DbStore.DB_INSERT then Go(proc, Release(DbCalls.Code(1)))
      else if op.Store? && op.Len() == r.len then Go(proc, Overwrite(j, i))
      else Go(proc, WantFreeDel(j, place, i, r.ptr))
  }

  /** The search along the free list for a record of exactly the wanted lengths. */
  function ScanStep(mem: Mem, proc: Proc, front: nat, j: nat, place: Place, off: nat): Proc
    requires proc.op.Store?
  {
    if off == 0 then Go(proc, ScanFail(front))
    else if off > |mem.recs| then Go(proc, Dumped)
    else
      var i := off - 1;
      var r := mem.recs[i];
      if |r.key| == |proc.op.key| && r.len == proc.op.Len() then Go(proc, TakeFree(front, j, place, i, r.ptr))
      else Go(proc, Scan(front, j + 1, Next(i), r.ptr))
  }

  /** The answer when the key is not found. */
  function Missing(op: Op): DbCalls.Answer {
    if op.Fetch? then DbCalls.Data(None) else DbCalls.Code(-1)
  }

  /** The data that record i describes. */
  function DataOf(mem: Mem, i: nat): string {
    if i < |mem.recs| && mem.recs[i].cell < |mem.data| then mem.data[mem.recs[i].cell] else ""
  }

  function HeadOf(mem: Mem, s: nat): nat {
    if s < |mem.heads| then mem.heads[s] else 0
  }

  /** Program points that belong to an operation. */
  predicate OpFits(op: Op, pc: Pc) {
    match pc
    case Idle => true
    case Dumped => true
    case NrWant(_) => op.NextRec?
    case NrRead(_) => op.NextRec?
    case NrData(_) => op.NextRec?
    case NrRelease => op.NextRec?
    case WantChain => !op.NextRec?
    case WalkHead => !op.NextRec?
    case Walk(_, _, _) => !op.NextRec?
    case Release(_) => !op.NextRec?
    case FetchData(_, _) => op.Fetch?
    case WantFreeDel(_, _, _, _) => op.Delete? || op.Store?
    case BlankData(_, _, _, _) => op.Delete? || op.Store?
    case ReadFreePtr(_, _, _, _) => op.Delete? || op.Store?
    case BlankIdx(_, _, _, _, _) => op.Delete? || op.Store?
    case LinkFree(_, _, _) => op.Delete? || op.Store?
    case Bypass(_, _) => op.Delete? || op.Store?
    case FreeDone => op.Delete? || op.Store?
    case _ => op.Store?
  }

  /** The process after its step. An idle process may start any operation. */
  function ProcAfter(mem: Mem, proc: Proc, op: Op): Proc
    requires OpFits(proc.op, proc.pc)
  {
    var s := proc.op.Slot();
    match proc.pc
    case Idle => if op.ValidFlag() then Proc(op, if op.NextRec? then NrWant(op.start) else WantChain, map[]) else proc
    case Dumped => proc
    case WantChain => Locks(proc, s, proc.op.ChainMode(), WalkHead)
    case WalkHead => Go(proc, Walk(0, Head(s), HeadOf(mem, s)))
    case Walk(j, place, off) => WalkStep(mem, proc, j, place, off)
    case FetchData(_, i) => Go(proc, Release(DbCalls.Data(Some(DataOf(mem, i)))))
    case Overwrite(_, _) => Go(proc, Release(DbCalls.Code(0)))
    case WantFreeDel(j, place, i, save) => Locks(proc, 0, Write, BlankData(j, place, i, save))
    case BlankData(j, place, i, save) => Go(proc, ReadFreePtr(j, place, i, save))
    case ReadFreePtr(j, place, i, save) => Go(proc, BlankIdx(j, place, i, save, HeadOf(mem, 0)))
    case BlankIdx(_, place, i, save, _) => Go(proc, LinkFree(place, i, save))
    case LinkFree(place, i, save) => Go(proc, Bypass(place, save))
    case Bypass(_, _) => Go(proc, FreeDone)
    case FreeDone => Unlocks(proc, 0, if proc.op.Store? then ReadFront(true) else Release(DbCalls.Code(0)))
    case ReadFront(deleted) => Go(proc, if deleted then WantDat(HeadOf(mem, s)) else WantFree(HeadOf(mem, s)))
    case WantFree(front) => Locks(proc, 0, Write, ScanHead(front))
    case ScanHead(front) => Go(proc, Scan(front, 0, Head(0), HeadOf(mem, 0)))
    case Scan(front, j, place, off) => ScanStep(mem, proc, front, j, place, off)
    case TakeFree(front, _, _, i, _) => Go(proc, ReuseUnlock(front, i))
    case ReuseUnlock(front, i) => Unlocks(proc, 0, ReuseData(front, i))
    case ReuseData(front, i) => Go(proc, ReuseIdx(front, i))
    case ReuseIdx(_, i) => Go(proc, LinkChain(i))
    case LinkChain(_) => Go(proc, Release(DbCalls.Code(0)))
    case ScanFail(front) => Unlocks(proc, 0, WantDat(front))
    case WantDat(front) => Locks(proc, DAT_FILE, Write, AppendDat(front))
    case AppendDat(front) => Go(proc, DatUnlock(front, |mem.data|))
    case DatUnlock(front, cell) => Unlocks(proc, DAT_FILE, WantEnd(front, cell))
    case WantEnd(front, cell) => Locks(proc, IDX_END, Write, AppendIdx(front, cell))
    case AppendIdx(_, _) => Go(proc, EndUnlock(|mem.recs|))
    case EndUnlock(i) => Unlocks(proc, IDX_END, LinkChain(i))
    case Release(_) => Unlocks(proc, s, Idle)
    case NrWant(n) => Locks(proc, 0, Read, NrRead(n))
    case NrRead(n) =>
      if n >= |mem.recs| then Go(proc, NrRelease)
      else if AllBlank(mem.recs[n].key) then Go(proc, NrRead(n + 1))
      else Go(proc, NrData(n))
    case NrData(_) => Go(proc, NrRelease)
    case NrRelease => Unlocks(proc, 0, Idle)
  }

  // ----- the writes

  predicate CanWrite(mem: Mem, place: Place) {
    if place.Head? then place.s < |mem.heads| else place.i < |mem.recs|
  }

  function WritePtr(mem: Mem, place: Place, v: nat): Mem {
    if !CanWrite(mem, place) then mem
    else if place.Head? then mem.(heads := mem.heads[place.s := v])
    else mem.(recs := mem.recs[place.i := mem.recs[place.i].(ptr := v)])
  }

  /** The data that record i describes is written over. */
  function WriteData(mem: Mem, i: nat, d: string): Mem {
    if i < |mem.recs| && mem.recs[i].cell < |mem.data| then mem.(data := mem.data[mem.recs[i].cell := d]) else mem
  }

  predicate Has(mem: Mem, s: nat, i: nat) {
    |mem.heads| == |mem.lists| == |mem.patch| == SLOTS && s < SLOTS && i < |mem.recs| == |mem.owner|
  }

  /** The record is rewritten blank with the free list behind it: it leaves its chain, into the process's hand. */
  function Blanked(mem: Mem, p: nat, s: nat, j: nat, place: Place, i: nat, save: nat, freeptr: nat): Mem {
    if !Has(mem, s, i) || j >= |mem.lists[s]| then mem
    else
      mem.(recs := mem.recs[i := mem.recs[i].(ptr := freeptr, key := Blank(mem.recs[i].key))],
           lists := mem.lists[s := Without(mem.lists[s], j)],
           owner := mem.owner[i := InHand(p)],
           patch := mem.patch[s := Some(Pending(p, place, save))])
  }

  /** A list head is made to point at the record in hand, which joins the list. */
  function Linked(mem: Mem, s: nat, i: nat): Mem {
    if !Has(mem, s, i) then mem
    else mem.(heads := mem.heads[s := i + 1], lists := mem.lists[s := [i] + mem.lists[s]], owner := mem.owner[i := s])
  }

  /** The pointer to a free record is made to bypass it, which puts it into the process's hand. */
  function Taken(mem: Mem, p: nat, j: nat, place: Place, i: nat, save: nat): Mem {
    if !Has(mem, 0, i) || j >= |mem.lists[0]| then mem
    else
      WritePtr(mem, place, save).(lists := mem.lists[0 := Without(mem.lists[0], j)], owner := mem.owner[i := InHand(p)])
  }

  /** The memory after the step of process p. */
  function MemAfter(mem: Mem, p: nat, proc: Proc): Mem {
    var s := proc.op.Slot();
    match proc.pc
    case BlankIdx(j, place, i, save, freeptr) => Blanked(mem, p, s, j, place, i, save, freeptr)
    case LinkFree(_, i, _) => Linked(mem, 0, i)
    case Bypass(place, save) =>
      if s < |mem.patch| then WritePtr(mem, place, save).(patch := mem.patch[s := None]) else mem
    case TakeFree(_, j, place, i, save) => Taken(mem, p, j, place, i, save)
    case ReuseIdx(front, i) =>
      if proc.op.Store? && i < |mem.recs| then
        mem.(recs := mem.recs[i := mem.recs[i].(ptr := front, key := proc.op.key)])
      else mem
    case LinkChain(i) => Linked(mem, s, i)
    case BlankData(_, _, i, _) => WriteData(mem, i, Blank(DataOf(mem, i)))
    case Overwrite(_, i) => if proc.op.Store? then WriteData(mem, i, proc.op.data) else mem
    case ReuseData(_, i) => if proc.op.Store? then WriteData(mem, i, proc.op.data) else mem
    case AppendDat(_) => if proc.op.Store? then mem.(data := mem.data + [proc.op.data]) else mem
    case Release(a) => if proc.op.NextRec? then mem else mem.(log := mem.log + [Done(proc.op.Call(), a)])
    case AppendIdx(front, cell) =>
      if proc.op.Store? then
        mem.(recs := mem.recs + [Node(front, proc.op.key, proc.op.Len(), cell)], owner := mem.owner + [InHand(p)])
      else mem
    case _ => mem
  }

  function Exec(sys: Sys, p: nat, op: Op): Sys
    requires p < |sys.procs| && OpFits(sys.procs[p].op, sys.procs[p].pc)
  {
    Sys(MemAfter(sys.mem, p, sys.procs[p]), sys.procs[p := ProcAfter(sys.mem, sys.procs[p], op)])
  }

  /** An empty database with n idle processes. */
  function Init(n: nat): Sys {
    Sys(Mem(seq(SLOTS, _ => 0), [], [], seq(SLOTS, _ => []), [], seq(SLOTS, _ => None), []),
        seq(n, _ => Proc(Fetch(""), Idle, map[])))
  }
}
