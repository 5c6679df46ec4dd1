/** The counted semaphore sets of apue/apue.2e/lib/semaph.c, used by any number of processes at once.

  A set has three members: the semaphore itself, a counter of the processes that use it, and a lock. The kernel keeps,
  for each process, what has to be added to each member when the process exits. Every call into the kernel is one
  atomic step, and so is an exit. The set lives under one key; each set made gets a number of its own, its id.
 */
module SemProtocol {
  import opened Wrappers

  const BIGCOUNT: int := 10000

  // ----- the kernel

  datatype SemBuf = SemBuf(num: nat, op: int, undo: bool)

  datatype SemSet = SemSet(id: nat, vals: seq<int>, undo: seq<seq<int>>)

  const OP_LOCK := [SemBuf(2, 0, false), SemBuf(2, 1, true)]
  const OP_ENDCREATE := [SemBuf(1, -1, true), SemBuf(2, -1, true)]
  const OP_OPEN := [SemBuf(1, -1, true)]
  const OP_CLOSE := [SemBuf(2, 0, false), SemBuf(2, 1, true), SemBuf(1, 1, true)]
  const OP_UNLOCK := [SemBuf(2, -1, true)]

  predicate Shaped(s: SemSet, p: nat) {
    |s.vals| == 3 && p < |s.undo| && |s.undo[p]| == 3
  }

  /** The set is the same one, and nothing of what other processes would undo has changed. */
  predicate OthersSame(s: SemSet, t: SemSet, p: nat) {
    t.id == s.id && |t.undo| == |s.undo| && forall r :: 0 <= r < |s.undo| && r != p ==> t.undo[r] == s.undo[r]
  }

  /** One operation of process p: wait for zero, or add; None if the process would have to wait. */
  function Operate(s: SemSet, p: nat, b: SemBuf): (r: Option<SemSet>)
    requires Shaped(s, p) && b.num < 3
    ensures r.Some? ==> Shaped(r.value, p) && OthersSame(s, r.value, p)
  {
    if b.op == 0 then
      if s.vals[b.num] == 0 then Some(s) else None
    else if s.vals[b.num] + b.op < 0 then None
    else Some(s.(vals := s.vals[b.num := s.vals[b.num] + b.op],
                 undo := if b.undo then s.undo[p := s.undo[p][b.num := s.undo[p][b.num] - b.op]] else s.undo))
  }

  /** All the operations of an array, or none of them. */
  function Semop(s: SemSet, p: nat, ops: seq<SemBuf>): (r: Option<SemSet>)
    requires Shaped(s, p) && forall k :: 0 <= k < |ops| ==> ops[k].num < 3
    ensures r.Some? ==> Shaped(r.value, p) && OthersSame(s, r.value, p)
    decreases |ops|
  {
    if ops == [] then Some(s)
    else
      var t := Operate(s, p, ops[0]);
      if t.None? then None else Semop(t.value, p, ops[1..])
  }

  /** SETVAL also forgets what is to be undone of this member, for every process. */
  function SetVal(s: SemSet, num: nat, value: int): (r: SemSet)
    requires |s.vals| == 3 && num < 3 && forall p :: 0 <= p < |s.undo| ==> |s.undo[p]| == 3
  {
    s.(vals := s.vals[num := value],
       undo := seq(|s.undo|, p requires 0 <= p < |s.undo| => s.undo[p][num := 0]))
  }

  function Max0(x: int): int {
    if x < 0 then 0 else x
  }

  /** Process p exits: what it left undone is undone. */
  function Undone(s: SemSet, p: nat): (r: SemSet)
    requires Shaped(s, p)
  {
    s.(vals := [Max0(s.vals[0] + s.undo[p][0]), Max0(s.vals[1] + s.undo[p][1]), Max0(s.vals[2] + s.undo[p][2])],
       undo := s.undo[p := [0, 0, 0]])
  }

  // ----- the processes

  /** What a process does next. */
  datatype Pc =
    | Idle
    | CreateGet | CreateLock | CreateVal | CreateSet0 | CreateSet1 | CreateEnd
    | OpenGet | OpenOp
    | CloseOp | CloseVal | CloseRm | CloseUnlock
    | AdjustOp
    | Dead

  /** arg is the initial value or the amount given; id is the set the call works on; open holds the ids of the
    handles. */
  datatype Proc = Proc(pc: Pc, arg: int, id: nat, open: multiset<nat>)

  datatype Sys = Sys(set_: Option<SemSet>, made: nat, procs: seq<Proc>)

  /** A process begins a call, takes the next step of one, finds the set it was waiting for removed, or exits. */
  datatype Act = Create(initval: int) | Open | Close(id: nat) | Adjust(id: nat, amount: int) | Go | Removed | Exit

  predicate HoldsLock(q: Proc, id: nat) {
    q.id == id && (q.pc.CreateVal? || q.pc.CreateSet0? || q.pc.CreateSet1? || q.pc.CreateEnd? || q.pc.CloseVal?
        || q.pc.CloseRm? || q.pc.CloseUnlock?)
  }

  function Holders(procs: seq<Proc>, id: nat): nat {
    if procs == [] then 0 else Holders(procs[..|procs| - 1], id) + if HoldsLock(procs[|procs| - 1], id) then 1 else 0
  }

  function Handles(procs: seq<Proc>, id: nat): nat {
    if procs == [] then 0 else Handles(procs[..|procs| - 1], id) + procs[|procs| - 1].open[id]
  }

  /** The kernel's data have the right shape. */
  predicate WellShaped(sys: Sys) {
    sys.set_.Some? ==>
      var s := sys.set_.value;
      |s.vals| == 3 && |s.undo| == |sys.procs| && (forall p :: 0 <= p < |s.undo| ==>
          |s.undo[p]| == 3) && s.id < sys.made
  }

  function With(sys: Sys, p: nat, q: Proc): (r: Sys)
    requires p < |sys.procs|
  {
    sys.(procs := sys.procs[p := q])
  }

  /** Process p is gone, by its own exit or after a call that failed. */
  function Gone(sys: Sys, p: nat): (r: Sys)
    requires WellShaped(sys) && p < |sys.procs|
  {
    With(sys.(set_ := if sys.set_.Some? then Some(Undone(sys.set_.value, p))
        else None), p, Proc(Dead, 0, 0, multiset{}))
  }

  /** A semop of process p: it waits, or goes on as q. */
  function Try(sys: Sys, p: nat, ops: seq<SemBuf>, q: Proc): (r: Sys)
    requires WellShaped(sys) && p < |sys.procs| && sys.set_.Some? && forall k :: 0 <= k < |ops| ==> ops[k].num < 3
  {
    var t := Semop(sys.set_.value, p, ops);
    if t.None? then sys else With(sys.(set_ := t), p, q)
  }

  /** The set that process p works on is still there. */
  predicate Present(sys: Sys, p: nat)
    requires p < |sys.procs|
  {
    sys.set_.Some? && sys.set_.value.id == sys.procs[p].id
  }

  /** The step of process p under the given act. */
  function Step(sys: Sys, p: nat, act: Act): (r: Sys)
    requires WellShaped(sys) && p < |sys.procs|
  {
    var q := sys.procs[p];
    if q.pc.Dead? then sys
    else
      match act
      case Exit => Gone(sys, p)
      case Create(v) => if q.pc.Idle? then With(sys, p, q.(pc := CreateGet, arg := v)) else sys
      case Open => if q.pc.Idle? then With(sys, p, q.(pc := OpenGet)) else sys
      case Close(id) => if q.pc.Idle? && id in q.open then With(sys, p, q.(pc := CloseOp, id := id)) else sys
      case Adjust(id, n) =>
        if q.pc.Idle? && id in q.open && n != 0 then With(sys, p, q.(pc := AdjustOp, id := id, arg := n)) else sys
      case Removed => if q.pc.CreateLock? && !Present(sys, p) then Gone(sys, p) else sys
      case Go => Advance(sys, p)
  }

  /** The next step of the call process p is in. */
  function Advance(sys: Sys, p: nat): (r: Sys)
    requires WellShaped(sys) && p < |sys.procs|
  {
    var q := sys.procs[p];
    match q.pc
    case Idle => sys
    case Dead => sys
    case CreateGet =>
      if sys.set_.None? then
        var s := SemSet(sys.made, [0, 0, 0], seq(|sys.procs|, _ => [0, 0, 0]));
        With(Sys(Some(s), sys.made + 1, sys.procs), p, q.(pc := CreateLock, id := sys.made))
      else With(sys, p, q.(pc := CreateLock, id := sys.set_.value.id))
    case OpenGet =>
      if sys.set_.None? then With(sys, p, q.(pc := Idle)) else With(sys, p, q.(pc := OpenOp, id := sys.set_.value.id))
    case CreateLock =>
      if !Present(sys, p) then With(sys, p, q.(pc := CreateGet)) else Try(sys, p, OP_LOCK, q.(pc := CreateVal))
    case _ =>
      if !Present(sys, p) then Gone(sys, p) else Working(sys, p)
  }

  /** The steps on a set that is there. */
  function Working(sys: Sys, p: nat): (r: Sys)
    requires WellShaped(sys) && p < |sys.procs| && sys.set_.Some?
  {
    var q, s := sys.procs[p], sys.set_.value;
    match q.pc
    case CreateVal => With(sys, p, q.(pc := if s.vals[1] == 0 then CreateSet0 else CreateEnd))
    case CreateSet0 => With(sys.(set_ := Some(SetVal(s, 0, q.arg))), p, q.(pc := CreateSet1))
    case CreateSet1 => With(sys.(set_ := Some(SetVal(s, 1, BIGCOUNT))), p, q.(pc := CreateEnd))
    case CreateEnd => Try(sys, p, OP_ENDCREATE, q.(pc := Idle, open := q.open + multiset{q.id}))
    case OpenOp => Try(sys, p, OP_OPEN, q.(pc := Idle, open := q.open + multiset{q.id}))
    case CloseOp => Try(sys, p, OP_CLOSE, q.(pc := CloseVal, open := q.open - multiset{q.id}))
    case CloseVal =>
      if s.vals[1] > BIGCOUNT then Gone(sys, p)
      else With(sys, p, q.(pc := if s.vals[1] == BIGCOUNT then CloseRm else CloseUnlock))
    case CloseRm => With(sys.(set_ := None), p, q.(pc := Idle))
    case CloseUnlock => Try(sys, p, OP_UNLOCK, q.(pc := Idle))
    case AdjustOp => Try(sys, p, [SemBuf(0, q.arg, true)], q.(pc := Idle))
    case _ => sys
  }
}
