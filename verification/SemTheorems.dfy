/** What every interleaving of sem_create, sem_open, sem_close, sem_op and process exits keeps. */
module SemTheorems {
  import opened Wrappers
  import opened SemProtocol

  // ----- counting processes

  lemma {:induction false} HandlesSet(procs: seq<Proc>, p: nat, q: Proc, id: nat)
    requires p < |procs|
    ensures Handles(procs[p := q], id) == Handles(procs, id) - procs[p].open[id] + q.open[id]
    ensures Handles(procs, id) >= procs[p].open[id]
    decreases |procs|
  {
    var n := |procs| - 1;
    if p < n {
      HandlesSet(procs[..n], p, q, id);
      assert procs[p := q][..n] == procs[..n][p := q];
    } else {
      assert procs[p := q][..n] == procs[..n];
    }
  }

  lemma {:induction false} HoldersSet(procs: seq<Proc>, p: nat, q: Proc, id: nat)
    requires p < |procs|
    ensures Holders(procs[p := q], id) ==
      Holders(procs, id) - (if HoldsLock(procs[p], id) then 1 else 0) + if HoldsLock(q, id) then 1 else 0
    ensures Holders(procs, id) >= if HoldsLock(procs[p], id) then 1 else 0
    decreases |procs|
  {
    var n := |procs| - 1;
    if p < n {
      HoldersSet(procs[..n], p, q, id);
      assert procs[p := q][..n] == procs[..n][p := q];
    } else {
      assert procs[p := q][..n] == procs[..n];
    }
  }

  /** With one holder there is no other. */
  lemma OneHolder(procs: seq<Proc>, p: nat, r: nat, id: nat)
    requires p < |procs| && r < |procs| && Holders(procs, id) <= 1 && HoldsLock(procs[p], id) && HoldsLock(procs[r], id)
    ensures p == r
  {
    if p != r {
      var gone := Proc(Dead, 0, 0, multiset{});
      HoldersSet(procs, p, gone, id);
      HoldersSet(procs[p := gone], r, gone, id);
    }
  }

  lemma {:induction false} NobodyThere(procs: seq<Proc>, id: nat)
    requires forall p :: 0 <= p < |procs| ==> procs[p].open[id] == 0 && !HoldsLock(procs[p], id)
    ensures Handles(procs, id) == 0 && Holders(procs, id) == 0
    decreases |procs|
  {
    if procs != [] {
      NobodyThere(procs[..|procs| - 1], id);
    }
  }

  // ----- the invariant

  predicate Locked(pc: Pc) {
    pc.CreateVal? || pc.CreateSet0? || pc.CreateSet1? || pc.CreateEnd? || pc.CloseVal? || pc.CloseRm? || pc.CloseUnlock?
  }

  /** Member 2 counts the holders of the lock, of which there is at most one; member 1 counts down from BIGCOUNT by one
    for every open handle, once it has been set. */
  ghost predicate CountsOk(s: SemSet, procs: seq<Proc>) {
    && |s.vals| == 3 && s.vals[2] == Holders(procs, s.id) <= 1
    && if s.vals[1] == 0 then Handles(procs, s.id) == 0 else s.vals[1] + Handles(procs, s.id) == BIGCOUNT
  }

  /** What would be undone for a process gives back its handles and its lock. */
  predicate UndoOk(s: SemSet, q: Proc, u: seq<int>) {
    |u| == 3 && u[1] == q.open[s.id] && u[2] == if HoldsLock(q, s.id) then -1 else 0
  }

  /** What a process in the middle of a call knows. */
  predicate Knows(s: SemSet, q: Proc) {
    |s.vals| == 3 && (HoldsLock(q, s.id) ==>
      match q.pc
      case CreateVal => true
      case CreateSet0 => s.vals[1] == 0
      case CreateSet1 => s.vals[1] == 0
      case _ => s.vals[1] != 0)
  }

  ghost predicate SetOk(s: SemSet, procs: seq<Proc>) {
    && CountsOk(s, procs) && |s.undo| == |procs|
    && forall p :: 0 <= p < |procs| ==> UndoOk(s, procs[p], s.undo[p]) && Knows(s, procs[p])
  }

  /** Ids are those of sets that have been made, and a process that holds a lock finds its set. */
  predicate IdsOk(sys: Sys, q: Proc) {
    && (q.id < sys.made || q.id == 0) && (forall id :: id in q.open ==> id < sys.made)
    && (Locked(q.pc) ==> sys.set_.Some? && sys.set_.value.id == q.id)
    && (q.pc.CloseOp? || q.pc.AdjustOp? ==> q.id in q.open)
  }

  ghost predicate Inv(sys: Sys) {
    && WellShaped(sys) && (sys.set_.Some? ==> SetOk(sys.set_.value, sys.procs))
    && forall p :: 0 <= p < |sys.procs| ==> IdsOk(sys, sys.procs[p])
  }

  /** There are fewer handles than the counter can count. */
  ghost predicate Roomy(sys: Sys) {
    sys.set_.Some? ==> Handles(sys.procs, sys.set_.value.id) < BIGCOUNT
  }

  // ----- the operation arrays

  lemma LockOp(s: SemSet, p: nat)
    requires Shaped(s, p)
    ensures Semop(s, p, OP_LOCK) ==
      if s.vals[2] != 0 then None
      else Some(s.(vals := s.vals[2 := 1], undo := s.undo[p := s.undo[p][2 := s.undo[p][2] - 1]]))
  {
    assert OP_LOCK[1..] == [OP_LOCK[1]];
    if s.vals[2] == 0 {
      assert Semop(s, p, OP_LOCK) == Semop(s, p, OP_LOCK[1..]);
    }
  }

  /** A member changed, with undo. */
  function Plus(s: SemSet, p: nat, num: nat, n: int): (r: SemSet)
    requires Shaped(s, p) && num < 3
    ensures Shaped(r, p) && OthersSame(s, r, p)
  {
    s.(vals := s.vals[num := s.vals[num] + n], undo := s.undo[p := s.undo[p][num := s.undo[p][num] - n]])
  }

  lemma EndCreateOp(s: SemSet, p: nat)
    requires Shaped(s, p)
    ensures Semop(s, p, OP_ENDCREATE) == if s.vals[1] < 1 || s.vals[2] < 1 then None
        else Some(Plus(Plus(s, p, 1, -1), p, 2, -1))
  {
    assert OP_ENDCREATE[1..] == [OP_ENDCREATE[1]];
    if s.vals[1] >= 1 {
      var t := Plus(s, p, 1, -1);
      assert Semop(s, p, OP_ENDCREATE) == Semop(t, p, OP_ENDCREATE[1..]);
      SingleOp(t, p, OP_ENDCREATE[1]);
    }
  }

  lemma CloseOpEffect(s: SemSet, p: nat)
    requires Shaped(s, p)
    ensures Semop(s, p, OP_CLOSE) == if s.vals[2] != 0 || s.vals[1] < -1 then None
        else Some(Plus(Plus(s, p, 2, 1), p, 1, 1))
  {
    assert OP_CLOSE[1..] == [OP_CLOSE[1], OP_CLOSE[2]] && OP_CLOSE[1..][1..] == [OP_CLOSE[2]];
    if s.vals[2] == 0 {
      var t := Plus(s, p, 2, 1);
      assert Semop(s, p, OP_CLOSE) == Semop(s, p, OP_CLOSE[1..]);
      assert Semop(s, p, OP_CLOSE[1..]) == Semop(t, p, OP_CLOSE[1..][1..]);
      SingleOp(t, p, OP_CLOSE[2]);
    }
  }

  lemma SingleOp(s: SemSet, p: nat, b: SemBuf)
    requires Shaped(s, p) && b.num < 3
    ensures Semop(s, p, [b]) == Operate(s, p, b)
  {
    assert [b][1..] == [];
  }

  // ----- one step keeps the invariant

  /** The set after a step that changed its counts and process p. */
  lemma SetKept(s: SemSet, procs: seq<Proc>, p: nat, t: SemSet, q: Proc)
    requires SetOk(s, procs) && p < |procs| && t.id == s.id && |t.vals| == 3
    requires |t.undo| == |s.undo| && UndoOk(t, q, t.undo[p]) && Knows(t, q)
    requires forall r :: 0 <= r < |procs| && r != p ==> UndoOk(t, procs[r], t.undo[r]) && Knows(t, procs[r])
    requires t.vals[2] == s.vals[2] - (if HoldsLock(procs[p], s.id) then 1 else 0) + if HoldsLock(q, s.id) then 1 else 0
    requires t.vals[2] <= 1
    requires if t.vals[1] == 0 then Handles(procs[p := q], s.id) == 0
        else t.vals[1] + Handles(procs[p := q], s.id) == BIGCOUNT
    ensures SetOk(t, procs[p := q])
  {
    HoldersSet(procs, p, q, s.id);
  }

  /** A step of a process that does not touch the set. */
  lemma PlainStep(sys: Sys, p: nat, q: Proc)
    requires Inv(sys) && p < |sys.procs| && q.open == sys.procs[p].open && IdsOk(sys, q)
    requires sys.set_.Some? ==>
      HoldsLock(q, sys.set_.value.id) == HoldsLock(sys.procs[p], sys.set_.value.id) && Knows(sys.set_.value, q)
    ensures Inv(With(sys, p, q))
  {
    if sys.set_.Some? {
      HandlesSet(sys.procs, p, q, sys.set_.value.id);
      SetKept(sys.set_.value, sys.procs, p, sys.set_.value, q);
    }
  }

  /** Others know the same after a step of the holder, or of a process that needs no lock and leaves the counter
    nonzero. */
  lemma OthersKnow(s: SemSet, procs: seq<Proc>, p: nat, r: nat, t: SemSet)
    requires SetOk(s, procs) && p < |procs| && r < |procs| && r != p && t.id == s.id && |t.vals| == 3
    requires HoldsLock(procs[p], s.id) || s.vals[2] == 0 || (t.vals[1] == 0) == (s.vals[1] == 0)
    ensures Knows(t, procs[r])
  {
    if HoldsLock(procs[r], s.id) {
      HoldersSet(procs, r, procs[r], s.id);
      if HoldsLock(procs[p], s.id) {
        OneHolder(procs, p, r, s.id);
      }
    }
  }

  /** A step on the set, by a process that ends up as q, with a semop or a SETVAL. */
  lemma SetStep(sys: Sys, p: nat, t: SemSet, q: Proc)
    requires Inv(sys) && p < |sys.procs| && sys.set_.Some? && Roomy(sys)
    requires var s := sys.set_.value;
             && t.id == s.id && |t.vals| == 3 && |t.undo| == |s.undo| && UndoOk(t, q, t.undo[p]) && Knows(t, q)
             && (forall r :: 0 <= r < |t.undo| ==>
                  |t.undo[r]| == 3 && (r != p ==> t.undo[r][1] == s.undo[r][1] && t.undo[r][2] == s.undo[r][2]))
             && (HoldsLock(sys.procs[p], s.id) || s.vals[2] == 0 || (t.vals[1] == 0) == (s.vals[1] == 0))
             && t.vals[2] == s.vals[2] - (if HoldsLock(sys.procs[p], s.id) then 1
                  else 0) + (if HoldsLock(q, s.id) then 1 else 0)
             && t.vals[2] <= 1
             && (if t.vals[1] == 0 then Handles(sys.procs[p := q], s.id) == 0
                  else t.vals[1] + Handles(sys.procs[p := q], s.id) == BIGCOUNT)
    requires IdsOk(sys, q)
    ensures Inv(With(sys.(set_ := Some(t)), p, q))
  {
    var s := sys.set_.value;
    forall r | 0 <= r < |sys.procs| && r != p
      ensures UndoOk(t, sys.procs[r], t.undo[r]) && Knows(t, sys.procs[r])
    {
      OthersKnow(s, sys.procs, p, r, t);
    }
    SetKept(s, sys.procs, p, t, q);
  }

  /** Process p is about to do a semop on the set that is there. */
  ghost predicate At(sys: Sys, p: nat, pc: Pc) {
    && Inv(sys) && Roomy(sys) && p < |sys.procs| && sys.procs[p].pc == pc && Present(sys, p)
  }

  lemma Facts(sys: Sys, p: nat)
    requires Inv(sys) && p < |sys.procs| && Present(sys, p)
    ensures var s, q := sys.set_.value, sys.procs[p];
            Shaped(s, p) && UndoOk(s, q, s.undo[p]) && Knows(s, q) && CountsOk(s, sys.procs) && s.vals[2] >= 0
                && IdsOk(sys, q)
            && |s.undo| == |sys.procs| && Handles(sys.procs, s.id) >= q.open[s.id]
            && (Locked(q.pc) ==> s.vals[2] == 1 && HoldsLock(q, s.id))
  {
    var q := sys.procs[p];
    HandlesSet(sys.procs, p, q, q.id);
    HoldersSet(sys.procs, p, q, q.id);
    assert Knows(sys.set_.value, q) && IdsOk(sys, q);
  }

  lemma LockStep(sys: Sys, p: nat)
    requires At(sys, p, CreateLock)
    ensures Inv(Advance(sys, p))
  {
    hide Handles, Holders, Semop;
    Facts(sys, p);
    var s, q := sys.set_.value, sys.procs[p].(pc := CreateVal);
    LockOp(s, p);
    if s.vals[2] == 0 {
      HandlesSet(sys.procs, p, q, s.id);
      SetStep(sys, p, Semop(s, p, OP_LOCK).value, q);
    }
  }

  lemma EndCreateStep(sys: Sys, p: nat)
    requires At(sys, p, CreateEnd) && Roomy(Advance(sys, p))
    ensures Inv(Advance(sys, p))
  {
    hide Handles, Holders, Semop;
    Facts(sys, p);
    var s, q := sys.set_.value, sys.procs[p];
    var q' := q.(pc := Idle, open := q.open + multiset{q.id});
    EndCreateOp(s, p);
    HandlesSet(sys.procs, p, q', s.id);
    SetStep(sys, p, Semop(s, p, OP_ENDCREATE).value, q');
  }

  lemma OpenStep(sys: Sys, p: nat)
    requires At(sys, p, OpenOp) && Roomy(Advance(sys, p))
    ensures Inv(Advance(sys, p))
  {
    hide Handles, Holders, Semop;
    Facts(sys, p);
    var s, q := sys.set_.value, sys.procs[p];
    var q' := q.(pc := Idle, open := q.open + multiset{q.id});
    SingleOp(s, p, OP_OPEN[0]);
    HandlesSet(sys.procs, p, q', s.id);
    if s.vals[1] >= 1 {
      SetStep(sys, p, Semop(s, p, OP_OPEN).value, q');
    }
  }

  lemma CloseStep(sys: Sys, p: nat)
    requires At(sys, p, CloseOp)
    ensures Inv(Advance(sys, p))
  {
    hide Handles, Holders, Semop;
    Facts(sys, p);
    var s, q := sys.set_.value, sys.procs[p];
    var q' := q.(pc := CloseVal, open := q.open - multiset{q.id});
    CloseOpEffect(s, p);
    HandlesSet(sys.procs, p, q', s.id);
    if s.vals[2] == 0 {
      SetStep(sys, p, Semop(s, p, OP_CLOSE).value, q');
    }
  }

  lemma UnlockStep(sys: Sys, p: nat)
    requires At(sys, p, CloseUnlock)
    ensures Inv(Advance(sys, p)) && Advance(sys, p).procs[p].pc.Idle?
  {
    hide Handles, Holders, Semop;
    Facts(sys, p);
    var s, q := sys.set_.value, sys.procs[p].(pc := Idle);
    SingleOp(s, p, OP_UNLOCK[0]);
    HandlesSet(sys.procs, p, q, s.id);
    SetStep(sys, p, Semop(s, p, OP_UNLOCK).value, q);
  }

  lemma AdjustStep(sys: Sys, p: nat)
    requires At(sys, p, AdjustOp)
    ensures Inv(Advance(sys, p))
  {
    hide Handles, Holders, Semop;
    Facts(sys, p);
    var s, q := sys.set_.value, sys.procs[p].(pc := Idle);
    SingleOp(s, p, SemBuf(0, sys.procs[p].arg, true));
    HandlesSet(sys.procs, p, q, s.id);
    var t := Operate(s, p, SemBuf(0, sys.procs[p].arg, true));
    if t.Some? {
      SetStep(sys, p, t.value, q);
    }
  }

  /** Setting a member of a set that nobody has a handle to forgets nothing that would have to be undone. */
  lemma SetValStep(sys: Sys, p: nat, pc: Pc)
    requires At(sys, p, pc) && (pc.CreateSet0? || pc.CreateSet1?)
    ensures Inv(Advance(sys, p)) && Handles(sys.procs, sys.set_.value.id) == 0
  {
    hide Handles, Holders, Semop;
    Facts(sys, p);
    var s, q := sys.set_.value, sys.procs[p];
    var q' := q.(pc := if pc.CreateSet0? then CreateSet1 else CreateEnd);
    var t := if pc.CreateSet0? then SetVal(s, 0, q.arg) else SetVal(s, 1, BIGCOUNT);
    HandlesSet(sys.procs, p, q', s.id);
    forall r | 0 <= r < |s.undo|
      ensures |t.undo[r]| == 3 && t.undo[r][1] == s.undo[r][1] && t.undo[r][2] == s.undo[r][2]
    {
      HandlesSet(sys.procs, r, sys.procs[r], s.id);
      assert UndoOk(s, sys.procs[r], s.undo[r]);
    }
    SetStep(sys, p, t, q');
  }

  /** Reading the counter: only a closer that was the last sees BIGCOUNT, and nobody ever sees more. */
  lemma ValStep(sys: Sys, p: nat, pc: Pc)
    requires At(sys, p, pc) && (pc.CreateVal? || pc.CloseVal?)
    ensures Inv(Advance(sys, p)) && sys.set_.value.vals[1] <= BIGCOUNT
    ensures Advance(sys, p).procs[p].pc.CloseRm? ==> Handles(sys.procs, sys.set_.value.id) == 0
  {
    hide Handles, Holders;
    Facts(sys, p);
    PlainStep(sys, p, Advance(sys, p).procs[p]);
  }

  /** The remover holds the lock, so nobody else is in the middle of a call that needs it. */
  lemma RemoveStep(sys: Sys, p: nat)
    requires At(sys, p, CloseRm)
    ensures Inv(Advance(sys, p))
  {
    Facts(sys, p);
    var n := Advance(sys, p);
    forall r | 0 <= r < |n.procs|
      ensures IdsOk(n, n.procs[r])
    {
      assert IdsOk(sys, sys.procs[r]);
      if r != p && Locked(sys.procs[r].pc) {
        OneHolder(sys.procs, p, r, sys.set_.value.id);
      }
    }
  }

  lemma GoneStep(sys: Sys, p: nat)
    requires Inv(sys) && Roomy(sys) && p < |sys.procs|
    ensures Inv(Gone(sys, p))
  {
    hide Handles, Holders;
    var dead := Proc(Dead, 0, 0, multiset{});
    if sys.set_.Some? {
      var s, q := sys.set_.value, sys.procs[p];
      HandlesSet(sys.procs, p, dead, s.id);
      HoldersSet(sys.procs, p, dead, s.id);
      assert UndoOk(s, q, s.undo[p]);
      assert Knows(s, q) && IdsOk(sys, q);
      if s.vals[1] == 0 {
        assert q.open[s.id] == 0;
      }
      SetStep(sys, p, Undone(s, p), dead);
    }
  }

  lemma GetStep(sys: Sys, p: nat)
    requires Inv(sys) && p < |sys.procs| && (sys.procs[p].pc.CreateGet? || sys.procs[p].pc.OpenGet?)
    ensures Inv(Advance(sys, p))
  {
    hide Handles, Holders;
    var q := sys.procs[p];
    var n := Advance(sys, p);
    assert IdsOk(sys, q);
    if q.pc.CreateGet? && sys.set_.None? {
      forall r | 0 <= r < |sys.procs|
        ensures IdsOk(n, n.procs[r]) && n.procs[r].open[sys.made] == 0 && !HoldsLock(n.procs[r], sys.made)
      {
        assert IdsOk(sys, sys.procs[r]);
      }
      NobodyThere(n.procs, sys.made);
    } else {
      PlainStep(sys, p, n.procs[p]);
    }
  }

  lemma {:induction false} StepKeepsInv(sys: Sys, p: nat, act: Act)
    requires Inv(sys) && Roomy(sys) && p < |sys.procs| && Roomy(Step(sys, p, act))
    ensures Inv(Step(sys, p, act))
  {
    hide SetOk, Handles, Holders, Roomy, Semop, Undone, SetVal;
    var q := sys.procs[p];
    assert IdsOk(sys, q);
    var n := Step(sys, p, act);
    if q.pc.Dead? {
      return;
    }
    match act {
      case Exit => GoneStep(sys, p);
      case Removed => if n != sys { GoneStep(sys, p); }
      case Go => AdvanceKeepsInv(sys, p);
      case _ =>
        if n != sys {
          PlainStep(sys, p, n.procs[p]);
        }
    }
  }

  lemma AdvanceKeepsInv(sys: Sys, p: nat)
    requires Inv(sys) && Roomy(sys) && p < |sys.procs| && Roomy(Advance(sys, p))
    ensures Inv(Advance(sys, p))
  {
    hide SetOk, Handles, Holders, Roomy, Semop, Undone, SetVal;
    var q := sys.procs[p];
    match q.pc {
      case Idle =>
      case Dead =>
      case CreateGet => GetStep(sys, p);
      case OpenGet => GetStep(sys, p);
      case CreateLock =>
        if Present(sys, p) {
          LockStep(sys, p);
        } else {
          assert IdsOk(sys, q);
          PlainStep(sys, p, q.(pc := CreateGet));
        }
      case _ =>
        if !Present(sys, p) {
          GoneStep(sys, p);
        } else {
          WorkingKeepsInv(sys, p);
        }
    }
  }

  lemma WorkingKeepsInv(sys: Sys, p: nat)
    requires Inv(sys) && Roomy(sys) && p < |sys.procs| && Present(sys, p) && Roomy(Advance(sys, p))
    requires var pc := sys.procs[p].pc; !pc.Idle? && !pc.Dead? && !pc.CreateGet? && !pc.OpenGet? && !pc.CreateLock?
    ensures Inv(Advance(sys, p))
  {
    hide SetOk, Handles, Holders, Roomy, Semop, Undone, SetVal, Inv, Advance;
    match sys.procs[p].pc {
      case CreateVal => ValStep(sys, p, CreateVal);
      case CreateSet0 => SetValStep(sys, p, CreateSet0);
      case CreateSet1 => SetValStep(sys, p, CreateSet1);
      case CreateEnd => EndCreateStep(sys, p);
      case OpenOp => OpenStep(sys, p);
      case CloseOp => CloseStep(sys, p);
      case CloseVal => ValStep(sys, p, CloseVal);
      case CloseRm => RemoveStep(sys, p);
      case CloseUnlock => UnlockStep(sys, p);
      case AdjustOp => AdjustStep(sys, p);
    }
  }

  // ----- runs

  /** No set yet, and every process idle without a handle. */
  ghost predicate Start(sys: Sys) {
    sys.set_.None? && sys.made == 0 && forall p :: 0 <= p < |sys.procs| ==> sys.procs[p] == Proc(Idle, 0, 0, multiset{})
  }

  /** A schedule says which process takes which step. */
  type Schedule = seq<(nat, Act)>

  predicate Fits(sched: Schedule, n: nat) {
    forall k :: 0 <= k < |sched| ==> sched[k].0 < n
  }

  lemma StepShape(sys: Sys, p: nat, act: Act)
    requires WellShaped(sys) && p < |sys.procs|
    ensures WellShaped(Step(sys, p, act)) && |Step(sys, p, act).procs| == |sys.procs|
  {
    hide Semop;
  }

  function Run(sys: Sys, sched: Schedule): (r: Sys)
    requires WellShaped(sys) && Fits(sched, |sys.procs|)
    ensures WellShaped(r) && |r.procs| == |sys.procs|
    decreases |sched|
  {
    if sched == [] then sys
    else
      var s := Run(sys, sched[..|sched| - 1]);
      StepShape(s, sched[|sched| - 1].0, sched[|sched| - 1].1);
      Step(s, sched[|sched| - 1].0, sched[|sched| - 1].1)
  }

  /** At no time are there BIGCOUNT handles. */
  ghost predicate AlwaysRoomy(sys: Sys, sched: Schedule)
    requires WellShaped(sys) && Fits(sched, |sys.procs|)
  {
    forall k :: 0 <= k <= |sched| ==> Roomy(Run(sys, sched[..k]))
  }

  lemma {:induction false} RunsKeepInv(sys: Sys, sched: Schedule)
    requires Start(sys) && Fits(sched, |sys.procs|) && AlwaysRoomy(sys, sched)
    ensures Inv(Run(sys, sched)) && Roomy(Run(sys, sched))
    decreases |sched|
  {
    assert sched[..|sched|] == sched;
    assert Roomy(Run(sys, sched[..|sched|]));
    if sched != [] {
      var n := |sched| - 1;
      forall k | 0 <= k <= n
        ensures Roomy(Run(sys, sched[..n][..k]))
      {
        assert sched[..n][..k] == sched[..k];
      }
      RunsKeepInv(sys, sched[..n]);
      StepKeepsInv(Run(sys, sched[..n]), sched[n].0, sched[n].1);
    }
  }

  /** In every run the lock member is 0 or 1 and is the number of processes holding the lock. */
  lemma LockIsHolders(sys: Sys, sched: Schedule)
    requires Start(sys) && Fits(sched, |sys.procs|) && AlwaysRoomy(sys, sched)
    ensures var r := Run(sys, sched);
            r.set_.Some? ==> r.set_.value.vals[2] == Holders(r.procs, r.set_.value.id) && 0 <= r.set_.value.vals[2] <= 1
  {
    RunsKeepInv(sys, sched);
  }

  /** In every run the set is given its values only while nobody has a handle to it, and the lock is always let go: the
    process that holds it can take its next step at once, whatever the others do. */
  lemma HolderGoesOn(sys: Sys, sched: Schedule, p: nat)
    requires Start(sys) && Fits(sched, |sys.procs|) && AlwaysRoomy(sys, sched) && p < |sys.procs|
    ensures var r := Run(sys, sched);
            var pc := r.procs[p].pc;
            Locked(pc) ==>
              && Present(r, p) && Advance(r, p).procs[p].pc != pc && !Advance(r, p).procs[p].pc.Dead?
              && (pc.CreateSet0? || pc.CreateSet1? ==> Handles(r.procs, r.set_.value.id) == 0)
  {
    RunsKeepInv(sys, sched);
    var r := Run(sys, sched);
    if Locked(r.procs[p].pc) {
      assert IdsOk(r, r.procs[p]);
      Facts(r, p);
      LockedGoesOn(r, p);
    }
  }

  lemma LockedGoesOn(sys: Sys, p: nat)
    requires Inv(sys) && Roomy(sys) && p < |sys.procs| && Present(sys, p) && Locked(sys.procs[p].pc)
    ensures Advance(sys, p).procs[p].pc != sys.procs[p].pc && !Advance(sys, p).procs[p].pc.Dead?
    ensures sys.procs[p].pc.CreateSet0? || sys.procs[p].pc.CreateSet1? ==> Handles(sys.procs, sys.set_.value.id) == 0
  {
    hide Handles, Holders, Semop;
    Facts(sys, p);
    EndCreateOp(sys.set_.value, p);
    SingleOp(sys.set_.value, p, OP_UNLOCK[0]);
  }
}
