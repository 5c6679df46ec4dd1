/** How far the process counter can be trusted: exactly as long as there are fewer than BIGCOUNT handles. */
module SemCounter {
  import opened Wrappers
  import opened SemProtocol
  import opened SemTheorems
  import opened SemAttachment

  /** The counter reads 0 for a set that is not in use, and with the open handles makes up BIGCOUNT otherwise. */
  ghost predicate CounterOk(sys: Sys)
    requires WellShaped(sys)
  {
    sys.set_.Some? ==>
      var s := sys.set_.value;
      if s.vals[1] == 0 then Handles(sys.procs, s.id) == 0 else s.vals[1] + Handles(sys.procs, s.id) == BIGCOUNT
  }

  /** The step that makes the BIGCOUNTth handle leaves a counter that reads as not initialised. */
  lemma OverFull(sys: Sys, p: nat, act: Act)
    requires Inv(sys) && Roomy(sys) && p < |sys.procs|
    requires WellShaped(Step(sys, p, act)) && !Roomy(Step(sys, p, act))
    ensures !CounterOk(Step(sys, p, act)) && Step(sys, p, act).set_.value.vals[1] == 0
  {
    hide Handles, Holders, Semop, SetOk, Undone, SetVal;
    StepOpens(sys, p, act);
    StepSet(sys, p, act);
    var n := Step(sys, p, act);
    if sys.set_.None? {
      GetStep(sys, p);
      EmptyCounter(n);
    } else {
      var s := sys.set_.value;
      HandlesSet(sys.procs, p, n.procs[p], s.id);
      assert Takes(sys, p, act);
      Facts(sys, p);
      EndCreateOp(s, p);
      SingleOp(s, p, OP_OPEN[0]);
    }
  }

  lemma EmptyCounter(sys: Sys)
    requires Inv(sys) && sys.set_.Some? && sys.set_.value.vals == [0, 0, 0]
    ensures Handles(sys.procs, sys.set_.value.id) == 0
  {
  }

  /** The counter and the handles agree throughout a run exactly when there are never BIGCOUNT handles. */
  lemma CounterExactly(sys: Sys, sched: Schedule)
    requires Start(sys) && Fits(sched, |sys.procs|)
    ensures (forall k :: 0 <= k <= |sched| ==> CounterOk(Run(sys, sched[..k]))) <==> AlwaysRoomy(sys, sched)
  {
    hide Step, Inv, Roomy, CounterOk;
    if AlwaysRoomy(sys, sched) {
      forall k | 0 <= k <= |sched|
        ensures CounterOk(Run(sys, sched[..k]))
      {
        Earlier(sys, sched, k);
        RoomyCounts(Run(sys, sched[..k]));
      }
    } else {
      FirstFull(sys, sched, |sched|);
    }
  }

  lemma RoomyCounts(sys: Sys)
    requires Inv(sys)
    ensures CounterOk(sys)
  {
  }

  /** A run that gets BIGCOUNT handles has a first state with as many. */
  lemma {:induction false} FirstFull(sys: Sys, sched: Schedule, k: nat)
    requires Start(sys) && Fits(sched, |sys.procs|) && k <= |sched|
    requires exists i :: 0 <= i <= k && !Roomy(Run(sys, sched[..i]))
    ensures exists i :: 0 <= i <= |sched| && !CounterOk(Run(sys, sched[..i]))
    decreases k
  {
    hide Step, Inv, CounterOk;
    if j :| 0 <= j < k && !Roomy(Run(sys, sched[..j])) {
      FirstFull(sys, sched, k - 1);
    } else if k > 0 {
      var a := sched[..k - 1];
      forall i | 0 <= i <= |a|
        ensures a[..i] == sched[..i]
      {
      }
      assert AlwaysRoomy(sys, a);
      assert sched[..k][..k - 1] == a;
      RunsKeepInv(sys, a);
      var r := Run(sys, a);
      assert Run(sys, sched[..k]) == Step(r, sched[k - 1].0, sched[k - 1].1);
      OverFull(r, sched[k - 1].0, sched[k - 1].1);
      assert !CounterOk(Run(sys, sched[..k]));
    }
  }

  // ----- a run that gets there

  /** One process and one set that it has made, with what is to be undone of the counter. */
  function Only(counter: int, lock: int, back: int, pc: Pc, handles: nat): Sys {
    Sys(Some(SemSet(0, [0, counter, lock], [[0, back, -lock]])), 1, [Proc(pc, 0, 0, multiset{}[0 := handles])])
  }

  /** After n calls of sem_create. */
  function Filled(n: nat): Sys {
    if n == 0 then Sys(None, 0, [Proc(Idle, 0, 0, multiset{})]) else Only(BIGCOUNT - n, 0, n, Idle, n)
  }

  function Gos(k: nat): (s: Schedule)
    ensures Fits(s, 1)
  {
    if k == 0 then [] else Gos(k - 1) + [(0, Go)]
  }

  /** The call that finds the counter at 0 also sets the values. */
  function CreateCall(n: nat): (s: Schedule)
    ensures Fits(s, 1)
  {
    [(0, Create(0))] + Gos(if n == 0 || n == BIGCOUNT then 6 else 4)
  }

  function Creates(n: nat): (s: Schedule)
    ensures Fits(s, 1)
  {
    if n == 0 then [] else Creates(n - 1) + CreateCall(n - 1)
  }

  lemma {:induction false} RunAppend(sys: Sys, a: Schedule, b: Schedule)
    requires WellShaped(sys) && Fits(a, |sys.procs|) && Fits(b, |sys.procs|)
    ensures Fits(a + b, |sys.procs|) && Run(sys, a + b) == Run(Run(sys, a), b)
    decreases |b|
  {
    hide Step;
    if b == [] {
      assert a + b == a;
    } else {
      RunAppend(sys, a, b[..|b| - 1]);
      assert (a + b)[..|a + b| - 1] == a + b[..|b| - 1];
    }
  }

  lemma RunOne(sys: Sys, act: Act)
    requires WellShaped(sys) && |sys.procs| == 1
    ensures Run(sys, [(0, act)]) == Step(sys, 0, act)
  {
    assert [(0, act)][..0] == [];
  }

  lemma RunGos(sys: Sys, k: nat)
    requires WellShaped(sys) && |sys.procs| == 1 && k > 0
    ensures Run(sys, Gos(k)) == Step(Run(sys, Gos(k - 1)), 0, Go)
  {
    GosLength(k);
  }

  lemma {:induction false} GosLength(k: nat)
    ensures |Gos(k)| == k && (k > 0 ==> Gos(k)[..k - 1] == Gos(k - 1))
  {
    if k > 0 {
      GosLength(k - 1);
    }
  }

  lemma BeginStep(n: nat)
    requires n <= BIGCOUNT
    ensures var c := if n == 0 then 0 else BIGCOUNT - n;
            var q := Step(Filled(n), 0, Create(0));
            WellShaped(q) && |q.procs| == 1 && Step(q, 0, Go) == Only(c, 0, n, CreateLock, n)
  {
    assert multiset{}[0 := 0] == multiset{};
    assert seq(1, _ => [0, 0, 0]) == [[0, 0, 0]];
  }

  lemma LockStepOnly(c: int, n: nat)
    ensures Step(Only(c, 0, n, CreateLock, n), 0, Go) == Only(c, 1, n, CreateVal, n)
  {
    hide Semop;
    var s := Only(c, 0, n, CreateLock, n).set_.value;
    LockOp(s, 0);
    assert s.vals[2 := 1] == [0, c, 1];
    var u := Only(c, 1, n, CreateVal, n).set_.value.undo;
    assert s.undo[0][2 := -1] == u[0];
    assert s.undo[0 := s.undo[0][2 := -1]] == u;
  }

  lemma EndStepOnly(c: int, u: nat, n: nat)
    requires c >= 1
    ensures Step(Only(c, 1, u, CreateEnd, n), 0, Go) == Only(c - 1, 0, u + 1, Idle, n + 1)
  {
    hide Semop;
    var s := Only(c, 1, u, CreateEnd, n).set_.value;
    EndCreateOp(s, 0);
    var e := Plus(Plus(s, 0, 1, -1), 0, 2, -1);
    assert e.vals == [0, c - 1, 0];
    assert e.undo[0] == [0, u + 1, 0];
    assert e.undo == [[0, u + 1, 0]];
    assert multiset{}[0 := n] + multiset{0} == multiset{}[0 := n + 1];
  }

  /** Setting the counter also forgets the handles that were to be undone. */
  lemma SetStepsOnly(u: nat, n: nat)
    ensures var a := Only(0, 1, u, CreateSet0, n);
            && Step(Only(0, 1, u, CreateVal, n), 0, Go) == a
            && Step(a, 0, Go) == Only(0, 1, u, CreateSet1, n)
            && Step(Only(0, 1, u, CreateSet1, n), 0, Go) == Only(BIGCOUNT, 1, 0, CreateEnd, n)
  {
    var s := Only(0, 1, u, CreateSet0, n).set_.value;
    assert SetVal(s, 0, 0).vals == s.vals;
    assert s.undo[0][0 := 0] == s.undo[0];
    assert SetVal(s, 0, 0).undo == s.undo;
    assert SetVal(s, 1, BIGCOUNT).vals == [0, BIGCOUNT, 1];
    assert s.undo[0][1 := 0] == [0, 0, -1];
    assert SetVal(s, 1, BIGCOUNT).undo == [[0, 0, -1]];
  }

  lemma ValStepOnly(c: int, n: nat)
    requires c != 0
    ensures Step(Only(c, 1, n, CreateVal, n), 0, Go) == Only(c, 1, n, CreateEnd, n)
  {
  }

  lemma FilledShape(n: nat)
    ensures WellShaped(Filled(n)) && |Filled(n).procs| == 1
  {
  }

  /** What one more sem_create makes of n handles: one more, and with BIGCOUNT of them a counter that starts afresh. */
  lemma OneMore(n: nat)
    requires n <= BIGCOUNT
    ensures WellShaped(Filled(n)) && |Filled(n).procs| == 1
    ensures Run(Filled(n), CreateCall(n)) ==
      if n < BIGCOUNT then Filled(n + 1) else Only(BIGCOUNT - 1, 0, 1, Idle, n + 1)
  {
    hide Step, Run, WellShaped;
    FilledShape(n);
    BeginStep(n);
    var q, c := Step(Filled(n), 0, Create(0)), if n == 0 then 0 else BIGCOUNT - n;
    RunOne(Filled(n), Create(0));
    var k := if c == 0 then 6 else 4;
    RunAppend(Filled(n), [(0, Create(0))], Gos(k));
    RunNone(q);
    RunGos(q, 1);
    RunGos(q, 2);
    RunGos(q, 3);
    RunGos(q, 4);
    LockStepOnly(c, n);
    if c == 0 {
      SetStepsOnly(n, n);
      RunGos(q, 5);
      RunGos(q, 6);
      EndStepOnly(BIGCOUNT, 0, n);
    } else {
      ValStepOnly(c, n);
      EndStepOnly(c, n, n);
    }
  }

  lemma RunNone(sys: Sys)
    requires WellShaped(sys) && |sys.procs| == 1
    ensures Run(sys, Gos(0)) == sys
  {
  }

  lemma {:induction false} ManyCreates(n: nat)
    requires n <= BIGCOUNT
    ensures WellShaped(Filled(0)) && |Filled(0).procs| == 1 && Run(Filled(0), Creates(n)) == Filled(n)
  {
    hide Step, Run, WellShaped, CreateCall, Filled;
    FilledShape(0);
    if n == 0 {
      RunNone(Filled(0));
    } else {
      ManyCreates(n - 1);
      OneMore(n - 1);
      RunAppend(Filled(0), Creates(n - 1), CreateCall(n - 1));
    }
  }

  /** BIGCOUNT handles bring the counter to 0, which a further sem_create takes for a set not initialised: it sets the
    counter to BIGCOUNT again, and the two no longer agree. */
  lemma CounterStartsAfresh()
    ensures Start(Filled(0)) && |Filled(0).procs| == 1
    ensures var r := Run(Filled(0), Creates(BIGCOUNT));
            r.set_.Some? && r.set_.value.vals[1] == 0 && r.procs[0].open[r.set_.value.id] == BIGCOUNT
    ensures var r := Run(Filled(0), Creates(BIGCOUNT + 1));
            r.set_.Some? && r.set_.value.vals[1] == BIGCOUNT - 1 && r.procs[0].open[r.set_.value.id] == BIGCOUNT + 1
  {
    hide Run, CreateCall;
    ManyCreates(BIGCOUNT);
    OneMore(BIGCOUNT);
    RunAppend(Filled(0), Creates(BIGCOUNT), CreateCall(BIGCOUNT));
    assert Creates(BIGCOUNT + 1) == Creates(BIGCOUNT) + CreateCall(BIGCOUNT);
  }
}
