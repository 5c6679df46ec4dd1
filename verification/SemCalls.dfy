/** How the calls of apue/apue.2e/lib/semaph.c end: sem_create always with a handle to the set that is there, and no
  call fails but in the ways listed here. */
module SemCalls {
  import opened SemProtocol
  import opened SemTheorems
  import opened SemAttachment

  /** In the middle of sem_create. */
  predicate InCreate(pc: Pc) {
    pc.CreateGet? || pc.CreateLock? || pc.CreateVal? || pc.CreateSet0? || pc.CreateSet1? || pc.CreateEnd?
  }

  /** The ways in which a process goes: it exits itself; it waits for the lock of a set that is then removed;
    or the set that its sem_open has found is removed before it takes its handle. */
  predicate MayFail(sys: Sys, p: nat, act: Act)
    requires p < |sys.procs|
  {
    || act.Exit?
    || (act.Removed? && sys.procs[p].pc.CreateLock? && !Present(sys, p))
    || (act.Go? && sys.procs[p].pc.OpenOp? && !Present(sys, p))
  }

  /** A call on a set that is there does not fail, unless it is a sem_close that finds too large a counter. */
  lemma WorkingGoesOn(sys: Sys, p: nat)
    requires WellShaped(sys) && p < |sys.procs| && sys.set_.Some? && !sys.procs[p].pc.Dead?
    requires sys.procs[p].pc.CloseVal? ==> sys.set_.value.vals[1] <= BIGCOUNT
    ensures |Working(sys, p).procs| == |sys.procs| && !Working(sys, p).procs[p].pc.Dead?
  {
    hide Semop;
  }

  lemma CounterFits(sys: Sys, p: nat)
    requires Inv(sys) && Roomy(sys) && p < |sys.procs| && sys.procs[p].pc.CloseVal? && Present(sys, p)
    ensures sys.set_.value.vals[1] <= BIGCOUNT
  {
    hide Handles, Holders;
    ValStep(sys, p, CloseVal);
  }

  /** In every run without a sem_open that slips in, a process is gone only for one of these reasons: the failures of
    the kernel that the calls look for do not otherwise occur. */
  lemma OnlyWaysOut(sys: Sys, sched: Schedule, p: nat, act: Act)
    requires Start(sys) && Fits(sched, |sys.procs|) && AlwaysRoomy(sys, sched) && NobodySlipsIn(sys, sched)
    requires p < |sys.procs| && !Run(sys, sched).procs[p].pc.Dead?
    ensures var r := Run(sys, sched);
            |Step(r, p, act).procs| == |r.procs| && (Step(r, p, act).procs[p].pc.Dead? ==> MayFail(r, p, act))
  {
    hide Run, Inv, Roomy, Working, Gone, Try, Handles, Holders, NobodySlipsIn, AlwaysRoomy;
    RunsKeepInv(sys, sched);
    RemovedOnlyUnused(sys, sched, p, act);
    var r := Run(sys, sched);
    StepShape(r, p, act);
    LockedPresent(r, p);
    if act.Go? && Present(r, p) {
      if r.procs[p].pc.CloseVal? {
        CounterFits(r, p);
      }
      PresentGoesOn(r, p);
    }
  }

  lemma LockedPresent(r: Sys, p: nat)
    requires Inv(r) && p < |r.procs|
    ensures Locked(r.procs[p].pc) ==> Present(r, p)
  {
    hide Handles, Holders;
    assert IdsOk(r, r.procs[p]);
  }

  lemma PresentGoesOn(r: Sys, p: nat)
    requires WellShaped(r) && p < |r.procs| && Present(r, p) && !r.procs[p].pc.Dead?
    requires r.procs[p].pc.CloseVal? ==> r.set_.value.vals[1] <= BIGCOUNT
    ensures |Advance(r, p).procs| == |r.procs| && !Advance(r, p).procs[p].pc.Dead?
  {
    hide Semop, Working;
    WorkingGoesOn(r, p);
  }

  /** sem_create returns only with a new handle, to the set that is there then; when the set it had found is gone it
    starts again. sem_open returns without a handle only if there is no set. */
  lemma CallsReturn(sys: Sys, p: nat, act: Act)
    requires WellShaped(sys) && p < |sys.procs|
    ensures |Step(sys, p, act).procs| == |sys.procs|
    ensures var b, q := Step(sys, p, act), sys.procs[p];
            && (b.procs[p].pc.Idle? && (InCreate(q.pc) || q.pc.OpenOp?) ==>
                 b.set_.Some? && b.procs[p].open == q.open + multiset{b.set_.value.id})
            && (b.procs[p].pc.Idle? && q.pc.OpenGet? ==>
                 sys.set_.None? && b.set_.None? && b.procs[p].open == q.open)
            && (act.Go? && q.pc.CreateLock? && !Present(sys, p) ==>
                 b == sys.(procs := sys.procs[p := q.(pc := CreateGet)]))
    ensures var b, q := Step(sys, p, act), sys.procs[p];
            act.Go? && q.pc.CreateGet? ==>
              && b.procs[p].pc.CreateLock? && Present(b, p) && b.procs[p].arg == q.arg
              && if sys.set_.Some? then b.set_ == sys.set_ else b.set_.value.vals == [0, 0, 0]
  {
    hide Semop, Undone;
    StepShape(sys, p, act);
  }
}
