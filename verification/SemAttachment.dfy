/** When a handle is to the set that is there: exactly when no sem_open slips in between the last reading of the counter
  by a closer and its removal of the set. */
module SemAttachment {
  import opened Wrappers
  import opened SemProtocol
  import opened SemTheorems

  /** Some process has a handle to a set that is gone. */
  ghost predicate Lost(sys: Sys) {
    exists p: nat, id :: p < |sys.procs| && id in sys.procs[p].open && !(sys.set_.Some? && sys.set_.value.id == id)
  }

  /** The next step of some process, whatever the others do meanwhile, would take the set away from under a handle. */
  ghost predicate AboutToLose(sys: Sys)
    requires WellShaped(sys)
  {
    exists p: nat :: p < |sys.procs| && Lost(Step(sys, p, Go))
  }

  /** Process p has read that the counter is BIGCOUNT and is about to remove the set. */
  predicate Leaving(sys: Sys, p: nat)
    requires p < |sys.procs|
  {
    sys.procs[p].pc.CloseRm? && Present(sys, p)
  }

  /** A sem_open takes its handle while a sem_close stands between its reading of the counter and its sem_rm. */
  ghost predicate SlipsIn(sys: Sys, p: nat, act: Act)
    requires p < |sys.procs|
  {
    act.Go? && sys.procs[p].pc.OpenOp? && Present(sys, p) && exists r: nat :: r < |sys.procs| && Leaving(sys, r)
  }

  /** Every handle is to the set that is there. */
  ghost predicate Attached(sys: Sys) {
    forall p :: 0 <= p < |sys.procs| ==> AttachedAt(sys, sys.procs[p])
  }

  predicate AttachedAt(sys: Sys, q: Proc) {
    forall id :: id in q.open ==> sys.set_.Some? && sys.set_.value.id == id
  }

  /** A process about to remove the set is right that nobody has a handle to it. */
  ghost predicate Undisturbed(sys: Sys) {
    forall p :: 0 <= p < |sys.procs| && Leaving(sys, p) ==> Handles(sys.procs, sys.procs[p].id) == 0
  }

  ghost predicate Secure(sys: Sys) {
    Attached(sys) && Undisturbed(sys)
  }

  // ----- what one step does to the handles

  /** The step in which process p gets a handle. */
  ghost predicate Takes(sys: Sys, p: nat, act: Act)
    requires p < |sys.procs|
  {
    act.Go? && Present(sys, p) && (sys.procs[p].pc.CreateEnd? || sys.procs[p].pc.OpenOp?)
  }

  /** A step changes the handles of its own process only, and adds one only to the set that is there. */
  lemma StepOpens(sys: Sys, p: nat, act: Act)
    requires WellShaped(sys) && p < |sys.procs|
    ensures var n, q := Step(sys, p, act), sys.procs[p];
            && n.procs == sys.procs[p := n.procs[p]]
            && (n.procs[p].open <= q.open || (Takes(sys, p, act) && n.procs[p].open == q.open + multiset{q.id}))
  {
    hide Semop;
  }

  /** A step leaves the set there, makes one where there was none, or is that of a closer that removes it. */
  lemma StepSet(sys: Sys, p: nat, act: Act)
    requires WellShaped(sys) && p < |sys.procs|
    ensures var n := Step(sys, p, act);
            if sys.set_.None? then n.set_.Some? ==> sys.procs[p].pc.CreateGet? && act.Go?
            else if n.set_.None? then act.Go? && Leaving(sys, p) && n.procs[p] == sys.procs[p].(pc := Idle)
            else n.set_.value.id == sys.set_.value.id
  {
    hide Semop;
  }

  /** A process is about to remove the set only if it was before, or has just read BIGCOUNT. */
  lemma StepLeaving(sys: Sys, p: nat, act: Act)
    requires WellShaped(sys) && p < |sys.procs|
    ensures var n := Step(sys, p, act);
            |n.procs| == |sys.procs| && (Leaving(n, p) ==>
              && n.set_.Some? && sys.set_.Some? && n.set_.value.id == sys.set_.value.id
              && n.procs[p].id == sys.procs[p].id && n.procs[p].open == sys.procs[p].open
              && (Leaving(sys, p) || (act.Go? && sys.procs[p].pc.CloseVal? && Present(sys, p))))
  {
    hide Semop;
  }

  lemma NoHandles(procs: seq<Proc>, id: nat, r: nat)
    requires Handles(procs, id) == 0 && r < |procs|
    ensures procs[r].open[id] == 0
  {
    HandlesSet(procs, r, procs[r], id);
  }

  lemma StepKeepsAttached(sys: Sys, p: nat, act: Act)
    requires Inv(sys) && Secure(sys) && p < |sys.procs|
    ensures Attached(Step(sys, p, act))
  {
    hide Step, Handles, Holders, SetOk;
    StepOpens(sys, p, act);
    StepSet(sys, p, act);
    var n := Step(sys, p, act);
    forall r | 0 <= r < |n.procs|
      ensures AttachedAt(n, n.procs[r])
    {
      assert AttachedAt(sys, sys.procs[r]);
      if sys.set_.Some? && n.set_.None? {
        NoHandles(sys.procs, sys.procs[p].id, r);
      }
    }
  }

  /** While a process is about to remove the set nobody else gets a handle through sem_create, which takes the lock. */
  lemma StepKeepsUndisturbed(sys: Sys, p: nat, act: Act)
    requires Inv(sys) && Roomy(sys) && Secure(sys) && p < |sys.procs| && !SlipsIn(sys, p, act)
    ensures Undisturbed(Step(sys, p, act))
  {
    hide Step, Handles, Holders, SetOk;
    var n := Step(sys, p, act);
    StepOpens(sys, p, act);
    StepSet(sys, p, act);
    StepLeaving(sys, p, act);
    forall r | 0 <= r < |n.procs| && Leaving(n, r)
      ensures Handles(n.procs, n.procs[r].id) == 0
    {
      if r == p {
        LeaverReads(sys, p, act);
      } else {
        LeaverAlone(sys, p, act, r);
      }
    }
  }

  lemma LeaverReads(sys: Sys, p: nat, act: Act)
    requires Inv(sys) && Roomy(sys) && Undisturbed(sys) && p < |sys.procs|
    requires |Step(sys, p, act).procs| == |sys.procs| && Leaving(Step(sys, p, act), p)
    ensures Handles(Step(sys, p, act).procs, Step(sys, p, act).procs[p].id) == 0
  {
    hide Handles, Holders, SetOk;
    StepOpens(sys, p, act);
    StepLeaving(sys, p, act);
    var n := Step(sys, p, act);
    HandlesSet(sys.procs, p, n.procs[p], n.procs[p].id);
    if !Leaving(sys, p) {
      ValStep(sys, p, CloseVal);
    }
  }

  lemma LeaverAlone(sys: Sys, p: nat, act: Act, r: nat)
    requires Inv(sys) && Undisturbed(sys) && p < |sys.procs| && r < |sys.procs| && r != p && !SlipsIn(sys, p, act)
    requires |Step(sys, p, act).procs| == |sys.procs| && Leaving(Step(sys, p, act), r)
    ensures Handles(Step(sys, p, act).procs, Step(sys, p, act).procs[r].id) == 0
  {
    hide Step, Handles, Holders;
    StepOpens(sys, p, act);
    StepSet(sys, p, act);
    var n, id := Step(sys, p, act), sys.procs[r].id;
    HandlesSet(sys.procs, p, n.procs[p], id);
    assert IdsOk(sys, sys.procs[r]);
    assert Leaving(sys, r);
    if Takes(sys, p, act) {
      assert sys.procs[p].pc.CreateEnd?;
      OneHolder(sys.procs, p, r, id);
    }
  }

  /** While every handle is to the set that is there and the leavers are right, nothing is lost by the next step of
    anybody. */
  lemma SecureIsSafe(sys: Sys)
    requires Inv(sys) && Secure(sys)
    ensures !Lost(sys) && !AboutToLose(sys)
  {
    hide Step, Handles, Holders, SetOk;
    forall p: nat, id | p < |sys.procs| && id in sys.procs[p].open
      ensures sys.set_.Some? && sys.set_.value.id == id
    {
      assert AttachedAt(sys, sys.procs[p]);
    }
    forall p: nat | p < |sys.procs|
      ensures !Lost(Step(sys, p, Go))
    {
      StepKeepsAttached(sys, p, Go);
      var n := Step(sys, p, Go);
      forall r: nat, id | r < |n.procs| && id in n.procs[r].open
        ensures n.set_.Some? && n.set_.value.id == id
      {
        assert AttachedAt(n, n.procs[r]);
      }
    }
  }

  /** A sem_open that slips in gets its handle, and the next step of the closer removes the set under it. */
  lemma SlipLoses(sys: Sys, p: nat, act: Act)
    requires Inv(sys) && Roomy(sys) && p < |sys.procs| && SlipsIn(sys, p, act)
    ensures AboutToLose(Step(sys, p, act))
  {
    hide Handles, Holders, Semop;
    var r: nat :| r < |sys.procs| && Leaving(sys, r);
    var s, n := sys.set_.value, Step(sys, p, act);
    Facts(sys, p);
    Facts(sys, r);
    SingleOp(s, p, OP_OPEN[0]);
    StepShape(sys, p, act);
    assert n.procs[p].open == sys.procs[p].open + multiset{s.id} && n.procs[r] == sys.procs[r];
    StepShape(n, r, Go);
    assert s.id in Step(n, r, Go).procs[p].open && Step(n, r, Go).set_.None?;
    assert Lost(Step(n, r, Go));
  }

  // ----- runs

  /** No sem_open of the run slips in. */
  ghost predicate NobodySlipsIn(sys: Sys, sched: Schedule)
    requires WellShaped(sys) && Fits(sched, |sys.procs|)
  {
    forall k :: 0 <= k < |sched| ==> !SlipsIn(Run(sys, sched[..k]), sched[k].0, sched[k].1)
  }

  /** At no time is a handle lost, nor can the next step of a process lose one. */
  ghost predicate NothingLost(sys: Sys, sched: Schedule)
    requires WellShaped(sys) && Fits(sched, |sys.procs|)
  {
    forall k :: 0 <= k <= |sched| ==> !Lost(Run(sys, sched[..k])) && !AboutToLose(Run(sys, sched[..k]))
  }

  /** The first k steps of a run are a run of their own. */
  lemma Earlier(sys: Sys, sched: Schedule, k: nat)
    requires Start(sys) && Fits(sched, |sys.procs|) && AlwaysRoomy(sys, sched) && k <= |sched|
    ensures AlwaysRoomy(sys, sched[..k]) && Inv(Run(sys, sched[..k])) && Roomy(Run(sys, sched[..k]))
    ensures NobodySlipsIn(sys, sched) ==> NobodySlipsIn(sys, sched[..k])
    ensures k < |sched| ==> Run(sys, sched[..k + 1]) == Step(Run(sys, sched[..k]), sched[k].0, sched[k].1)
  {
    hide Step, Inv, Roomy;
    forall i | 0 <= i <= k
      ensures sched[..k][..i] == sched[..i]
    {
    }
    RunsKeepInv(sys, sched[..k]);
    if k < |sched| {
      assert sched[..k + 1][..k] == sched[..k];
    }
  }

  lemma {:induction false} RunsStaySecure(sys: Sys, sched: Schedule)
    requires Start(sys) && Fits(sched, |sys.procs|) && AlwaysRoomy(sys, sched) && NobodySlipsIn(sys, sched)
    ensures Secure(Run(sys, sched))
    decreases |sched|
  {
    hide Step, Inv, Roomy, SlipsIn;
    assert sched[..|sched|] == sched;
    if sched != [] {
      var n := |sched| - 1;
      Earlier(sys, sched, n);
      RunsStaySecure(sys, sched[..n]);
      StepKeepsAttached(Run(sys, sched[..n]), sched[n].0, sched[n].1);
      StepKeepsUndisturbed(Run(sys, sched[..n]), sched[n].0, sched[n].1);
    }
  }

  /** sem_open and sem_close are safe together exactly when no sem_open slips in: then every handle is at all times to
    the set that is there, and otherwise a closer is left whose next step removes the set under a handle. */
  lemma LostExactly(sys: Sys, sched: Schedule)
    requires Start(sys) && Fits(sched, |sys.procs|) && AlwaysRoomy(sys, sched)
    ensures NothingLost(sys, sched) <==> NobodySlipsIn(sys, sched)
  {
    hide Step, Inv, Roomy, SlipsIn, Lost, AboutToLose, Secure;
    if NobodySlipsIn(sys, sched) {
      forall k | 0 <= k <= |sched|
        ensures !Lost(Run(sys, sched[..k])) && !AboutToLose(Run(sys, sched[..k]))
      {
        Earlier(sys, sched, k);
        RunsStaySecure(sys, sched[..k]);
        SecureIsSafe(Run(sys, sched[..k]));
      }
    } else {
      var k :| 0 <= k < |sched| && SlipsIn(Run(sys, sched[..k]), sched[k].0, sched[k].1);
      Earlier(sys, sched, k);
      SlipLoses(Run(sys, sched[..k]), sched[k].0, sched[k].1);
      assert AboutToLose(Run(sys, sched[..k + 1]));
    }
  }

  /** In a run in which no sem_open slips in, a set is removed only when no process has a handle to anything, and
    sem_close and sem_op find their set. */
  lemma RemovedOnlyUnused(sys: Sys, sched: Schedule, p: nat, act: Act)
    requires Start(sys) && Fits(sched, |sys.procs|) && AlwaysRoomy(sys, sched) && NobodySlipsIn(sys, sched)
    requires p < |sys.procs|
    ensures var r := Run(sys, sched);
            && (r.set_.Some? && Step(r, p, act).set_.None? ==> forall q :: 0 <= q < |r.procs| ==>
                 r.procs[q].open == multiset{})
            && (r.procs[p].pc.CloseOp? || r.procs[p].pc.AdjustOp? ==> Present(r, p))
  {
    hide Step, Handles, Holders, SetOk;
    RunsKeepInv(sys, sched);
    RunsStaySecure(sys, sched);
    var r := Run(sys, sched);
    assert AttachedAt(r, r.procs[p]) && IdsOk(r, r.procs[p]);
    StepSet(r, p, act);
    if r.set_.Some? && Step(r, p, act).set_.None? {
      forall q | 0 <= q < |r.procs|
        ensures r.procs[q].open == multiset{}
      {
        assert AttachedAt(r, r.procs[q]);
        NoHandles(r.procs, r.procs[p].id, q);
      }
    }
  }

  // ----- two ways for callers to keep out of each other's way

  /** Every sem_open takes its handle while somebody already has one. */
  ghost predicate OpensAreHeld(sys: Sys, sched: Schedule)
    requires WellShaped(sys) && Fits(sched, |sys.procs|)
  {
    forall k :: 0 <= k < |sched| ==> OpenIsHeld(Run(sys, sched[..k]), sched[k].0, sched[k].1)
  }

  ghost predicate OpenIsHeld(sys: Sys, p: nat, act: Act)
    requires p < |sys.procs|
  {
    act.Go? && sys.procs[p].pc.OpenOp? && Present(sys, p) ==> Handles(sys.procs, sys.procs[p].id) > 0
  }

  lemma HeldNotSlipped(sys: Sys, p: nat, act: Act)
    requires Secure(sys) && p < |sys.procs| && OpenIsHeld(sys, p, act)
    ensures !SlipsIn(sys, p, act)
  {
  }

  lemma {:induction false} HeldNobodySlips(sys: Sys, sched: Schedule)
    requires Start(sys) && Fits(sched, |sys.procs|) && AlwaysRoomy(sys, sched) && OpensAreHeld(sys, sched)
    ensures NobodySlipsIn(sys, sched)
    decreases |sched|
  {
    hide Step, Inv, Roomy, SlipsIn, Secure, OpenIsHeld;
    if sched != [] {
      var n := |sched| - 1;
      Earlier(sys, sched, n);
      forall k | 0 <= k <= n
        ensures sched[..n][..k] == sched[..k]
      {
      }
      HeldNobodySlips(sys, sched[..n]);
      RunsStaySecure(sys, sched[..n]);
      HeldNotSlipped(Run(sys, sched[..n]), sched[n].0, sched[n].1);
      forall k | 0 <= k < |sched|
        ensures !SlipsIn(Run(sys, sched[..k]), sched[k].0, sched[k].1)
      {
        if k < n {
          assert sched[..n][k] == sched[k] && sched[..n][..k] == sched[..k];
        }
      }
    }
  }

  /** A handle that somebody keeps during every sem_open makes the run safe. */
  lemma HeldIsSafe(sys: Sys, sched: Schedule)
    requires Start(sys) && Fits(sched, |sys.procs|) && AlwaysRoomy(sys, sched) && OpensAreHeld(sys, sched)
    ensures NothingLost(sys, sched)
  {
    HeldNobodySlips(sys, sched);
    LostExactly(sys, sched);
  }

  predicate CreateOnly(sched: Schedule) {
    forall k :: 0 <= k < |sched| ==> !sched[k].1.Open?
  }

  ghost predicate NobodyOpens(sys: Sys) {
    forall p :: 0 <= p < |sys.procs| ==> !sys.procs[p].pc.OpenGet? && !sys.procs[p].pc.OpenOp?
  }

  lemma NoNewOpener(sys: Sys, p: nat, act: Act)
    requires WellShaped(sys) && p < |sys.procs| && NobodyOpens(sys) && !act.Open?
    ensures NobodyOpens(Step(sys, p, act))
  {
    hide Semop;
  }

  lemma {:induction false} NoOpeners(sys: Sys, sched: Schedule)
    requires Start(sys) && Fits(sched, |sys.procs|) && CreateOnly(sched)
    ensures NobodyOpens(Run(sys, sched))
    decreases |sched|
  {
    hide Step;
    if sched != [] {
      var n := |sched| - 1;
      NoOpeners(sys, sched[..n]);
      NoNewOpener(Run(sys, sched[..n]), sched[n].0, sched[n].1);
    }
  }

  /** Runs that attach through sem_create only are safe. */
  lemma CreateOnlyIsSafe(sys: Sys, sched: Schedule)
    requires Start(sys) && Fits(sched, |sys.procs|) && AlwaysRoomy(sys, sched) && CreateOnly(sched)
    ensures NobodySlipsIn(sys, sched) && NothingLost(sys, sched)
  {
    hide Step, Inv, Roomy, Lost, AboutToLose;
    forall k | 0 <= k < |sched|
      ensures !SlipsIn(Run(sys, sched[..k]), sched[k].0, sched[k].1)
    {
      NoOpeners(sys, sched[..k]);
    }
    LostExactly(sys, sched);
  }

  // ----- a run that also uses sem_open

  /** Two processes: the first makes a set and closes it again, the second opens it in between. */
  const RACE: Schedule := [
    (0, Create(0)), (0, Go), (0, Go), (0, Go), (0, Go), (0, Go), (0, Go),
    (1, Open), (1, Go), (0, Close(0)), (0, Go), (0, Go), (1, Go), (0, Go)]

  function Shared(counter: int, lock: int, u0: seq<int>, u1: seq<int>, p0: Pc, o0: nat, p1: Pc, o1: nat): Sys {
    Sys(Some(SemSet(0, [0, counter, lock], [u0, u1])), 1,
        [Proc(p0, 0, 0, multiset{}[0 := o0]), Proc(p1, 0, 0, multiset{}[0 := o1])])
  }

  function Alone(set_: Option<SemSet>, made: nat, p0: Pc, o1: nat): Sys {
    Sys(set_, made, [Proc(p0, 0, 0, multiset{}), Proc(Idle, 0, 0, multiset{}[0 := o1])])
  }

  /** The states of the run. */
  function Race(k: nat): Sys {
    if k == 0 then Alone(None, 0, Idle, 0)
    else if k == 1 then Alone(None, 0, CreateGet, 0)
    else if k == 2 then Shared(0, 0, [0, 0, 0], [0, 0, 0], CreateLock, 0, Idle, 0)
    else if k == 3 then Shared(0, 1, [0, 0, -1], [0, 0, 0], CreateVal, 0, Idle, 0)
    else if k == 4 then Shared(0, 1, [0, 0, -1], [0, 0, 0], CreateSet0, 0, Idle, 0)
    else if k == 5 then Shared(0, 1, [0, 0, -1], [0, 0, 0], CreateSet1, 0, Idle, 0)
    else if k == 6 then Shared(10000, 1, [0, 0, -1], [0, 0, 0], CreateEnd, 0, Idle, 0)
    else if k == 7 then Shared(9999, 0, [0, 1, 0], [0, 0, 0], Idle, 1, Idle, 0)
    else if k == 8 then Shared(9999, 0, [0, 1, 0], [0, 0, 0], Idle, 1, OpenGet, 0)
    else if k == 9 then Shared(9999, 0, [0, 1, 0], [0, 0, 0], Idle, 1, OpenOp, 0)
    else if k == 10 then Shared(9999, 0, [0, 1, 0], [0, 0, 0], CloseOp, 1, OpenOp, 0)
    else if k == 11 then Shared(10000, 1, [0, 0, -1], [0, 0, 0], CloseVal, 0, OpenOp, 0)
    else if k == 12 then Shared(10000, 1, [0, 0, -1], [0, 0, 0], CloseRm, 0, OpenOp, 0)
    else if k == 13 then Shared(9999, 1, [0, 0, -1], [0, 1, 0], CloseRm, 0, Idle, 1)
    else Alone(None, 1, Idle, 1)
  }

  lemma RaceGet()
    ensures Step(Race(0), 0, Create(0)) == Race(1) && Step(Race(1), 0, Go) == Race(2)
  {
    assert seq(2, _ => [0, 0, 0]) == [[0, 0, 0], [0, 0, 0]];
    assert multiset{}[0 := 0] == multiset{};
    assert Race(0).procs[0 := Race(1).procs[0]] == Race(1).procs;
    assert Race(1).procs[0 := Race(2).procs[0]] == Race(2).procs;
  }

  lemma RaceLock()
    ensures Step(Race(2), 0, Go) == Race(3)
  {
    hide Semop;
    var s, t := Race(2).set_.value, Race(3).set_.value;
    LockOp(s, 0);
    assert s.vals[2 := 1] == t.vals;
    assert s.undo[0][2 := -1] == t.undo[0];
    assert s.undo[0 := s.undo[0][2 := -1]] == t.undo;
    assert Race(2).procs[0 := Race(3).procs[0]] == Race(3).procs;
  }

  lemma RaceSet()
    ensures Step(Race(3), 0, Go) == Race(4) && Step(Race(4), 0, Go) == Race(5)
  {
    var s := Race(4).set_.value;
    assert SetVal(s, 0, 0).vals == s.vals;
    assert s.undo[0][0 := 0] == s.undo[0] && s.undo[1][0 := 0] == s.undo[1];
    assert SetVal(s, 0, 0).undo == s.undo;
    assert Race(3).procs[0 := Race(4).procs[0]] == Race(4).procs;
    assert Race(4).procs[0 := Race(5).procs[0]] == Race(5).procs;
  }

  lemma RaceSetCounter()
    ensures Step(Race(5), 0, Go) == Race(6)
  {
    var s, t := Race(5).set_.value, Race(6).set_.value;
    assert SetVal(s, 1, BIGCOUNT).vals == t.vals;
    assert s.undo[0][1 := 0] == t.undo[0] && s.undo[1][1 := 0] == t.undo[1];
    assert SetVal(s, 1, BIGCOUNT).undo == t.undo;
    assert Race(5).procs[0 := Race(6).procs[0]] == Race(6).procs;
  }

  lemma RaceEndCreate()
    ensures Step(Race(6), 0, Go) == Race(7)
  {
    hide Semop;
    var s, t := Race(6).set_.value, Race(7).set_.value;
    EndCreateOp(s, 0);
    var e := Plus(Plus(s, 0, 1, -1), 0, 2, -1);
    assert e.vals == t.vals;
    assert e.undo[0] == t.undo[0] && e.undo[1] == t.undo[1];
    assert e.undo == t.undo;
    assert multiset{}[0 := 0] + multiset{0} == multiset{}[0 := 1];
    assert Race(6).procs[0 := Race(7).procs[0]] == Race(7).procs;
  }

  lemma RaceOpens()
    ensures Step(Race(7), 1, Open) == Race(8) && Step(Race(8), 1, Go) == Race(9)
    ensures Step(Race(9), 0, Close(0)) == Race(10)
  {
    assert Race(7).procs[1 := Race(8).procs[1]] == Race(8).procs;
    assert Race(8).procs[1 := Race(9).procs[1]] == Race(9).procs;
    assert Race(9).procs[0 := Race(10).procs[0]] == Race(10).procs;
  }

  lemma RaceCloses()
    ensures Step(Race(10), 0, Go) == Race(11)
  {
    hide Semop;
    var s, t := Race(10).set_.value, Race(11).set_.value;
    CloseOpEffect(s, 0);
    var e := Plus(Plus(s, 0, 2, 1), 0, 1, 1);
    assert e.vals == t.vals;
    assert e.undo[0] == t.undo[0] && e.undo[1] == t.undo[1];
    assert e.undo == t.undo;
    assert multiset{}[0 := 1] - multiset{0} == multiset{}[0 := 0];
    assert Race(10).procs[0 := Race(11).procs[0]] == Race(11).procs;
  }

  lemma RaceReads()
    ensures Step(Race(11), 0, Go) == Race(12)
  {
    assert Race(11).procs[0 := Race(12).procs[0]] == Race(12).procs;
  }

  lemma RaceSlipsIn()
    ensures Step(Race(12), 1, Go) == Race(13)
  {
    hide Semop;
    var s, t := Race(12).set_.value, Race(13).set_.value;
    SingleOp(s, 1, OP_OPEN[0]);
    var o := Plus(s, 1, 1, -1);
    assert o.vals == t.vals;
    assert o.undo[0] == t.undo[0] && o.undo[1] == t.undo[1];
    assert o.undo == t.undo;
    assert multiset{}[0 := 0] + multiset{0} == multiset{}[0 := 1];
    assert Race(12).procs[1 := Race(13).procs[1]] == Race(13).procs;
  }

  lemma RaceRemoves()
    ensures Step(Race(13), 0, Go) == Race(14)
  {
    assert multiset{}[0 := 0] == multiset{};
    assert Race(13).procs[0 := Race(14).procs[0]] == Race(14).procs;
  }

  lemma RaceShape(k: nat)
    ensures WellShaped(Race(k)) && |Race(k).procs| == 2
  {
  }

  lemma RaceStep(k: nat)
    requires k < |RACE|
    ensures WellShaped(Race(k)) && |Race(k).procs| == 2 && Step(Race(k), RACE[k].0, RACE[k].1) == Race(k + 1)
  {
    hide Step, Race;
    RaceGet();
    RaceLock();
    RaceSet();
    RaceSetCounter();
    RaceEndCreate();
    RaceOpens();
    RaceCloses();
    RaceReads();
    RaceSlipsIn();
    RaceRemoves();
    RaceShape(k);
  }

  lemma {:induction false} RaceRuns(k: nat)
    requires k <= |RACE|
    ensures WellShaped(Race(0)) && |Race(0).procs| == 2 && Run(Race(0), RACE[..k]) == Race(k)
    decreases k
  {
    hide Step, Race;
    RaceShape(0);
    if k > 0 {
      RaceRuns(k - 1);
      RaceStep(k - 1);
      assert RACE[..k][..k - 1] == RACE[..k - 1];
    }
  }

  /** sem_open takes no lock: it can take a handle between the last reading of the counter and the removal, so that
    the set is removed under a handle. */
  lemma OpenLosesItsSet()
    ensures Start(Race(0)) && Fits(RACE, |Race(0).procs|)
    ensures var r := Run(Race(0), RACE);
            r.set_.None? && |r.procs| == 2 && 0 in r.procs[1].open
  {
    RaceRuns(|RACE|);
    assert RACE[..|RACE|] == RACE;
    assert multiset{}[0 := 0] == multiset{};
  }
}
