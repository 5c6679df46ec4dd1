/** The threads of apue/apue.2e/ipp/printd.c that share the list of pending jobs: any number of clients that add jobs,
  and the one printer thread, with the mutex joblock and the condition variable jobwait between them.

  The list is the sequence of job numbers that SpoolList links up; each step of a thread is atomic.
 */
module SpoolProtocol {
  import opened Wrappers

  type JobId = int

  /** A client: add_job takes the lock, links the job in, lets the lock go, and then signals. */
  datatype Client = Away | WantsLock(job: JobId) | Links(job: JobId) | Unlocks | Signals

  /** The printer thread. */
  datatype Printer =
    | Locks | Checks | Sleeps | Wakes | Takes
    | Leaves(job: JobId) | Prints(job: JobId)
    | WantsBack(job: JobId) | PutsBack(job: JobId) | LeavesBack

  /** owner is the thread that has the lock: None, 0 for the printer thread, or one more than a client's number. */
  datatype Sys = Sys(owner: Option<nat>, list: seq<JobId>, clients: seq<Client>, printer: Printer, arrived: seq<JobId>,
      done: seq<JobId>)

  /** A step: a client begins with a new job, a client goes on, the printer thread goes on, its job is finished or
    cancelled, its job is deferred, or it wakes for no reason. */
  datatype Act = Begin(c: nat, job: JobId) | Client(c: nat) | Print | Finish | Defer | Stir

  function With(s: Sys, c: nat, pc: Client): (r: Sys)
    requires c < |s.clients|
  {
    s.(clients := s.clients[c := pc])
  }

  function ClientStep(s: Sys, c: nat): (r: Sys)
    requires c < |s.clients|
  {
    match s.clients[c]
    case Away => s
    case WantsLock(j) => if s.owner.None? then With(s.(owner := Some(c + 1)), c, Links(j)) else s
    case Links(j) => With(s.(list := s.list + [j], arrived := s.arrived + [j]), c, Unlocks)
    case Unlocks => With(s.(owner := None), c, Signals)
    case Signals => With(if s.printer.Sleeps? then s.(printer := Wakes) else s, c, Away)
  }

  function PrinterStep(s: Sys): (r: Sys) {
    match s.printer
    case Locks => if s.owner.None? then s.(owner := Some(0), printer := Checks) else s
    case Wakes => if s.owner.None? then s.(owner := Some(0), printer := Checks) else s
    case Checks => if s.list == [] then s.(owner := None, printer := Sleeps) else s.(printer := Takes)
    case Sleeps => s
    case Takes => if s.list == [] then s else s.(list := s.list[1..], printer := Leaves(s.list[0]))
    case Leaves(j) => s.(owner := None, printer := Prints(j))
    case Prints(_) => s
    case WantsBack(j) => if s.owner.None? then s.(owner := Some(0), printer := PutsBack(j)) else s
    case PutsBack(j) => s.(list := [j] + s.list, printer := LeavesBack)
    case LeavesBack => s.(owner := None, printer := Locks)
  }

  function Step(s: Sys, act: Act): (r: Sys) {
    match act
    case Begin(c, j) => if c < |s.clients| && s.clients[c].Away? then With(s, c, WantsLock(j)) else s
    case Client(c) => if c < |s.clients| then ClientStep(s, c) else s
    case Print => PrinterStep(s)
    case Finish => if s.printer.Prints? then s.(printer := Locks, done := s.done + [s.printer.job]) else s
    case Defer => if s.printer.Prints? then s.(printer := WantsBack(s.printer.job)) else s
    case Stir => if s.printer.Sleeps? then s.(printer := Wakes) else s
  }

  ghost predicate Start(s: Sys) {
    s.owner.None? && s.list == [] && s.printer == Locks && s.arrived == [] && s.done == []
    && forall c :: 0 <= c < |s.clients| ==> s.clients[c].Away?
  }

  function Run(s: Sys, acts: seq<Act>): (r: Sys)
    decreases |acts|
  {
    if acts == [] then s else Step(Run(s, acts[..|acts| - 1]), acts[|acts| - 1])
  }

  // ----- the invariant

  /** The job the printer thread has taken and not yet put back or done. */
  function InHand(p: Printer): seq<JobId> {
    match p
    case Leaves(j) => [j]
    case Prints(j) => [j]
    case WantsBack(j) => [j]
    case PutsBack(j) => [j]
    case _ => []
  }

  predicate PrinterHolds(p: Printer) {
    p.Checks? || p.Takes? || p.Leaves? || p.PutsBack? || p.LeavesBack?
  }

  predicate ClientHolds(c: Client) {
    c.Links? || c.Unlocks?
  }

  /** A signal that this client will send. */
  predicate SignalComing(c: Client) {
    c.Unlocks? || c.Signals?
  }

  ghost predicate Inv(s: Sys) {
    && (PrinterHolds(s.printer) <==> s.owner == Some(0)) && (s.owner.Some? ==> s.owner.value <= |s.clients|)
    && (forall c :: 0 <= c < |s.clients| ==> (ClientHolds(s.clients[c]) <==> s.owner == Some(c + 1)))
    && (s.printer.Takes? ==> s.list != [])
    && s.arrived == s.done + InHand(s.printer) + s.list
    && (s.printer.Sleeps? && s.list != [] ==> exists c :: 0 <= c < |s.clients| && SignalComing(s.clients[c]))
  }

  lemma StepKeepsInv(s: Sys, act: Act)
    requires Inv(s)
    ensures Inv(Step(s, act))
  {
    match act {
      case Client(c) =>
        if c < |s.clients| {
          ClientKeepsInv(s, c);
        }
      case Print => PrinterKeepsInv(s);
      case Begin(c, j) =>
        var n := Step(s, act);
        if s.printer.Sleeps? && s.list != [] {
          var d :| 0 <= d < |s.clients| && SignalComing(s.clients[d]);
          assert SignalComing(n.clients[d]);
        }
      case Finish =>
        if s.printer.Prints? {
          assert s.done + [s.printer.job] + s.list == s.done + [s.printer.job] + [] + s.list;
        }
      case _ =>
    }
  }

  lemma ClientKeepsInv(s: Sys, c: nat)
    requires Inv(s) && c < |s.clients|
    ensures Inv(ClientStep(s, c))
  {
    var n := ClientStep(s, c);
    if s.clients[c].Links? {
      assert SignalComing(n.clients[c]);
      assert s.done + InHand(s.printer) + s.list + [s.clients[c].job] ==
          s.done + InHand(s.printer) + (s.list + [s.clients[c].job]);
    } else if s.clients[c].Unlocks? {
      assert SignalComing(n.clients[c]);
    } else if n.printer.Sleeps? && n.list != [] {
      var d :| 0 <= d < |s.clients| && SignalComing(s.clients[d]);
      assert SignalComing(n.clients[d]);
    }
  }

  lemma PrinterKeepsInv(s: Sys)
    requires Inv(s)
    ensures Inv(PrinterStep(s))
  {
    match s.printer {
      case Takes =>
        assert s.list == [s.list[0]] + s.list[1..];
        assert s.done + [] + s.list == s.done + [s.list[0]] + s.list[1..];
      case PutsBack(j) =>
        assert s.done + [j] + s.list == s.done + [] + ([j] + s.list);
      case _ =>
    }
  }

  lemma {:induction false} RunsKeepInv(s: Sys, acts: seq<Act>)
    requires Start(s)
    ensures Inv(Run(s, acts))
    decreases |acts|
  {
    if acts != [] {
      RunsKeepInv(s, acts[..|acts| - 1]);
      StepKeepsInv(Run(s, acts[..|acts| - 1]), acts[|acts| - 1]);
    }
  }

  // ----- what a schedule asks for

  /** The job that client c was given last: the one it began with when it had none. */
  function JobOf(s: Sys, acts: seq<Act>, c: nat): JobId
    decreases |acts|
  {
    if acts == [] then 0
    else
      var n := |acts| - 1;
      var r := Run(s, acts[..n]);
      if acts[n].Begin? && acts[n].c == c && c < |r.clients| && r.clients[c].Away? then acts[n].job
      else JobOf(s, acts[..n], c)
  }

  /** The jobs that clients have linked in, in order. */
  function Added(s: Sys, acts: seq<Act>): seq<JobId>
    decreases |acts|
  {
    if acts == [] then []
    else
      var n := |acts| - 1;
      var r := Run(s, acts[..n]);
      Added(s, acts[..n]) +
        if acts[n].Client? && acts[n].c < |r.clients| && r.clients[acts[n].c].Links?
        then [JobOf(s, acts[..n], acts[n].c)] else []
  }

  /** The jobs that were being printed when they were said to be finished, in order. */
  function Finished(s: Sys, acts: seq<Act>): seq<JobId>
    decreases |acts|
  {
    if acts == [] then []
    else
      var n := |acts| - 1;
      var r := Run(s, acts[..n]);
      Finished(s, acts[..n]) + if acts[n] == Finish && r.printer.Prints? then InHand(r.printer) else []
  }

  predicate KnowsJob(c: Client, j: JobId) {
    (c.WantsLock? ==> c.job == j) && (c.Links? ==> c.job == j)
  }

  lemma StepRecords(r: Sys, act: Act, given: JobId)
    requires act.Client? && act.c < |r.clients| ==> KnowsJob(r.clients[act.c], given)
    ensures Step(r, act).done == r.done + if act == Finish && r.printer.Prints? then InHand(r.printer) else []
    ensures Step(r, act).arrived ==
      r.arrived + if act.Client? && act.c < |r.clients| && r.clients[act.c].Links? then [given] else []
    ensures |Step(r, act).clients| == |r.clients|
  {
  }

  /** A client works with the job it was given. */
  lemma StepKnowsJob(r: Sys, act: Act, c: nat, given: JobId)
    requires c < |r.clients| && KnowsJob(r.clients[c], given)
    ensures |Step(r, act).clients| == |r.clients|
    ensures KnowsJob(Step(r, act).clients[c],
              if act.Begin? && act.c == c && r.clients[c].Away? then act.job else given)
  {
  }

  lemma {:induction false} RunsRecord(s: Sys, acts: seq<Act>)
    requires Start(s)
    ensures var r := Run(s, acts);
            && r.arrived == Added(s, acts) && r.done == Finished(s, acts) && |r.clients| == |s.clients|
            && forall c :: 0 <= c < |r.clients| ==> KnowsJob(r.clients[c], JobOf(s, acts, c))
    decreases |acts|
  {
    hide Step, KnowsJob;
    if acts == [] {
      assert forall c :: 0 <= c < |s.clients| ==> KnowsJob(s.clients[c], 0) by {
        AwayKnows(s);
      }
    } else {
      var n := |acts| - 1;
      RunsRecord(s, acts[..n]);
      var r, act := Run(s, acts[..n]), acts[n];
      StepRecords(r, act, if act.Client? && act.c < |r.clients| then JobOf(s, acts[..n], act.c) else 0);
      forall c | 0 <= c < |r.clients|
        ensures KnowsJob(Run(s, acts).clients[c], JobOf(s, acts, c))
      {
        StepKnowsJob(r, act, c, JobOf(s, acts[..n], c));
      }
    }
  }

  lemma AwayKnows(s: Sys)
    requires forall c :: 0 <= c < |s.clients| ==> s.clients[c].Away?
    ensures forall c :: 0 <= c < |s.clients| ==> KnowsJob(s.clients[c], 0)
  {
  }

  /** In every run the jobs that clients added, in order, are those that were printed when they were said to be
    finished, then the one in hand, then those pending: nothing but Finish gets a job out of the spool, and deferring
    one never reorders, loses or duplicates any. */
  lemma NothingLost(s: Sys, acts: seq<Act>)
    requires Start(s)
    ensures var r := Run(s, acts);
            && r.arrived == r.done + InHand(r.printer) + r.list
            && Added(s, acts) == Finished(s, acts) + InHand(r.printer) + r.list
            && r.arrived == Added(s, acts) && r.done == Finished(s, acts)
    ensures (forall k :: 0 <= k < |acts| ==> acts[k] != Finish) ==> Run(s, acts).done == []
  {
    RunsKeepInv(s, acts);
    RunsRecord(s, acts);
    if forall k :: 0 <= k < |acts| ==> acts[k] != Finish {
      NoneFinished(s, acts);
    }
  }

  lemma {:induction false} NoneFinished(s: Sys, acts: seq<Act>)
    requires forall k :: 0 <= k < |acts| ==> acts[k] != Finish
    ensures Finished(s, acts) == []
    decreases |acts|
  {
    if acts != [] {
      NoneFinished(s, acts[..|acts| - 1]);
    }
  }

  /** A deferred job goes back to the front of the list as soon as the lock is free, and the printer thread goes on; one
    that is finished leaves the list as it is. */
  lemma ComesBack(s: Sys)
    requires s.printer.Prints? && s.owner.None?
    ensures var j := s.printer.job;
            && Run(s, [Defer, Print, Print, Print]) == s.(list := [j] + s.list, printer := Locks)
            && Run(s, [Finish]) == s.(done := s.done + [j], printer := Locks)
  {
    var j := s.printer.job;
    var s1, s2 := s.(printer := WantsBack(j)), s.(owner := Some(0), printer := PutsBack(j));
    var s3 := s2.(list := [j] + s.list, printer := LeavesBack);
    assert [Finish][..0] == [] && [Defer][..0] == [];
    assert Run(s, [Defer]) == s1;
    assert [Defer, Print][..1] == [Defer];
    assert Run(s, [Defer, Print]) == s2;
    assert [Defer, Print, Print][..2] == [Defer, Print];
    assert Run(s, [Defer, Print, Print]) == s3;
    assert [Defer, Print, Print, Print][..3] == [Defer, Print, Print];
  }

  /** The first k steps of a thread, one after the other. */
  lemma StepsOf(s: Sys, act: Act, k: nat)
    requires k <= 4
    ensures Run(s, []) == s
    ensures k >= 1 ==> Run(s, [act]) == Step(s, act)
    ensures k >= 2 ==> Run(s, [act, act]) == Step(Step(s, act), act)
    ensures k >= 3 ==> Run(s, [act, act, act]) == Step(Step(Step(s, act), act), act)
    ensures k >= 4 ==> Run(s, [act, act, act, act]) == Step(Step(Step(Step(s, act), act), act), act)
  {
    hide Step;
    assert [act][..0] == [] && [act, act][..1] == [act] && [act, act, act][..2] == [act, act];
    assert [act, act, act, act][..3] == [act, act, act];
  }

  /** When the lock is free, the printer thread's next steps take the first job off the list to print it, if there is
    one, and otherwise put it to sleep; woken, it does the same. */
  lemma FirstIsPrinted(s: Sys)
    requires s.owner.None? && (s.printer.Locks? || s.printer.Wakes?)
    ensures s.list != [] ==> Run(s, [Print, Print, Print, Print]) ==
                               s.(list := s.list[1..], printer := Prints(s.list[0]))
    ensures s.list == [] ==> Run(s, [Print, Print]) == s.(printer := Sleeps)
  {
    StepsOf(s, Print, 4);
  }

  /** When the lock is free, a client's next steps put its job at the end of the list, let the lock go, and wake the
    printer thread if it sleeps. */
  lemma JobIsAdded(s: Sys, c: nat)
    requires s.owner.None? && c < |s.clients| && s.clients[c].WantsLock?
    ensures var j := s.clients[c].job;
            Run(s, [Client(c), Client(c), Client(c), Client(c)]) ==
              s.(list := s.list + [j], arrived := s.arrived + [j], clients := s.clients[c := Away],
                 printer := if s.printer.Sleeps? then Wakes else s.printer)
  {
    StepsOf(s, Client(c), 4);
  }

  /** In every run whoever has the lock lets it go within three steps of its own, whatever it finds. */
  lemma LockComesFree(s: Sys, acts: seq<Act>)
    requires Start(s)
    ensures var r := Run(s, acts);
            r.owner.Some? ==>
              var own := if r.owner.value == 0 then Print else Client(r.owner.value - 1);
              || Run(r, [own]).owner.None? || Run(r, [own, own]).owner.None? || Run(r, [own, own, own]).owner.None?
  {
    hide Run;
    RunsKeepInv(s, acts);
    var r := Run(s, acts);
    if r.owner.Some? {
      StepsOf(r, if r.owner.value == 0 then Print else Client(r.owner.value - 1), 3);
    }
  }

  /** In every run, when the printer thread sleeps while jobs are pending, some client is about to signal, and nothing
    can keep it from doing so: two steps of that client, whatever it needs of them, wake the printer thread. */
  lemma NoLostWakeup(s: Sys, acts: seq<Act>)
    requires Start(s)
    ensures var r := Run(s, acts);
            r.printer.Sleeps? && r.list != [] ==>
              exists c :: 0 <= c < |r.clients| && SignalComing(r.clients[c])
                && (ClientStep(r, c).printer.Wakes? || ClientStep(ClientStep(r, c), c).printer.Wakes?)
  {
    RunsKeepInv(s, acts);
    var r := Run(s, acts);
    if r.printer.Sleeps? && r.list != [] {
      var c :| 0 <= c < |r.clients| && SignalComing(r.clients[c]);
      if r.clients[c].Unlocks? {
        assert ClientStep(r, c).clients[c].Signals?;
      }
      assert SignalComing(r.clients[c])
          && (ClientStep(r, c).printer.Wakes? || ClientStep(ClientStep(r, c), c).printer.Wakes?);
    }
  }

  lemma ChangedByOwner(s: Sys, act: Act)
    requires Inv(s)
    ensures Step(s, act).list != s.list ==>
              match act
              case Client(c) => s.owner == Some(c + 1)
              case Print => s.owner == Some(0)
              case _ => false
  {
  }

  /** In every run the list changes only in the hands of the thread that has the lock. */
  lemma ChangedUnderLock(s: Sys, acts: seq<Act>, act: Act)
    requires Start(s)
    ensures var r := Run(s, acts);
            Step(r, act).list != r.list ==>
              match act
              case Client(c) => r.owner == Some(c + 1)
              case Print => r.owner == Some(0)
              case _ => false
  {
    hide Inv, Step;
    RunsKeepInv(s, acts);
    ChangedByOwner(Run(s, acts), act);
  }
}
