/** The value of the semaphore itself, member 0: in every run it is what the calls made of it. */
module SemValues {
  import opened SemProtocol
  import opened SemTheorems

  // ----- what has happened to the set

  /** The set was made, a sem_create gave it its value, a sem_op was finished, or a process was gone. */
  datatype Event = Made | Initialised(initval: int) | Adjusted(p: nat, amount: int) | Left(p: nat)

  /** The call that process p is in, or was in last: the act with which it left off being idle. */
  function CallOf(sys: Sys, sched: Schedule, p: nat): Act
    requires WellShaped(sys) && Fits(sched, |sys.procs|) && p < |sys.procs|
    decreases |sched|
  {
    if sched == [] then Go
    else
      var n := |sched| - 1;
      if sched[n].0 == p && Run(sys, sched[..n]).procs[p].pc.Idle? && !Run(sys, sched).procs[p].pc.Idle? then sched[n].1
      else CallOf(sys, sched[..n], p)
  }

  /** What a step from a to b of process p, in the given call, has done to the set. */
  function EventOf(a: Sys, b: Sys, p: nat, call: Act): seq<Event>
    requires p < |a.procs| == |b.procs|
  {
    if a.set_.None? && b.set_.Some? then [Made]
    else if !a.procs[p].pc.Dead? && b.procs[p].pc.Dead? then [Left(p)]
    else if a.procs[p].pc.CreateSet0? && b.procs[p].pc.CreateSet1? && call.Create? then [Initialised(call.initval)]
    else if a.procs[p].pc.AdjustOp? && b.procs[p].pc.Idle? && call.Adjust? then [Adjusted(p, call.amount)]
    else []
  }

  function History(sys: Sys, sched: Schedule): seq<Event>
    requires WellShaped(sys) && Fits(sched, |sys.procs|)
    decreases |sched|
  {
    if sched == [] then []
    else
      var n := |sched| - 1;
      History(sys, sched[..n])
        + EventOf(Run(sys, sched[..n]), Run(sys, sched), sched[n].0, CallOf(sys, sched[..n], sched[n].0))
  }

  // ----- what this makes of its value

  /** The value, and how much of it each process has to give back when it is gone. */
  datatype Account = Account(value: int, net: seq<int>)

  function After(acc: Account, e: Event): (r: Account)
    ensures |r.net| == |acc.net|
  {
    match e
    case Made => Account(0, seq(|acc.net|, _ => 0))
    case Initialised(v) => Account(v, seq(|acc.net|, _ => 0))
    case Adjusted(p, n) =>
      if p < |acc.net| then Account(acc.value + n, acc.net[p := acc.net[p] + n]) else acc
    case Left(p) =>
      if p < |acc.net| then
        Account(if acc.value > acc.net[p] then acc.value - acc.net[p] else 0, acc.net[p := 0])
      else acc
  }

  function AfterStep(acc: Account, es: seq<Event>): (r: Account)
    ensures |r.net| == |acc.net|
  {
    if es == [] then acc else After(acc, es[|es| - 1])
  }

  function AfterAll(events: seq<Event>, n: nat): (r: Account)
    ensures |r.net| == n
  {
    if events == [] then Account(0, seq(n, _ => 0))
    else After(AfterAll(events[..|events| - 1], n), events[|events| - 1])
  }

  /** The set has the value, and the kernel's data for its undoing, that the account has. */
  predicate Booked(sys: Sys, acc: Account)
    requires WellShaped(sys)
  {
    && |acc.net| == |sys.procs|
    && (sys.set_.Some? ==> sys.set_.value.vals[0] == acc.value)
    && (sys.set_.Some? ==> forall p :: 0 <= p < |acc.net| ==> sys.set_.value.undo[p][0] == -acc.net[p])
  }

  predicate Creating(pc: Pc) {
    pc.CreateGet? || pc.CreateLock? || pc.CreateVal? || pc.CreateSet0?
  }

  /** A process works with the values it was called with. */
  predicate Knows0(q: Proc, call: Act) {
    && (Creating(q.pc) ==> call == Create(q.arg))
    && (q.pc.AdjustOp? ==> call == Adjust(q.id, q.arg))
  }

  // ----- one step

  /** Operations on other members leave member 0 alone. */
  lemma {:induction false} OthersLeave(s: SemSet, p: nat, ops: seq<SemBuf>)
    requires Shaped(s, p) && forall k :: 0 <= k < |ops| ==> 0 < ops[k].num < 3
    requires forall r :: 0 <= r < |s.undo| ==> |s.undo[r]| == 3
    ensures Semop(s, p, ops).Some? ==>
      var t := Semop(s, p, ops).value;
      && t.vals[0] == s.vals[0] && |t.undo| == |s.undo|
      && forall r :: 0 <= r < |s.undo| ==> |t.undo[r]| == 3 && t.undo[r][0] == s.undo[r][0]
    decreases |ops|
  {
    if ops != [] && Operate(s, p, ops[0]).Some? {
      OthersLeave(Operate(s, p, ops[0]).value, p, ops[1..]);
    }
  }

  /** The step keeps the books: what it has done is the event it is. */
  ghost predicate Changed(a: Sys, b: Sys, p: nat, call: Act, acc: Account)
    requires p < |a.procs|
  {
    && WellShaped(b) && |b.procs| == |a.procs| && Booked(b, AfterStep(acc, EventOf(a, b, p, call)))
    && forall r :: 0 <= r < |a.procs| && r != p ==> b.procs[r] == a.procs[r]
  }

  /** A step that ends in trying such operations. */
  lemma TryOthers(sys: Sys, p: nat, ops: seq<SemBuf>, q: Proc, call: Act, acc: Account)
    requires WellShaped(sys) && p < |sys.procs| && sys.set_.Some? && Booked(sys, acc)
    requires forall k :: 0 <= k < |ops| ==> 0 < ops[k].num < 3
    requires !q.pc.Dead? && !sys.procs[p].pc.CreateSet0? && !sys.procs[p].pc.AdjustOp?
    ensures Changed(sys, Try(sys, p, ops, q), p, call, acc)
  {
    hide Semop;
    OthersLeave(sys.set_.value, p, ops);
    assert Shaped(sys.set_.value, p);
  }

  lemma AdjustBooked(sys: Sys, p: nat, call: Act, acc: Account)
    requires WellShaped(sys) && p < |sys.procs| && sys.set_.Some? && Booked(sys, acc) && sys.procs[p].pc.AdjustOp?
    requires sys.procs[p].arg != 0 && Knows0(sys.procs[p], call)
    ensures Changed(sys, Working(sys, p), p, call, acc)
  {
    hide Semop;
    SingleOp(sys.set_.value, p, SemBuf(0, sys.procs[p].arg, true));
  }

  lemma GoneBooked(sys: Sys, p: nat, acc: Account)
    requires WellShaped(sys) && p < |sys.procs| && Booked(sys, acc)
    ensures WellShaped(Gone(sys, p)) && Booked(Gone(sys, p), After(acc, Left(p)))
    ensures |Gone(sys, p).procs| == |sys.procs| && Gone(sys, p).procs[p].pc.Dead?
    ensures Gone(sys, p).set_.Some? == sys.set_.Some?
    ensures forall r :: 0 <= r < |sys.procs| && r != p ==> Gone(sys, p).procs[r] == sys.procs[r]
  {
  }

  lemma WorkingBooked(sys: Sys, p: nat, call: Act, acc: Account)
    requires WellShaped(sys) && p < |sys.procs| && sys.set_.Some? && Booked(sys, acc) && Knows0(sys.procs[p], call)
    requires sys.procs[p].pc.AdjustOp? ==> sys.procs[p].arg != 0
    requires var pc := sys.procs[p].pc; !pc.Idle? && !pc.Dead? && !pc.CreateGet? && !pc.OpenGet? && !pc.CreateLock?
    ensures Changed(sys, Working(sys, p), p, call, acc)
  {
    hide Semop, Try, Gone;
    var q := sys.procs[p];
    match q.pc {
      case CreateEnd =>
        TryOthers(sys, p, OP_ENDCREATE, q.(pc := Idle, open := q.open + multiset{q.id}), call, acc);
      case OpenOp => TryOthers(sys, p, OP_OPEN, q.(pc := Idle, open := q.open + multiset{q.id}), call, acc);
      case CloseOp => TryOthers(sys, p, OP_CLOSE, q.(pc := CloseVal, open := q.open - multiset{q.id}), call, acc);
      case CloseUnlock => TryOthers(sys, p, OP_UNLOCK, q.(pc := Idle), call, acc);
      case CloseVal => GoneBooked(sys, p, acc);
      case AdjustOp => AdjustBooked(sys, p, call, acc);
      case _ =>
    }
  }

  lemma GetBooked(sys: Sys, p: nat, call: Act, acc: Account)
    requires WellShaped(sys) && p < |sys.procs| && Booked(sys, acc)
    requires sys.procs[p].pc.CreateGet? || sys.procs[p].pc.OpenGet?
    ensures Changed(sys, Advance(sys, p), p, call, acc)
  {
    hide Working, Try;
  }

  /** A step that is no event, and leaves the set alone. */
  lemma MovedBooked(sys: Sys, p: nat, q: Proc, call: Act, acc: Account)
    requires WellShaped(sys) && p < |sys.procs| && Booked(sys, acc)
    requires EventOf(sys, With(sys, p, q), p, call) == []
    ensures Changed(sys, With(sys, p, q), p, call, acc)
    ensures q == sys.procs[p] ==> With(sys, p, q) == sys
  {
  }

  lemma AdvanceBooked(sys: Sys, p: nat, call: Act, acc: Account)
    requires WellShaped(sys) && p < |sys.procs| && Booked(sys, acc) && Knows0(sys.procs[p], call)
    requires sys.procs[p].pc.AdjustOp? ==> sys.procs[p].arg != 0
    ensures Changed(sys, Advance(sys, p), p, call, acc)
  {
    hide Semop, Try, Gone, Working, Booked;
    var q := sys.procs[p];
    match q.pc {
      case CreateGet => GetBooked(sys, p, call, acc);
      case OpenGet => GetBooked(sys, p, call, acc);
      case Idle => MovedBooked(sys, p, q, call, acc);
      case Dead => MovedBooked(sys, p, q, call, acc);
      case CreateLock =>
        if Present(sys, p) {
          TryOthers(sys, p, OP_LOCK, q.(pc := CreateVal), call, acc);
        } else {
          MovedBooked(sys, p, q.(pc := CreateGet), call, acc);
        }
      case _ =>
        if Present(sys, p) {
          WorkingBooked(sys, p, call, acc);
        } else {
          GoneBooked(sys, p, acc);
        }
    }
  }

  lemma StepBooked(sys: Sys, p: nat, act: Act, call: Act, acc: Account)
    requires WellShaped(sys) && p < |sys.procs| && Booked(sys, acc) && Knows0(sys.procs[p], call)
    requires sys.procs[p].pc.AdjustOp? ==> sys.procs[p].arg != 0
    ensures Changed(sys, Step(sys, p, act), p, call, acc)
  {
    hide Gone, Advance;
    match act {
      case Go => AdvanceBooked(sys, p, call, acc);
      case _ => GoneBooked(sys, p, acc);
    }
  }

  /** A step within a call leaves the arguments of the call alone. */
  lemma AdvanceKeepsArg(sys: Sys, p: nat)
    requires WellShaped(sys) && p < |sys.procs|
    ensures |Advance(sys, p).procs| == |sys.procs|
    ensures var a, b := sys.procs[p], Advance(sys, p).procs[p];
            && (Creating(b.pc) ==> Creating(a.pc) && b.arg == a.arg)
            && (b.pc.AdjustOp? ==> b == a) && (a.pc.Idle? ==> b.pc.Idle?)
  {
    hide Semop, Undone, Working;
    if sys.set_.Some? {
      WorkingKeepsArg(sys, p);
    }
  }

  lemma WorkingKeepsArg(sys: Sys, p: nat)
    requires WellShaped(sys) && p < |sys.procs| && sys.set_.Some?
    ensures |Working(sys, p).procs| == |sys.procs|
    ensures var a, b := sys.procs[p], Working(sys, p).procs[p];
            && (Creating(b.pc) ==> Creating(a.pc) && b.arg == a.arg) && (b.pc.AdjustOp? ==> b == a)
  {
    hide Semop, Undone;
  }

  /** What the process knows of its call after its own step. */
  lemma StepKnows(sys: Sys, p: nat, act: Act, call: Act)
    requires WellShaped(sys) && p < |sys.procs| && Knows0(sys.procs[p], call)
    requires sys.procs[p].pc.AdjustOp? ==> sys.procs[p].arg != 0
    ensures |Step(sys, p, act).procs| == |sys.procs|
    ensures var a, b := sys.procs[p], Step(sys, p, act).procs[p];
            && Knows0(b, if a.pc.Idle? && !b.pc.Idle? then act else call) && (b.pc.AdjustOp? ==> b.arg != 0)
  {
    hide Advance, Undone;
    AdvanceKeepsArg(sys, p);
  }

  // ----- runs

  lemma {:induction false} RunsAreBooked(sys: Sys, sched: Schedule)
    requires Start(sys) && Fits(sched, |sys.procs|)
    ensures var r := Run(sys, sched);
            && Booked(r, AfterAll(History(sys, sched), |sys.procs|))
            && forall p :: 0 <= p < |r.procs| ==>
                 Knows0(r.procs[p], CallOf(sys, sched, p)) && (r.procs[p].pc.AdjustOp? ==> r.procs[p].arg != 0)
    decreases |sched|
  {
    hide Step, Booked, Knows0;
    if sched == [] {
      StartBooked(sys);
    } else {
      var n, p, act := |sched| - 1, sched[|sched| - 1].0, sched[|sched| - 1].1;
      RunsAreBooked(sys, sched[..n]);
      var a, b, call := Run(sys, sched[..n]), Run(sys, sched), CallOf(sys, sched[..n], p);
      var acc := AfterAll(History(sys, sched[..n]), |sys.procs|);
      StepBooked(a, p, act, call, acc);
      StepKnows(a, p, act, call);
      HistoryNext(sys, sched);
    }
  }

  lemma StartBooked(sys: Sys)
    requires Start(sys)
    ensures Booked(sys, AfterAll([], |sys.procs|))
    ensures forall p :: 0 <= p < |sys.procs| ==> Knows0(sys.procs[p], Go) && !sys.procs[p].pc.AdjustOp?
  {
  }

  lemma HistoryNext(sys: Sys, sched: Schedule)
    requires WellShaped(sys) && Fits(sched, |sys.procs|) && sched != []
    ensures var n := |sched| - 1;
            var es := EventOf(Run(sys, sched[..n]), Run(sys, sched), sched[n].0, CallOf(sys, sched[..n], sched[n].0));
            AfterAll(History(sys, sched), |sys.procs|)
              == AfterStep(AfterAll(History(sys, sched[..n]), |sys.procs|), es)
  {
    hide Run, CallOf, EventOf, AfterAll, AfterStep;
    var n := |sched| - 1;
    var es := EventOf(Run(sys, sched[..n]), Run(sys, sched), sched[n].0, CallOf(sys, sched[..n], sched[n].0));
    OneEvent(Run(sys, sched[..n]), Run(sys, sched), sched[n].0, CallOf(sys, sched[..n], sched[n].0));
    AppendEvent(History(sys, sched[..n]), es, |sys.procs|);
  }

  lemma OneEvent(a: Sys, b: Sys, p: nat, call: Act)
    requires p < |a.procs| == |b.procs|
    ensures |EventOf(a, b, p, call)| <= 1
  {
  }

  lemma AppendEvent(h: seq<Event>, es: seq<Event>, n: nat)
    requires |es| <= 1
    ensures AfterAll(h + es, n) == AfterStep(AfterAll(h, n), es)
  {
    if es == [] {
      assert h + es == h;
    } else {
      assert (h + es)[..|h|] == h;
    }
  }

  /** In every run, exits included, member 0 of the set is what the initial value, the finished calls of sem_op and the
    processes that are gone make of it. */
  lemma ValueIsBooked(sys: Sys, sched: Schedule)
    requires Start(sys) && Fits(sched, |sys.procs|)
    ensures var r := Run(sys, sched);
            r.set_.Some? ==> r.set_.value.vals[0] == AfterAll(History(sys, sched), |sys.procs|).value
  {
    RunsAreBooked(sys, sched);
  }

  // ----- without exits

  /** The initial value the set was given last. */
  function LastInit(events: seq<Event>): int {
    if events == [] then 0
    else
      match events[|events| - 1]
      case Made => 0
      case Initialised(v) => v
      case _ => LastInit(events[..|events| - 1])
  }

  /** The amounts of the calls of sem_op that have been finished since, in order. */
  function Amounts(events: seq<Event>): seq<int> {
    if events == [] then []
    else
      match events[|events| - 1]
      case Made => []
      case Initialised(_) => []
      case Adjusted(_, n) => Amounts(events[..|events| - 1]) + [n]
      case Left(_) => Amounts(events[..|events| - 1])
  }

  function Sum(s: seq<int>): int {
    if s == [] then 0 else Sum(s[..|s| - 1]) + s[|s| - 1]
  }

  predicate NoneLeft(events: seq<Event>, n: nat) {
    forall k :: 0 <= k < |events| ==> !events[k].Left? && (events[k].Adjusted? ==> events[k].p < n)
  }

  lemma {:induction false} AccountIsSum(events: seq<Event>, n: nat)
    requires NoneLeft(events, n)
    ensures AfterAll(events, n).value == LastInit(events) + Sum(Amounts(events))
    decreases |events|
  {
    if events != [] {
      AccountIsSum(events[..|events| - 1], n);
    }
  }

  predicate NoneDead(sys: Sys) {
    forall p :: 0 <= p < |sys.procs| ==> !sys.procs[p].pc.Dead?
  }

  lemma StepDead(sys: Sys, p: nat, act: Act)
    requires WellShaped(sys) && p < |sys.procs| && |Step(sys, p, act).procs| == |sys.procs|
    requires NoneDead(Step(sys, p, act))
    ensures NoneDead(sys)
  {
    hide Semop, Undone;
    var b := Step(sys, p, act);
    forall r | 0 <= r < |sys.procs|
      ensures !sys.procs[r].pc.Dead?
    {
      OnlyOne(sys, p, act, r);
      assert !b.procs[r].pc.Dead?;
    }
  }

  /** A step is one process's, and the dead take none. */
  lemma OnlyOne(sys: Sys, p: nat, act: Act, r: nat)
    requires WellShaped(sys) && p < |sys.procs| && r < |sys.procs| && |Step(sys, p, act).procs| == |sys.procs|
    ensures r != p || sys.procs[r].pc.Dead? ==> Step(sys, p, act).procs[r] == sys.procs[r]
  {
    hide Semop, Undone;
  }

  lemma {:induction false} NobodyLeft(sys: Sys, sched: Schedule)
    requires WellShaped(sys) && Fits(sched, |sys.procs|) && NoneDead(Run(sys, sched))
    ensures NoneLeft(History(sys, sched), |sys.procs|)
    decreases |sched|
  {
    hide Step;
    if sched != [] {
      var n := |sched| - 1;
      StepDead(Run(sys, sched[..n]), sched[n].0, sched[n].1);
      NobodyLeft(sys, sched[..n]);
    }
  }

  /** In every run in which no process has gone, member 0 of the set is the initial value of the sem_create that
    initialised it plus the amounts of all calls of sem_op that have been finished on it. */
  lemma ValueIsSum(sys: Sys, sched: Schedule)
    requires Start(sys) && Fits(sched, |sys.procs|) && NoneDead(Run(sys, sched))
    ensures var r, h := Run(sys, sched), History(sys, sched);
            r.set_.Some? ==> r.set_.value.vals[0] == LastInit(h) + Sum(Amounts(h))
  {
    ValueIsBooked(sys, sched);
    NobodyLeft(sys, sched);
    AccountIsSum(History(sys, sched), |sys.procs|);
  }

  // ----- waiting

  /** A sem_op goes on exactly when the value does not become negative, and then adds its amount. */
  lemma AdjustWaits(sys: Sys, p: nat)
    requires WellShaped(sys) && p < |sys.procs| && sys.procs[p].pc.AdjustOp? && Present(sys, p) && sys.procs[p].arg != 0
    ensures var s, b, n := sys.set_.value, Step(sys, p, Go), sys.procs[p].arg;
            if s.vals[0] + n < 0 then b == sys
            else b.procs == sys.procs[p := sys.procs[p].(pc := Idle)] && b.set_.Some? && b.set_.value.id == s.id
                 && b.set_.value.vals == [s.vals[0] + n, s.vals[1], s.vals[2]]
  {
    hide Semop;
    SingleOp(sys.set_.value, p, SemBuf(0, sys.procs[p].arg, true));
  }

  /** After the last close the set is removed: a sem_close that finds no handle left takes it away in its next two
    steps, and one that finds others leaves it there. */
  lemma LastCloseRemoves(sys: Sys, sched: Schedule, p: nat)
    requires Start(sys) && Fits(sched, |sys.procs|) && AlwaysRoomy(sys, sched) && p < |sys.procs|
    requires Run(sys, sched).procs[p].pc.CloseVal?
    ensures var r := Run(sys, sched);
            && Present(r, p) && var a := Step(r, p, Go);
            && WellShaped(a) && |a.procs| == |r.procs| && var b := Step(a, p, Go);
            && |b.procs| == |r.procs| && b.procs[p].pc.Idle?
            && (b.set_.None? <==> Handles(r.procs, r.procs[p].id) == 0)
  {
    hide Handles, Holders, Step, Run;
    RunsKeepInv(sys, sched);
    var r := Run(sys, sched);
    assert IdsOk(r, r.procs[p]);
    LockedCounts(r, p);
    CloseSteps(r, p);
  }

  lemma LockedCounts(r: Sys, p: nat)
    requires Inv(r) && Roomy(r) && p < |r.procs| && r.procs[p].pc.CloseVal? && Present(r, p)
    ensures var s := r.set_.value;
            |s.vals| == 3 && s.vals[2] == 1 && s.vals[1] + Handles(r.procs, s.id) == BIGCOUNT && s.vals[1] <= BIGCOUNT
  {
    hide Handles, Holders;
    Facts(r, p);
  }

  /** The last two steps of sem_close. */
  lemma CloseSteps(r: Sys, p: nat)
    requires WellShaped(r) && p < |r.procs| && r.procs[p].pc.CloseVal? && Present(r, p)
    requires r.set_.value.vals[1] <= BIGCOUNT && r.set_.value.vals[2] == 1
    ensures var a := Step(r, p, Go);
            && WellShaped(a) && |a.procs| == |r.procs| && var b := Step(a, p, Go);
            && |b.procs| == |r.procs| && b.procs[p].pc.Idle? && (b.set_.None? <==> r.set_.value.vals[1] == BIGCOUNT)
  {
    hide Semop;
    SingleOp(r.set_.value, p, OP_UNLOCK[0]);
  }
}
