/** The threads of printd.c working on the linked list itself: in every interleaving it holds the pending jobs. */
module SpoolRuns {
  import opened SpoolList
  import opened SpoolProtocol

  function JobIds(jobs: seq<Job>): (ids: seq<JobId>)
    ensures |ids| == |jobs|
  {
    seq(|jobs|, k requires 0 <= k < |jobs| => jobs[k].jobid)
  }

  /** The jobs of a linked list, and of the printer thread, are those that the protocol speaks of. */
  ghost predicate Follows(spool: Spool, hand: Job?, s: Sys)
    reads spool, spool.pending
  {
    && spool.Valid() && JobIds(spool.pending) == s.list
    && (InHand(s.printer) != [] ==> hand != null && hand !in spool.pending && InHand(s.printer) == [hand.jobid])
  }

  /** A client links in the job it was given. */
  method ClientLinks(spool: Spool, hand: Job?, s: Sys, c: nat)
    requires Follows(spool, hand, s) && c < |s.clients|
    modifies spool, spool.pending
    ensures Follows(spool, hand, ClientStep(s, c))
    ensures forall k :: 0 <= k < |spool.pending| ==> spool.pending[k] in old(spool.pending) || fresh(spool.pending[k])
  {
    match s.clients[c]
    case Links(j) =>
      var jp := spool.AddJob(j);
      assert JobIds(spool.pending) == s.list + [j];
    case _ =>
  }

  /** The first job is taken. */
  method TakeFirst(spool: Spool) returns (job: Job)
    requires spool.Valid() && spool.pending != []
    modifies spool, spool.pending
    ensures spool.Valid() && [job] + spool.pending == old(spool.pending) && job !in spool.pending
  {
    job := spool.jobhead;
    spool.RemoveJob(job, 0);
  }

  lemma IdsFront(job: Job, jobs: seq<Job>)
    ensures JobIds([job] + jobs) == [job.jobid] + JobIds(jobs)
  {
  }

  /** The printer thread takes the first job, or puts the one in hand back. */
  method PrinterGoes(spool: Spool, hand: Job?, s: Sys) returns (hand': Job?)
    requires Follows(spool, hand, s)
    modifies spool, spool.pending, hand
    ensures Follows(spool, hand', PrinterStep(s)) && (hand' == hand || hand' in old(spool.pending))
    ensures forall k :: 0 <= k < |spool.pending| ==> spool.pending[k] in old(spool.pending) || spool.pending[k] == hand
  {
    hide LinkedAt, JobIds;
    hand' := hand;
    match s.printer
    case Takes =>
      if spool.jobhead != null {
        var job := TakeFirst(spool);
        IdsFront(job, spool.pending);
        hand' := job;
      }
    case PutsBack(j) =>
      IdsFront(hand, spool.pending);
      spool.ReplaceJob(hand);
    case _ =>
  }

  /** Any schedule of clients and printer thread, on a real list: the jobs that clients added are those printed when
    they were said to be finished, the one in hand, and those reached from jobhead, in order. */
  method Serve(start: Sys, acts: seq<Act>) returns (spool: Spool, hand: Job?)
    requires Start(start)
    ensures Follows(spool, hand, Run(start, acts))
    ensures Run(start, acts).arrived == Run(start, acts).done + InHand(Run(start, acts).printer) + JobIds(spool.pending)
    ensures Added(start, acts) == Finished(start, acts) + InHand(Run(start, acts).printer) + JobIds(spool.pending)
  {
    spool := new Spool();
    hand := null;
    var s := start;
    for i := 0 to |acts|
      invariant fresh(spool) && (forall k :: 0 <= k < |spool.pending| ==> fresh(spool.pending[k]))
      invariant (hand != null ==> fresh(hand))
      invariant Follows(spool, hand, s) && s == Run(start, acts[..i])
    {
      assert acts[..i + 1][..i] == acts[..i];
      match acts[i] {
        case Client(c) =>
          if c < |s.clients| {
            ClientLinks(spool, hand, s, c);
          }
        case Print => hand := PrinterGoes(spool, hand, s);
        case _ =>
      }
      s := Step(s, acts[i]);
    }
    assert acts[..|acts|] == acts;
    NothingLost(start, acts);
  }
}
