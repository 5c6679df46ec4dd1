/** The list of pending jobs of apue/apue.2e/ipp/printd.c: a doubly linked list with a head and a tail. */
module SpoolList {
  import opened Seqs

  class Job {
    const jobid: int
    var next: Job?
    var prev: Job?

    constructor (jobid: int)
      ensures this.jobid == jobid && next == null && prev == null
    {
      this.jobid := jobid;
      next, prev := null, null;
    }
  }

  /** The job at place k, or null beyond either end. */
  ghost function At(jobs: seq<Job>, k: int): (j: Job?) {
    if 0 <= k < |jobs| then jobs[k] else null
  }

  /** The links of the job at place k lead to its neighbours. */
  ghost predicate LinkedAt(jobs: seq<Job>, k: nat)
    requires k < |jobs|
    reads jobs[k]
  {
    jobs[k].next == At(jobs, k + 1) && jobs[k].prev == At(jobs, k - 1)
  }

  class Spool {
    var jobhead: Job?
    var jobtail: Job?
    ghost var pending: seq<Job>

    /** Following next from jobhead, and prev from jobtail, visits the pending jobs in order. */
    ghost predicate Valid()
      reads this, pending
    {
      && Distinct(pending) && jobhead == At(pending, 0) && jobtail == At(pending, |pending| - 1)
      && forall k :: 0 <= k < |pending| ==> LinkedAt(pending, k)
    }

    constructor ()
      ensures Valid() && pending == []
    {
      jobhead, jobtail, pending := null, null, [];
    }

    /** A new job goes to the end. */
    method AddJob(jobid: int) returns (jp: Job)
      requires Valid()
      modifies this, pending
      ensures Valid() && fresh(jp) && jp.jobid == jobid && pending == old(pending) + [jp]
    {
      jp := new Job(jobid);
      jp.prev := jobtail;
      if jobtail == null {
        jobhead := jp;
      } else {
        jobtail.next := jp;
      }
      jobtail := jp;
      pending := pending + [jp];
      forall k | 0 <= k < |pending|
        ensures LinkedAt(pending, k)
      {
        assert k < |pending| - 1 ==> old(LinkedAt(pending, k));
      }
    }

    /** A deferred job goes back to the front. */
    method ReplaceJob(jp: Job)
      requires Valid() && jp !in pending
      modifies this, pending, jp
      ensures Valid() && pending == [jp] + old(pending)
    {
      jp.prev := null;
      jp.next := jobhead;
      if jobhead == null {
        jobtail := jp;
      } else {
        jobhead.prev := jp;
      }
      jobhead := jp;
      pending := [jp] + pending;
      forall k | 0 <= k < |pending|
        ensures LinkedAt(pending, k)
      {
        assert k > 0 ==> old(LinkedAt(pending, k - 1));
      }
    }

    /** The job at place k is taken out. */
    method RemoveJob(target: Job, ghost k: nat)
      requires Valid() && k < |pending| && target == pending[k]
      modifies this, pending
      ensures Valid() && pending == old(pending[..k] + pending[k + 1..]) && target !in pending
    {
      assert LinkedAt(pending, k);
      ghost var before := pending;
      if target.next != null {
        target.next.prev := target.prev;
      } else {
        jobtail := target.prev;
      }
      if target.prev != null {
        target.prev.next := target.next;
      } else {
        jobhead := target.next;
      }
      pending := pending[..k] + pending[k + 1..];
      forall j | 0 <= j < |pending|
        ensures LinkedAt(pending, j)
      {
        assert pending[j] == before[if j < k then j else j + 1];
        assert old(LinkedAt(pending, if j < k then j else j + 1));
      }
    }
  }
}
