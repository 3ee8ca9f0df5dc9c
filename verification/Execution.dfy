/** The executor of internal/executor/runner.go: claim, run, mark. */
module Execution {
  import opened Types
  import opened Backoff
  import opened System
  import opened Traces
  import opened Store

  /** What a handler call comes to.  A handler that is still running when its process dies is one of
      these too: nothing of it is seen but the time it takes. */
  datatype Outcome = Success | Failure(cause: string)

  /** What execution e does about the outcome of its handler, up to wherever an error stops it: it
      finishes; or it fails and, when its snapshot says so, announces that. */
  predicate Ending(e: nat, snap: Job, outcome: Outcome, announces: bool, own: seq<Label>) {
    && |own| <= EndingLength(snap, outcome, announces)
    && (|own| > 0 ==> if outcome.Success? then own[0].Finish? && own[0].exec == e else own[0] == ReadForFail(e))
    && (|own| > 1 ==> own[1].WriteFail? && own[1].exec == e && own[1].error == outcome.cause)
    && (|own| > 2 ==> own[2] == PublishDlq(e))
  }

  /** How many steps that is when nothing goes wrong. */
  function EndingLength(snap: Job, outcome: Outcome, announces: bool): (n: nat)
    ensures n > 1 ==> outcome.Failure?
  {
    if outcome.Success? then 1 else if SnapshotExhausted(snap) && announces then 3 else 2
  }

  /** All of execution e's steps: it loses the claim; or it wins, starts and ends, up to wherever an
      error stops it. */
  predicate Course(e: nat, snap: Job, outcome: Outcome, announces: bool, own: seq<Label>) {
    || own == [Lose(e)]
    || (&& (|own| > 0 ==> own[0].Win? && own[0].exec == e)
        && (|own| > 1 ==> own[1].Start? && own[1].exec == e)
        && (|own| > 2 ==> Ending(e, snap, outcome, announces, own[2..])))
  }

  lemma WholeCourse(e: nat, snap: Job, outcome: Outcome, announces: bool, win: Label, start: Label, ending: seq<Label>)
    requires win.Win? && win.exec == e && start.Start? && start.exec == e
    requires Ending(e, snap, outcome, announces, ending)
    ensures Course(e, snap, outcome, announces, [win] + [start] + ending)
  {
    assert ([win] + [start] + ending)[2..] == ending;
  }

  class Runner {
    const repo: Backend
    const registry: set<string>   // the job types that have a handler
    const workerId: string
    const announces: bool         // a producer for the DLQ topic is set

    constructor (repo: Backend, registry: set<string>, workerId: string, announces: bool)
      ensures this.repo == repo && this.registry == registry && this.workerId == workerId
      ensures this.announces == announces
    {
      this.repo, this.registry, this.workerId, this.announces := repo, registry, workerId, announces;
    }

    /** The handler's outcome, or the registry's complaint that there is none. */
    function Effective(job: Job, outcome: Outcome): Outcome {
      if job.jobType in registry then outcome else Failure(NoHandler(job.jobType))
    }

    /** fail: records the failure, then announces it if the snapshot was out of attempts. */
    method Fail(e: nat, id: nat, job: Job, cause: string) returns (ghost own: seq<Label>)
      requires repo.Valid() && repo.Mine(e, id, job) && repo.execs[e].phase.Started?
      modifies repo
      ensures repo.Valid() && old(repo.trace) <= repo.trace && |old(repo.jobs)| <= |repo.jobs|
      ensures Own(TheExec(e), repo.trace) == Own(TheExec(e), old(repo.trace)) + own
      ensures Ending(e, job, Failure(cause), announces, own)
      ensures |own| <= 3 && (|own| > 2 ==> announces && job.attempts + 1 >= job.maxAttempts)
      ensures old(repo.faults) == [] ==> repo.faults == [] && |own| == EndingLength(job, Failure(cause), announces)
    {
      hide Own, ExponentialBackoff, Backend.Valid;
      var backoff := ExponentialBackoff(job.attempts);
      var exhausted := SnapshotExhausted(job);
      var err;
      err, own := repo.MarkFailed(e, id, cause, backoff);
      if err.Some? { return; }
      if exhausted && announces {
        ghost var last;
        err, last := repo.PublishDLQ(e, id);
        own := own + last;
      }
    }

    /** The second half of Execute: the handler, if there is one, and its outcome.  A job type without a
        handler fails with the registry's error, and is never finished. */
    method RunHandler(e: nat, id: nat, job: Job, outcome: Outcome) returns (ghost own: seq<Label>)
      requires repo.Valid() && repo.Mine(e, id, job) && repo.execs[e].phase.Started?
      modifies repo
      ensures repo.Valid() && old(repo.trace) <= repo.trace && |old(repo.jobs)| <= |repo.jobs|
      ensures Own(TheExec(e), repo.trace) == Own(TheExec(e), old(repo.trace)) + own
      ensures Ending(e, job, Effective(job, outcome), announces, own)
      ensures Decided(e, job, outcome, own)
      ensures old(repo.faults) == [] ==>
        repo.faults == [] && |own| == EndingLength(job, Effective(job, outcome), announces)
    {
      hide Own, SnapshotExhausted, Backend.Valid;
      if job.jobType !in registry {
        own := Fail(e, id, job, NoHandler(job.jobType));
        return;
      }
      repo.Interleave(TheExec(e));   // the handler runs
      if outcome.Failure? {
        own := Fail(e, id, job, outcome.cause);
        return;
      }
      var err;
      err, own := repo.MarkCompleted(e, id);
    }

    /** How the registry, the handler and the snapshot decide the end of execution e. */
    ghost predicate Decided(e: nat, job: Job, outcome: Outcome, own: seq<Label>) {
      // no handler: a failure with the registry's error
      && (job.jobType !in registry ==>
            && (|own| > 0 ==> own[0] == ReadForFail(e))
            && (|own| > 1 ==>
                  && own[1].WriteFail? && own[1].exec == e
                  && own[1].error == "no handler registered for jobType \"" + job.jobType + "\""))
      // a handler that fails: a failure with its error
      && (job.jobType in registry && outcome.Failure? ==>
            && (|own| > 0 ==> own[0] == ReadForFail(e))
            && (|own| > 1 ==> own[1].WriteFail? && own[1].exec == e && own[1].error == outcome.cause))
      // one that succeeds: the job is finished and nothing else
      && (job.jobType in registry && outcome.Success? ==>
            |own| <= 1 && (|own| > 0 ==> own[0].Finish? && own[0].exec == e))
      // a message for the DLQ topic: on the last attempt of the snapshot only
      && |own| <= 3
      && (|own| > 2 ==> own[2] == PublishDlq(e) && announces && job.attempts + 1 >= job.maxAttempts)
    }

    /** Execute: the steps it takes are a course of the execution, whatever the rest of the system
        does in between; and the whole course when no call fails.  It claims in its worker's name. */
    method Execute(e: nat, id: nat, job: Job, outcome: Outcome) returns (ghost own: seq<Label>)
      requires repo.Valid() && repo.Mine(e, id, job) && repo.execs[e].phase.Fetched?
      modifies repo
      ensures repo.Valid() && old(repo.trace) <= repo.trace && |old(repo.jobs)| <= |repo.jobs|
      ensures Own(TheExec(e), repo.trace) == Own(TheExec(e), old(repo.trace)) + own
      ensures Course(e, job, Effective(job, outcome), announces, own)
      ensures own == [Lose(e)] || (|own| > 0 ==> own[0] == Win(e, workerId, old(repo.clock)))
      ensures |own| > 1 ==> own[1].Start? && own[1].exec == e
      ensures |own| > 2 ==> Decided(e, job, outcome, own[2..])
      ensures old(repo.faults) == [] ==>
        && repo.faults == []
        && (own == [Lose(e)] || |own| == 2 + EndingLength(job, Effective(job, outcome), announces))
        && (own == [Lose(e)] || |own| == 2 + (
              if job.jobType in registry && outcome.Success? then 1
              else if job.attempts + 1 >= job.maxAttempts && announces then 3 else 2))
    {
      hide Own, Ending, EndingLength, Effective, Backend.Valid, Decided;
      WholeLength(job, outcome);
      var err;
      err, own := repo.MarkClaimed(e, id, workerId);
      if err.Some? { return; }
      ghost var next;
      err, next := repo.MarkRunning(e, id);
      ghost var win := own[0];
      own := own + next;
      if err.Some? { return; }
      ghost var start := next[0];
      next := RunHandler(e, id, job, outcome);
      WholeCourse(e, job, Effective(job, outcome), announces, win, start, next);
      assert (own + next)[2..] == next;
      own := own + next;
    }

    /** How many steps an ending takes when nothing goes wrong, in terms of what decides it. */
    lemma WholeLength(job: Job, outcome: Outcome)
      ensures EndingLength(job, Effective(job, outcome), announces) ==
              if job.jobType in registry && outcome.Success? then 1
              else if job.attempts + 1 >= job.maxAttempts && announces then 3 else 2
    {
    }
  }

  function NoHandler(jobType: string): string { "no handler registered for jobType \"" + jobType + "\"" }
}
