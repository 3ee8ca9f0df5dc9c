/** No job is ever stranded: from every reachable state, timely or not, an explicit schedule of the
    code's own steps takes a given one-off job to completed or dlq, however its handler behaves. */
module Driving {
  import opened Types
  import opened Backoff
  import opened Documents
  import opened System
  import opened Safety
  import opened Timing
  import opened Traces
  import opened Guarantees

  /** Steps that are all taken and in time lead from s0 to s. */
  ghost predicate Led(c: Config, s0: Sys, ls: seq<Label>, s: Sys) {
    Throughout(c, s0, ls, Taken) && Run(c, s0, ls) == s
  }

  lemma NoSteps(c: Config, s: Sys)
    ensures Led(c, s, [], s)
  {
  }

  lemma Go(c: Config, s0: Sys, ls: seq<Label>, s: Sys, l: Label) returns (more: seq<Label>, t: Sys)
    requires Led(c, s0, ls, s) && Taken(c, s, l)
    ensures Led(c, s0, more, t) && more == ls + [l] && t == Step(c, s, l)
  {
    more, t := Then(c, s0, ls, s, l, Taken);
  }

  // ----- one round of one job -----

  /** The document as MarkRunning leaves it. */
  function AsRunning(d: Job, worker: string, clock: Time): Job {
    d.(status := Running, claimedBy := worker, claimedAt := Some(clock), updatedAt := clock)
  }

  lemma DeliverNow(c: Config, s0: Sys, ls: seq<Label>, s: Sys, id: nat) returns (more: seq<Label>, t: Sys)
    requires Led(c, s0, ls, s) && id in s.topic && id < |s.jobs|
    ensures Led(c, s0, more, t)
    ensures t == s.(execs := s.execs + [Exec(id, s.jobs[id].doc, Fetched, s.clock, s.clock, s.clock)])
  {
    hide Led;
    more, t := Go(c, s0, ls, s, Deliver(id));
  }

  lemma WinNow(c: Config, s0: Sys, ls: seq<Label>, s: Sys, e: nat, worker: string)
    returns (more: seq<Label>, t: Sys)
    requires Led(c, s0, ls, s) && e < |s.execs| && s.execs[e].phase.Fetched? && s.execs[e].at <= s.clock
    requires s.execs[e].job < |s.jobs| && s.jobs[s.execs[e].job].doc.status.Queued?
    ensures Led(c, s0, more, t)
    ensures t == WithWrite(WithExec(s, e, s.execs[e].(phase := Won, at := s.clock, lease := s.clock)),
                           s.execs[e].job, SetClaimed(e, worker, s.clock))
  {
    hide Led;
    more, t := Go(c, s0, ls, s, Win(e, worker, s.clock));
  }

  lemma StartNow(c: Config, s0: Sys, ls: seq<Label>, s: Sys, e: nat) returns (more: seq<Label>, t: Sys)
    requires Led(c, s0, ls, s) && e < |s.execs| && s.execs[e].phase.Won? && s.execs[e].at <= s.clock
    requires s.execs[e].job < |s.jobs| && s.clock < s.execs[e].lease + c.claimTimeout
    ensures Led(c, s0, more, t)
    ensures t == WithWrite(WithExec(s, e, s.execs[e].(phase := Started, at := s.clock, lease := s.clock)),
                           s.execs[e].job, SetRunning(s.clock))
  {
    hide Led;
    more, t := Go(c, s0, ls, s, Start(e, s.clock));
  }

  /** A queued job whose message is on the topic is delivered, won and started. */
  lemma StartDelivered(c: Config, s0: Sys, ls: seq<Label>, s: Sys, id: nat, worker: string)
    returns (more: seq<Label>, t: Sys, e: nat)
    requires Led(c, s0, ls, s) && c.claimTimeout > 0
    requires id in s.topic && id < |s.jobs| && s.jobs[id].doc.status.Queued?
    ensures Led(c, s0, more, t)
    ensures t.clock == s.clock && t.topic == s.topic && t.claims == s.claims && t.dlq == s.dlq
    ensures |t.jobs| == |s.jobs| && t.jobs[id].doc == AsRunning(s.jobs[id].doc, worker, s.clock)
    ensures forall i :: 0 <= i < |s.jobs| && i != id ==> t.jobs[i] == s.jobs[i]
    ensures e == |s.execs| && t.execs == s.execs + [Exec(id, s.jobs[id].doc, Started, s.clock, s.clock, s.clock)]
  {
    hide Led, Step;
    e := |s.execs|;
    more, t := DeliverNow(c, s0, ls, s, id);
    more, t := WinNow(c, s0, more, t, e, worker);
    more, t := StartNow(c, s0, more, t, e);
  }

  /** A job at the head of the claim order is claimed and published. */
  lemma ClaimAndPublish(c: Config, s0: Sys, ls: seq<Label>, s: Sys, id: nat)
    returns (more: seq<Label>, t: Sys)
    requires Led(c, s0, ls, s) && IsTop(s.jobs, id, s.clock) && !s.jobs[id].doc.Template()
    ensures Led(c, s0, more, t)
    ensures t.clock == s.clock && t.execs == s.execs && t.topic == s.topic + {id} && t.dlq == s.dlq
    ensures |t.jobs| == |s.jobs|
    ensures t.jobs[id].doc == s.jobs[id].doc.(status := Queued, updatedAt := s.clock)
    ensures forall i :: 0 <= i < |s.jobs| && i != id ==> t.jobs[i] == s.jobs[i]
  {
    hide Led;
    more, t := Go(c, s0, ls, s, ClaimOne(id, s.clock, s.clock));
    more, t := Go(c, s0, more, t, Publish(|s.claims|));
  }

  /** A started handler succeeds. */
  lemma Succeed(c: Config, s0: Sys, ls: seq<Label>, s: Sys, e: nat) returns (more: seq<Label>, t: Sys)
    requires Led(c, s0, ls, s) && c.claimTimeout > 0
    requires e < |s.execs| && s.execs[e].phase.Started? && s.execs[e].job < |s.jobs|
    requires s.execs[e].at == s.execs[e].lease == s.clock
    ensures Led(c, s0, more, t)
    ensures t == WithWrite(WithExec(s, e, s.execs[e].(phase := Gone, at := s.clock)),
                           s.execs[e].job, SetCompleted(s.clock))
  {
    hide Led;
    more, t := Go(c, s0, ls, s, Finish(e, s.clock));
  }

  lemma ReadNow(c: Config, s0: Sys, ls: seq<Label>, s: Sys, e: nat) returns (more: seq<Label>, t: Sys)
    requires Led(c, s0, ls, s)
    requires e < |s.execs| && s.execs[e].phase.Started? && s.execs[e].job < |s.jobs|
    ensures Led(c, s0, more, t)
    ensures t == WithExec(s, e, s.execs[e].(phase := Failing(s.jobs[s.execs[e].job].doc), at := s.clock))
  {
    hide Led;
    more, t := Go(c, s0, ls, s, ReadForFail(e));
  }

  /** A started handler fails. */
  lemma Fail(c: Config, s0: Sys, ls: seq<Label>, s: Sys, e: nat, error: string)
    returns (more: seq<Label>, t: Sys)
    requires Led(c, s0, ls, s) && c.claimTimeout > 0
    requires e < |s.execs| && s.execs[e].phase.Started? && s.execs[e].job < |s.jobs|
    requires s.execs[e].at == s.execs[e].lease == s.clock
    ensures Led(c, s0, more, t)
    ensures var x, d := s.execs[e], s.jobs[s.execs[e].job].doc;
      && t.clock == s.clock && t.topic == s.topic && |t.jobs| == |s.jobs| && t.dlq == s.dlq
      && t.jobs[x.job].doc == Put(d, SetFailed(d, error, ExponentialBackoff(x.snap.attempts), s.clock))
      && (forall i :: 0 <= i < |s.jobs| && i != x.job ==> t.jobs[i] == s.jobs[i])
      && t.execs == s.execs[e := x.(phase := if SnapshotExhausted(x.snap) then Exhausted else Gone, at := s.clock)]
  {
    hide Led;
    more, t := ReadNow(c, s0, ls, s, e);
    more, t := Go(c, s0, more, t, WriteFail(e, error, s.clock));
  }

  // ----- reaching the head of the claim order -----

  /** Among the first n documents, if one is due, some due one has none ordered before it. */
  lemma {:induction false} Head(jobs: seq<Entry>, n: nat, cutoff: Time, due: nat) returns (best: nat)
    requires due < n <= |jobs| && Due(jobs[due].doc, cutoff)
    ensures best < n && Due(jobs[best].doc, cutoff)
    ensures forall j :: 0 <= j < n && Due(jobs[j].doc, cutoff) ==> !Before(jobs[j].doc, jobs[best].doc)
  {
    if i :| 0 <= i < n - 1 && Due(jobs[i].doc, cutoff) {
      best := Head(jobs, n - 1, cutoff, i);
      if Due(jobs[n - 1].doc, cutoff) && Before(jobs[n - 1].doc, jobs[best].doc) {
        best := n - 1;
      }
    } else {
      best := due;
    }
  }

  /** Claiming whatever is ahead of it brings a due job to the head. */
  lemma {:induction false} BecomeHead(c: Config, s0: Sys, ls: seq<Label>, s: Sys, id: nat)
    returns (more: seq<Label>, t: Sys)
    requires Led(c, s0, ls, s) && id < |s.jobs| && Due(s.jobs[id].doc, s.clock)
    ensures Led(c, s0, more, t)
    ensures t.clock == s.clock && |t.jobs| == |s.jobs| && t.jobs[id] == s.jobs[id]
    ensures IsTop(t.jobs, id, t.clock)
    ensures s.claims <= t.claims && forall i :: 0 <= i < |s.jobs| ==> t.jobs[i].doc.key == s.jobs[i].doc.key
    decreases |DueIn(s.jobs, s.clock)|
  {
    hide Led;
    if IsTop(s.jobs, id, s.clock) {
      more, t := ls, s;
    } else {
      var j := Head(s.jobs, |s.jobs|, s.clock, id);
      more, t := Go(c, s0, ls, s, ClaimOne(j, s.clock, s.clock));
      assert DueIn(t.jobs, t.clock) == DueIn(s.jobs, s.clock) - {j};
      assert j in DueIn(s.jobs, s.clock);
      more, t := BecomeHead(c, s0, more, t, id);
    }
  }

  // ----- back to pending -----

  lemma WaitUntil(c: Config, s0: Sys, ls: seq<Label>, s: Sys, when: Time)
    returns (more: seq<Label>, t: Sys)
    requires Led(c, s0, ls, s)
    ensures Led(c, s0, more, t) && t == s.(clock := if when > s.clock then when else s.clock)
  {
    hide Led;
    more, t := Go(c, s0, ls, s, Tick(if when > s.clock then when - s.clock else 0));
  }

  lemma SweepNow(c: Config, s0: Sys, ls: seq<Label>, s: Sys, id: nat) returns (more: seq<Label>, t: Sys)
    requires Led(c, s0, ls, s) && id < |s.jobs|
    requires StuckQueued(c, s.jobs[id].doc, s.clock) || StuckExecuting(c, s.jobs[id].doc, s.clock)
    ensures Led(c, s0, more, t) && |t.jobs| == |s.jobs| && t.clock == s.clock && t.execs == s.execs
    ensures t.jobs[id].doc == s.jobs[id].doc.(status := Pending, updatedAt := s.clock)
  {
    hide Led;
    if s.jobs[id].doc.status.Queued? {
      more, t := Go(c, s0, ls, s, SweepQueued(id, s.clock, s.clock));
    } else {
      more, t := Go(c, s0, ls, s, SweepExecution(id, s.clock, s.clock));
    }
  }

  /** Waiting for a reaper sweep returns any job that is neither pending nor finished to pending. */
  lemma BackToPending(c: Config, s0: Sys, ls: seq<Label>, s: Sys, id: nat)
    returns (more: seq<Label>, t: Sys)
    requires Led(c, s0, ls, s) && id < |s.jobs|
    requires s.jobs[id].doc.status.Queued? || s.jobs[id].doc.status.Executing()
    ensures Led(c, s0, more, t) && |t.jobs| == |s.jobs|
    ensures t.jobs[id].doc == s.jobs[id].doc.(status := Pending, updatedAt := t.clock)
  {
    hide Led, Step;
    var d := s.jobs[id].doc;
    more, t := WaitUntil(c, s0, ls, s, d.updatedAt + if d.status.Queued? then c.queuedTimeout else c.claimTimeout);
    more, t := SweepNow(c, s0, more, t, id);
  }

  /** A pending job, once due, is claimed, delivered and started. */
  lemma StartPending(c: Config, s0: Sys, ls: seq<Label>, s: Sys, id: nat)
    returns (more: seq<Label>, t: Sys, e: nat)
    requires Led(c, s0, ls, s) && c.claimTimeout > 0
    requires id < |s.jobs| && s.jobs[id].doc.status.Pending? && !s.jobs[id].doc.Template()
    ensures Led(c, s0, more, t) && id < |t.jobs| && e < |t.execs|
    ensures t.execs[e].job == id && t.execs[e].phase.Started? && t.execs[e].at == t.execs[e].lease == t.clock
    ensures t.jobs[id].doc.status.Running? && !t.jobs[id].doc.Template()
    ensures t.jobs[id].doc.attempts == s.jobs[id].doc.attempts
    ensures t.jobs[id].doc.maxAttempts == s.jobs[id].doc.maxAttempts
  {
    hide Led, Step;
    more, t := WaitUntil(c, s0, ls, s, s.jobs[id].doc.scheduledAt);
    more, t := BecomeHead(c, s0, more, t, id);
    more, t := ClaimAndPublish(c, s0, more, t, id);
    more, t, e := StartDelivered(c, s0, more, t, id, "worker");
  }

  /** One round from pending: the attempt succeeds, or fails and is counted. */
  lemma OneRound(c: Config, s0: Sys, ls: seq<Label>, s: Sys, id: nat, success: bool)
    returns (more: seq<Label>, t: Sys)
    requires Led(c, s0, ls, s) && c.claimTimeout > 0
    requires id < |s.jobs| && s.jobs[id].doc.status.Pending? && !s.jobs[id].doc.Template()
    ensures Led(c, s0, more, t) && id < |t.jobs| && !t.jobs[id].doc.Template()
    ensures t.jobs[id].doc.maxAttempts == s.jobs[id].doc.maxAttempts
    ensures var d, d' := s.jobs[id].doc, t.jobs[id].doc;
      if success then d'.status.Completed? && d'.attempts == d.attempts
      else d'.attempts == d.attempts + 1
           && d'.status == (if d.attempts + 1 >= d.maxAttempts then Dlq else Pending)
  {
    hide Led, Step;
    var e;
    more, t, e := StartPending(c, s0, ls, s, id);
    if success {
      more, t := Succeed(c, s0, more, t, e);
    } else {
      more, t := Fail(c, s0, more, t, e, "handler error");
    }
  }

  /** How the job ended: at the first attempt the handler does not fail, or out of attempts. */
  ghost predicate Ended(before: Job, after: Job, succeeds: int -> bool) {
    && before.attempts <= after.attempts
    && (forall a :: before.attempts <= a < after.attempts ==> !succeeds(a))
    && (if after.status.Completed? then succeeds(after.attempts)
        else after.status.Dlq? && after.attempts >= after.maxAttempts)
  }

  lemma {:induction false} DrivePending(
    c: Config, s0: Sys, ls: seq<Label>, s: Sys, id: nat, succeeds: int -> bool)
    returns (more: seq<Label>, t: Sys)
    requires Led(c, s0, ls, s) && c.claimTimeout > 0
    requires id < |s.jobs| && s.jobs[id].doc.status.Pending? && !s.jobs[id].doc.Template()
    ensures Led(c, s0, more, t) && id < |t.jobs| && Ended(s.jobs[id].doc, t.jobs[id].doc, succeeds)
    decreases s.jobs[id].doc.maxAttempts - s.jobs[id].doc.attempts
  {
    hide Led, Step;
    var d := s.jobs[id].doc;
    more, t := OneRound(c, s0, ls, s, id, succeeds(d.attempts));
    if t.jobs[id].doc.status.Pending? {
      more, t := DrivePending(c, s0, more, t, id, succeeds);
    }
  }

  /** From every reachable state, timely or not, every one-off job that is not finished can be
      driven to its end by steps of the code that all meet [T]: waiting, one sweep, claims,
      publish, deliver, run.  `succeeds` is the handler's behaviour, attempt by attempt, and the
      schedule works against every one: so no crash, lost batch or lost message strands a job. */
  lemma NoJobIsStranded(c: Config, s: Sys, id: nat, succeeds: int -> bool)
    returns (schedule: seq<Label>, t: Sys)
    requires Reachable(c, s) && c.claimTimeout > 0
    requires id < |s.jobs| && !s.jobs[id].doc.Template() && !s.jobs[id].doc.status.Terminal()
    ensures Throughout(c, s, schedule, Taken) && t == Run(c, s, schedule)
    ensures id < |t.jobs| && Ended(s.jobs[id].doc, t.jobs[id].doc, succeeds)
  {
    ReachableInv(c, s);
    assert EntryOk(c, s.clock, s.jobs[id]);
    schedule, t := [], s;
    if !s.jobs[id].doc.status.Pending? {
      schedule, t := BackToPending(c, s, schedule, t, id);
    }
    schedule, t := DrivePending(c, s, schedule, t, id, succeeds);
  }

  /** If the run so far was timely for the job, the end it is driven to is final: no timely continuation
      writes it again. */
  lemma DrivenForGood(c: Config, s: Sys, id: nat, succeeds: int -> bool)
    returns (schedule: seq<Label>, t: Sys)
    requires ReachableBy(c, s, TimelyFor(id)) && Reachable(c, s) && c.claimTimeout > 0
    requires id < |s.jobs| && !s.jobs[id].doc.Template() && !s.jobs[id].doc.status.Terminal()
    ensures Throughout(c, s, schedule, Taken) && t == Run(c, s, schedule)
    ensures id < |t.jobs| && Ended(s.jobs[id].doc, t.jobs[id].doc, succeeds)
    ensures forall ls: seq<Label> :: Throughout(c, t, ls, TimelyFor(id)) ==>
      id < |Run(c, t, ls).jobs| && Run(c, t, ls).jobs[id] == t.jobs[id]
  {
    hide Run, Throughout, ReachableBy, Reachable;
    schedule, t := NoJobIsStranded(c, s, id, succeeds);
    TakenStaysTimely(c, s, schedule, id);
    StaysOneOff(c, s, schedule, id);
    forall ls: seq<Label> | Throughout(c, t, ls, TimelyFor(id))
      ensures id < |Run(c, t, ls).jobs| && Run(c, t, ls).jobs[id] == t.jobs[id]
    {
      TerminalIsFinal(c, t, ls, id);
    }
  }

  lemma StaysOneOff(c: Config, s: Sys, ls: seq<Label>, id: nat)
    requires id < |s.jobs| && !s.jobs[id].doc.Template()
    ensures id < |Run(c, s, ls).jobs| && !Run(c, s, ls).jobs[id].doc.Template()
  {
    RunRemembers(c, s, [], ls);
    assert SameJob(s.jobs[id].doc, Run(c, s, ls).jobs[id].doc);
  }
}
