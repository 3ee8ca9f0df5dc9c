/** The database and the broker, as the calls of internal/store/jobs_repo.go and
    internal/dispatch/producer.go change them.  A call is one step of the system, or several where
    the code makes several store calls; before each of them the rest of the system takes any number
    of steps of its own, and the call itself may fail. */
module Store {
  import opened Types
  import opened Backoff
  import opened Documents
  import opened System
  import opened Safety
  import opened Timing
  import opened Recovery
  import opened Claiming
  import opened Traces

  datatype Error = NotFound | DuplicateKey | Unavailable

  /** What becomes of one call: it works; it fails and changes nothing; or it takes effect and the
      caller gets an error all the same. */
  datatype Fault = Fine | Refused | ReplyLost

  /** How many of the coming calls go wrong. */
  function Bad(faults: seq<Fault>): nat {
    if faults == [] then 0 else One(!faults[0].Fine?) + Bad(faults[1..])
  }

  /** What GetByID returns: the document, and the delivery it was fetched for if any; or an error. */
  datatype Snapshot = Snapshot(exec: Option<nat>, job: Job) | NoJob(error: Error)

  class Backend {
    const c: Config
    var clock: Time
    var jobs: seq<Entry>              // the collection
    var claims: seq<Claim>            // every claim made by a scheduler loop
    var topic: set<nat>               // the dispatch topics
    var dlq: seq<nat>                 // the DLQ topic
    var execs: seq<Exec>              // every delivery of a message
    var others: seq<seq<Label>>       // what everyone else does before each coming call
    var faults: seq<Fault>            // what becomes of each coming call
    ghost const origin: Sys
    ghost var trace: seq<Label>       // every step taken since then

    constructor (c: Config, clock: Time, others: seq<seq<Label>>, faults: seq<Fault>)
      ensures Valid() && trace == [] && State() == origin == Empty(clock)
      ensures this.c == c && this.others == others && this.faults == faults
    {
      this.c := c;
      this.clock, jobs, claims, topic, dlq, execs := clock, [], [], {}, [], [];
      this.others, this.faults := others, faults;
      origin, trace := Empty(clock), [];
    }

    function State(): Sys
      reads this`clock, this`jobs, this`claims, this`topic, this`dlq, this`execs
    {
      Sys(clock, jobs, claims, topic, dlq, execs)
    }

    /** The trace is a run from an empty store that leads here, every step of it really taken. */
    ghost predicate Valid()
      reads this`clock, this`jobs, this`claims, this`topic, this`dlq, this`execs, this`trace
    {
      && origin == Empty(origin.clock)
      && Throughout(c, origin, trace, Enabled)
      && Run(c, origin, trace) == State()
      && Known(trace, |claims|, |execs|)
    }

    /** Execution e is this process's, on job `id`, with the snapshot it fetched. */
    ghost predicate Mine(e: nat, id: nat, snap: Job)
      reads this
    {
      e < |execs| && execs[e].job == id < |jobs| && execs[e].snap == snap && execs[e].at <= clock
    }

    /** Whatever methods have been called, the state is one the theorems about runs speak of. */
    lemma IsReachable()
      requires Valid()
      ensures Reachable(c, State())
      ensures forall id: nat :: Throughout(c, origin, trace, TimelyFor(id)) ==> ReachableBy(c, State(), TimelyFor(id))
    {
      hide Run, Throughout;
    }

    /** A message names a document that is there, and no template. */
    lemma MessagesNameJobs(id: nat)
      requires Valid() && id in topic
      ensures OneOff(jobs, id)
    {
      hide Valid, Reachable;
      IsReachable();
      ReachableInv(c, State());
    }

    /** What any number of calls leaves in place. */
    twostate lemma Remembered()
      requires old(Valid()) && Valid() && old(trace) <= trace
      ensures Remembers(old(State()), State())
    {
      hide Step, Run, Throughout, Remembers;
      RunRemembers(c, origin, old(trace), trace);
    }

    // ----- the rest of the system -----

    ghost method Log(before: Sys, l: Label)
      requires origin == Empty(origin.clock)
      requires Throughout(c, origin, trace, Enabled) && Run(c, origin, trace) == before
      requires Known(trace, |before.claims|, |before.execs|)
      requires Enabled(c, before, l) && State() == Step(c, before, l)
      modifies this`trace
      ensures Valid() && trace == old(trace) + [l]
    {
      hide Step, Run, Throughout;
      Snoc(c, origin, trace, l, Enabled);
      Lengths(c, before, l);
      KnownSnoc(c, before, trace, l);
      trace := trace + [l];
    }

    method Perform(l: Label)
      requires Valid() && Enabled(c, State(), l)
      modifies this`clock, this`jobs, this`claims, this`topic, this`dlq, this`execs, this`trace
      ensures Valid() && State() == Step(c, old(State()), l) && trace == old(trace) + [l]
    {
      ghost var before := State();
      var s := Apply(c, State(), l);
      clock, jobs, claims, topic, dlq, execs := s.clock, s.jobs, s.claims, s.topic, s.dlq, s.execs;
      Log(before, l);
    }

    /** Everyone but `me` takes the steps scheduled for this moment, where they are enabled. */
    method Interleave(me: Actor)
      requires Valid()
      modifies this`clock, this`jobs, this`claims, this`topic, this`dlq, this`execs, this`trace, this`others
      ensures Valid() && old(trace) <= trace
      ensures Own(me, trace) == Own(me, old(trace)) && Kept(me, old(State()), State())
      ensures old(others) == [] ==> State() == old(State()) && trace == old(trace) && others == []
      ensures old(others) != [] ==>
        others == old(others)[1..] && State() == Others(c, old(State()), me, old(others)[0])
    {
      hide Step, Enabled, Run, Throughout, Own, Known;
      if others == [] { return; }
      var batch := others[0];
      others := others[1..];
      var i := 0;
      while i < |batch|
        invariant 0 <= i <= |batch| && others == old(others)[1..]
        invariant State() == Others(c, old(State()), me, batch[..i])
        invariant Valid() && old(trace) <= trace
        invariant Own(me, trace) == Own(me, old(trace)) && Kept(me, old(State()), State())
      {
        OthersNext(c, old(State()), me, batch, i);
        if !me.Owns(batch[i]) && Enabled(c, State(), batch[i]) {
          OwnSnoc(me, trace, batch[i]);
          OthersKeep(c, State(), batch[i], me);
          KeptTransitive(me, old(State()), State(), Step(c, State(), batch[i]));
          Perform(batch[i]);
        }
        i := i + 1;
      }
      assert batch[..|batch|] == batch;
    }

    method NextFault() returns (f: Fault)
      modifies this`faults
      ensures old(faults) == [] ==> f == Fine && faults == []
      ensures old(faults) != [] ==> f == old(faults)[0] && faults == old(faults)[1..]
      ensures Bad(old(faults)) == Bad(faults) + One(!f.Fine?)
    {
      f := Fine;
      if faults != [] {
        f := faults[0];
        faults := faults[1..];
      }
    }

    /** The $set of one document: `d` is what it leaves there. */
    method Set(id: nat, d: Job, w: Write)
      requires id < |jobs| && d == Put(jobs[id].doc, w)
      modifies this`jobs
      ensures jobs == old(jobs)[id := Record(old(jobs)[id], w, clock)]
    {
      jobs := jobs[id := Entry(d, Note(jobs[id].log, w, clock))];
    }

    // ----- executions -----

    /** UpdateOne({_id: id, status: queued}, $set claimed), one atomic store call. */
    method ClaimIfQueued(e: nat, id: nat, worker: string, now: Time) returns (matched: bool)
      requires Valid() && e < |execs| && execs[e].phase.Fetched? && execs[e].job == id < |jobs|
      requires execs[e].at <= now <= clock
      modifies this`jobs, this`execs, this`trace
      ensures Valid()
      ensures matched == old(jobs)[id].doc.status.Queued?
      ensures trace == old(trace) + [if matched then Win(e, worker, now) else Lose(e)]
      ensures execs == old(execs)[e := if matched then old(execs)[e].(phase := Won, at := clock, lease := now)
                                       else old(execs)[e].(phase := Gone, at := clock)]
      ensures |jobs| == |old(jobs)|
      ensures matched ==>
        var was := old(jobs)[id].doc;
        jobs[id].doc == was.(status := Claimed, claimedBy := worker, claimedAt := Some(now), updatedAt := now)
      ensures forall i :: 0 <= i < |jobs| && (i != id || !matched) ==> jobs[i] == old(jobs)[i]
    {
      hide Step, Put;
      ghost var before := State();
      matched := jobs[id].doc.status.Queued?;
      if matched {
        WinEffect(c, before, e, worker, now);
        Set(id, jobs[id].doc.(status := Claimed, claimedBy := worker, claimedAt := Some(now), updatedAt := now),
            SetClaimed(e, worker, now));
        execs := execs[e := execs[e].(phase := Won, at := clock, lease := now)];
        Log(before, Win(e, worker, now));
      } else {
        LoseEffect(c, before, e);
        execs := execs[e := execs[e].(phase := Gone, at := clock)];
        Log(before, Lose(e));
      }
    }

    /** MarkClaimed, called by execution e: wins the job if it is still queued. */
    method MarkClaimed(e: nat, id: nat, worker: string) returns (err: Option<Error>, ghost own: seq<Label>)
      requires Valid() && e < |execs| && execs[e].phase.Fetched? && execs[e].job == id < |jobs|
      requires execs[e].at <= clock
      modifies this
      ensures Valid() && old(trace) <= trace && |old(jobs)| <= |jobs|
      ensures Own(TheExec(e), trace) == Own(TheExec(e), old(trace)) + own
      ensures err.None? ==>
        && own == [Win(e, worker, old(clock))]
        && Mine(e, id, old(execs[e]).snap) && execs[e].phase.Won?
        && jobs[id].doc.status.Claimed? && jobs[id].doc.claimedBy == worker
      ensures err == Some(NotFound) ==> own == [Lose(e)] && !jobs[id].doc.status.Queued?
      ensures err.Some? ==> own == [] || own == [Lose(e)] || own == [Win(e, worker, old(clock))]
      ensures err.None? || err == Some(NotFound) || err == Some(Unavailable)
      ensures old(faults) == [] ==> faults == [] && err != Some(Unavailable)
      ensures Bad(old(faults)) == Bad(faults) + One(err == Some(Unavailable))
    {
      hide Step, Put, Enabled, Throughout, Run, Bad;
      var now := clock;
      Interleave(TheExec(e));
      var fault := NextFault();
      own := [];
      if fault.Refused? { return Some(Unavailable), own; }
      ghost var before := trace;
      var matched := ClaimIfQueued(e, id, worker, now);
      own := [if matched then Win(e, worker, now) else Lose(e)];
      OwnSnoc(TheExec(e), before, own[0]);
      err := if fault.ReplyLost? then Some(Unavailable) else if matched then None else Some(NotFound);
    }

    /** UpdateOne({_id: id}, $set running): no filter on the status. */
    method SetRunningById(e: nat, id: nat, stamp: Time)
      requires Valid() && e < |execs| && execs[e].phase.Won? && execs[e].job == id < |jobs|
      requires execs[e].at <= stamp <= clock
      modifies this`jobs, this`execs, this`trace
      ensures Valid() && trace == old(trace) + [Start(e, stamp)]
      ensures execs == old(execs)[e := old(execs)[e].(phase := Started, at := clock, lease := stamp)]
      ensures |jobs| == |old(jobs)| && jobs[id].doc == old(jobs)[id].doc.(status := Running, updatedAt := stamp)
      ensures forall i :: 0 <= i < |jobs| && i != id ==> jobs[i] == old(jobs)[i]
    {
      hide Step;
      ghost var before := State();
      StartEffect(c, before, e, stamp);
      Set(id, jobs[id].doc.(status := Running, updatedAt := stamp), SetRunning(stamp));
      execs := execs[e := execs[e].(phase := Started, at := clock, lease := stamp)];
      Log(before, Start(e, stamp));
    }

    /** MarkRunning, called by execution e. */
    method MarkRunning(e: nat, id: nat) returns (err: Option<Error>, ghost own: seq<Label>)
      requires Valid() && e < |execs| && execs[e].phase.Won? && execs[e].job == id < |jobs|
      requires execs[e].at <= clock
      modifies this
      ensures Valid() && old(trace) <= trace && |old(jobs)| <= |jobs|
      ensures Own(TheExec(e), trace) == Own(TheExec(e), old(trace)) + own
      ensures err.None? ==>
        && own == [Start(e, old(clock))] && Mine(e, id, old(execs[e]).snap) && execs[e].phase.Started?
        && jobs[id].doc.status.Running?
      ensures own == [] || own == [Start(e, old(clock))]
      ensures old(faults) == [] ==> faults == [] && err.None?
      ensures Bad(old(faults)) == Bad(faults) + One(err.Some?)
    {
      hide Step, Put, Enabled, Throughout, Run, Bad;
      var stamp := clock;
      Interleave(TheExec(e));
      var fault := NextFault();
      own := [];
      if fault.Refused? { return Some(Unavailable), own; }
      ghost var before := trace;
      SetRunningById(e, id, stamp);
      own := [Start(e, stamp)];
      OwnSnoc(TheExec(e), before, own[0]);
      err := if fault.ReplyLost? then Some(Unavailable) else None;
    }

    /** UpdateOne({_id: id}, $set completed): no filter on the status. */
    method SetCompletedById(e: nat, id: nat, stamp: Time)
      requires Valid() && e < |execs| && execs[e].phase.Started? && execs[e].job == id < |jobs|
      requires execs[e].at <= stamp <= clock
      modifies this`jobs, this`execs, this`trace
      ensures Valid() && trace == old(trace) + [Finish(e, stamp)]
      ensures execs == old(execs)[e := old(execs)[e].(phase := Gone, at := clock)]
      ensures |jobs| == |old(jobs)| && jobs[id].doc == old(jobs)[id].doc.(status := Completed, updatedAt := stamp)
      ensures forall i :: 0 <= i < |jobs| && i != id ==> jobs[i] == old(jobs)[i]
    {
      hide Step;
      ghost var before := State();
      FinishEffect(c, before, e, stamp);
      Set(id, jobs[id].doc.(status := Completed, updatedAt := stamp), SetCompleted(stamp));
      execs := execs[e := execs[e].(phase := Gone, at := clock)];
      Log(before, Finish(e, stamp));
    }

    /** MarkCompleted, called by execution e. */
    method MarkCompleted(e: nat, id: nat) returns (err: Option<Error>, ghost own: seq<Label>)
      requires Valid() && e < |execs| && execs[e].phase.Started? && execs[e].job == id < |jobs|
      requires execs[e].at <= clock
      modifies this
      ensures Valid() && old(trace) <= trace && |old(jobs)| <= |jobs|
      ensures Own(TheExec(e), trace) == Own(TheExec(e), old(trace)) + own
      ensures err.None? ==> own == [Finish(e, old(clock))] && id < |jobs| && jobs[id].doc.status.Completed?
      ensures own == [] || own == [Finish(e, old(clock))]
      ensures old(faults) == [] ==> faults == [] && err.None?
      ensures Bad(old(faults)) == Bad(faults) + One(err.Some?)
    {
      hide Step, Put, Enabled, Throughout, Run, Bad;
      var stamp := clock;
      Interleave(TheExec(e));
      var fault := NextFault();
      own := [];
      if fault.Refused? { return Some(Unavailable), own; }
      ghost var before := trace;
      SetCompletedById(e, id, stamp);
      own := [Finish(e, stamp)];
      OwnSnoc(TheExec(e), before, own[0]);
      err := if fault.ReplyLost? then Some(Unavailable) else None;
    }

    /** FindOne({_id: id}). */
    method ReadById(e: nat, id: nat) returns (job: Job)
      requires Valid() && e < |execs| && execs[e].phase.Started? && execs[e].job == id < |jobs|
      modifies this`execs, this`trace
      ensures Valid() && job == jobs[id].doc && trace == old(trace) + [ReadForFail(e)]
      ensures execs == old(execs)[e := old(execs)[e].(phase := Failing(job), at := clock)]
    {
      hide Step;
      ghost var before := State();
      ReadEffect(c, before, e);
      job := jobs[id].doc;
      execs := execs[e := execs[e].(phase := Failing(job), at := clock)];
      Log(before, ReadForFail(e));
    }

    /** UpdateOne({_id: id}, $set of a failure computed from the document read before). */
    method SetFailedById(e: nat, id: nat, job: Job, errMsg: string, backoff: Time, now: Time)
      requires Valid() && e < |execs| && execs[e].phase == Failing(job) && execs[e].job == id < |jobs|
      requires execs[e].at <= now <= clock && backoff == ExponentialBackoff(execs[e].snap.attempts)
      modifies this`jobs, this`execs, this`trace
      ensures Valid() && trace == old(trace) + [WriteFail(e, errMsg, now)]
      ensures execs == old(execs)[e := old(execs)[e].(
        phase := if SnapshotExhausted(old(execs)[e].snap) then Exhausted else Gone, at := clock)]
      ensures |jobs| == |old(jobs)|
      ensures jobs[id].doc.attempts == job.attempts + 1 && jobs[id].doc.lastError == errMsg
      ensures jobs[id].doc.updatedAt == now
      ensures if job.attempts + 1 >= job.maxAttempts then jobs[id].doc.status.Dlq?
              else jobs[id].doc.status.Pending? && jobs[id].doc.scheduledAt == now + backoff
    {
      hide Step;
      ghost var before := State();
      FailEffect(c, before, e, errMsg, now);
      var newAttempts := job.attempts + 1;
      var update := jobs[id].doc.(attempts := newAttempts, lastError := errMsg, updatedAt := now);
      if newAttempts >= job.maxAttempts {
        update := update.(status := Dlq);
      } else {
        update := update.(status := Pending, scheduledAt := now + backoff);
      }
      Set(id, update, SetFailed(job, errMsg, backoff, now));
      var phase := if SnapshotExhausted(execs[e].snap) then Exhausted else Gone;
      execs := execs[e := execs[e].(phase := phase, at := clock)];
      Log(before, WriteFail(e, errMsg, now));
    }

    /** The second half of MarkFailed: what it read is `job`. */
    method WriteFailure(e: nat, id: nat, job: Job, errMsg: string, backoff: Time)
      returns (err: Option<Error>, ghost own: seq<Label>)
      requires Valid() && e < |execs| && execs[e].phase == Failing(job) && execs[e].job == id < |jobs|
      requires execs[e].at <= clock && backoff == ExponentialBackoff(execs[e].snap.attempts)
      modifies this
      ensures Valid() && old(trace) <= trace && |old(jobs)| <= |jobs|
      ensures Own(TheExec(e), trace) == Own(TheExec(e), old(trace)) + own
      ensures err.None? ==>
        && |own| == 1 && Mine(e, id, old(execs[e]).snap)
        && execs[e].phase == (if SnapshotExhausted(execs[e].snap) then Exhausted else Gone)
        && var d := jobs[id].doc;
        && d.attempts == job.attempts + 1 && d.lastError == errMsg && d.updatedAt == old(clock)
        && (if d.attempts >= job.maxAttempts then d.status.Dlq?
            else d.status.Pending? && d.scheduledAt == old(clock) + backoff)
      ensures |own| <= 1 && (|own| == 1 ==> own[0] == WriteFail(e, errMsg, old(clock)))
      ensures old(faults) == [] ==> faults == [] && err.None?
      ensures Bad(old(faults)) == Bad(faults) + One(err.Some?)
    {
      hide Step, Put, Enabled, Throughout, Run, Own, ExponentialBackoff, Known, SameJob, SnapshotExhausted, Valid, Bad;
      var now := clock;
      own := [];
      Interleave(TheExec(e));
      var fault := NextFault();
      if fault.Refused? { return Some(Unavailable), own; }
      ghost var before := trace;
      SetFailedById(e, id, job, errMsg, backoff, now);
      own := [WriteFail(e, errMsg, now)];
      OwnSnoc(TheExec(e), before, own[0]);
      err := if fault.ReplyLost? then Some(Unavailable) else None;
    }

    /** MarkFailed, called by execution e: a read and a write, with the rest of the system in
        between. */
    method MarkFailed(e: nat, id: nat, errMsg: string, backoff: Time)
      returns (err: Option<Error>, ghost own: seq<Label>)
      requires Valid() && e < |execs| && execs[e].phase.Started? && execs[e].job == id < |jobs|
      requires execs[e].at <= clock && backoff == ExponentialBackoff(execs[e].snap.attempts)
      modifies this
      ensures Valid() && old(trace) <= trace && |old(jobs)| <= |jobs|
      ensures Own(TheExec(e), trace) == Own(TheExec(e), old(trace)) + own
      ensures err.None? ==>
        && |own| == 2 && Mine(e, id, old(execs[e]).snap)
        && execs[e].phase == (if SnapshotExhausted(execs[e].snap) then Exhausted else Gone)
        && jobs[id].doc.lastError == errMsg && (jobs[id].doc.status.Dlq? || jobs[id].doc.status.Pending?)
        && (jobs[id].doc.status.Pending? ==> jobs[id].doc.scheduledAt == jobs[id].doc.updatedAt + backoff)
      ensures err.None? && old(others) == [] ==>
        var was, d := old(jobs)[id].doc, jobs[id].doc;
        d.attempts == was.attempts + 1 && d.updatedAt == old(clock)
        && (d.status.Dlq? <==> d.attempts >= was.maxAttempts)
      ensures |own| <= 2 && (|own| >= 1 ==> own[0] == ReadForFail(e))
      ensures |own| == 2 ==> own[1].WriteFail? && own[1].exec == e && own[1].error == errMsg
      ensures old(faults) == [] ==> faults == [] && err.None?
      ensures Bad(old(faults)) == Bad(faults) + One(err.Some?)
    {
      hide Step, Put, Enabled, Throughout, Run, Own, ExponentialBackoff, Known, SameJob, SnapshotExhausted, Valid, Bad;
      Interleave(TheExec(e));
      var fault := NextFault();
      own := [];
      if !fault.Fine? { return Some(Unavailable), own; }
      ghost var before := trace;
      var job := ReadById(e, id);
      own := [ReadForFail(e)];
      OwnSnoc(TheExec(e), before, own[0]);
      ghost var written;
      err, written := WriteFailure(e, id, job, errMsg, backoff);
      own := own + written;
    }

    /** PublishDLQ, called by execution e. */
    method PublishDLQ(e: nat, id: nat) returns (err: Option<Error>, ghost own: seq<Label>)
      requires Valid() && e < |execs| && execs[e].phase.Exhausted? && execs[e].job == id < |jobs|
      modifies this
      ensures Valid() && old(trace) <= trace && |old(jobs)| <= |jobs|
      ensures Own(TheExec(e), trace) == Own(TheExec(e), old(trace)) + own
      ensures own == [] || own == [PublishDlq(e)]
      ensures err.None? ==> own == [PublishDlq(e)] && |dlq| > 0 && dlq[|dlq| - 1] == id
      ensures old(faults) == [] ==> faults == [] && err.None?
      ensures Bad(old(faults)) == Bad(faults) + One(err.Some?)
    {
      hide Step, Put, Throughout, Run, Bad;
      Interleave(TheExec(e));
      var fault := NextFault();
      own := [];
      if fault.Refused? { return Some(Unavailable), own; }
      ghost var before, was := State(), trace;
      PublishDlqEffect(c, before, e);
      dlq := dlq + [id];
      execs := execs[e := execs[e].(phase := Published, at := clock)];
      Log(before, PublishDlq(e));
      own := [PublishDlq(e)];
      OwnSnoc(TheExec(e), was, own[0]);
      err := if fault.ReplyLost? then Some(Unavailable) else None;
    }

    // ----- scheduler loops -----

    /** The document findOneAndUpdate would pick. */
    method FindTop(cutoff: Time) returns (found: Option<nat>)
      ensures found.Some? ==> IsTop(jobs, found.value, cutoff)
      ensures found.None? ==> NoneDue(jobs, cutoff)
      // in terms of the documents alone
      ensures found.Some? ==>
        && found.value < |jobs|
        && var d := jobs[found.value].doc;
        && d.status == Pending && d.scheduledAt <= cutoff
        && forall j :: 0 <= j < |jobs| && jobs[j].doc.status == Pending && jobs[j].doc.scheduledAt <= cutoff ==>
             d.priority >= jobs[j].doc.priority
             && (d.priority == jobs[j].doc.priority ==> d.scheduledAt <= jobs[j].doc.scheduledAt)
      ensures found.None? ==>
        forall j :: 0 <= j < |jobs| ==> !(jobs[j].doc.status == Pending && jobs[j].doc.scheduledAt <= cutoff)
    {
      found := None;
      var i := 0;
      while i < |jobs|
        invariant 0 <= i <= |jobs|
        invariant found.Some? ==> found.value < i && Due(jobs[found.value].doc, cutoff)
        invariant found.Some? ==>
          forall j :: 0 <= j < i && Due(jobs[j].doc, cutoff) ==> !Before(jobs[j].doc, jobs[found.value].doc)
        invariant found.None? ==> forall j :: 0 <= j < i ==> !Due(jobs[j].doc, cutoff)
      {
        if Due(jobs[i].doc, cutoff) && (found.None? || Before(jobs[i].doc, jobs[found.value].doc)) {
          found := Some(i);
        }
        i := i + 1;
      }
    }

    /** findOneAndUpdate on the document it picks, returning the document after the update. */
    method ClaimTop(id: nat, cutoff: Time, stamp: Time) returns (k: nat)
      requires Valid() && IsTop(jobs, id, cutoff) && cutoff <= stamp <= clock
      modifies this`jobs, this`claims, this`trace
      ensures Valid() && trace == old(trace) + [ClaimOne(id, cutoff, stamp)]
      ensures k == |old(claims)| && |jobs| == |old(jobs)|
      ensures jobs[id].doc == old(jobs)[id].doc.(status := Queued, updatedAt := stamp)
      ensures forall i :: 0 <= i < |jobs| && i != id ==> jobs[i] == old(jobs)[i]
      ensures claims == old(claims) + [Claim(id, jobs[id].doc, Held, clock)]
    {
      hide Step, Put;
      ghost var before := State();
      ClaimEffect(c, before, id, cutoff, stamp);
      k := |claims|;
      Set(id, jobs[id].doc.(status := Queued, updatedAt := stamp), SetQueued(k, stamp));
      claims := claims + [Claim(id, jobs[id].doc, Held, clock)];
      Log(before, ClaimOne(id, cutoff, stamp));
    }

    /** A batch of claims in a loop's hands, which nobody has stepped, and the documents they are of. */
    ghost predicate Batch(batch: seq<nat>, got: seq<nat>, cutoff: Time)
      reads this`clock, this`jobs, this`claims, this`trace
    {
      && |batch| == |got|
      && (forall a :: 0 <= a < |batch| ==>
            && batch[a] < |claims| && claims[batch[a]].progress.Held? && claims[batch[a]].id == got[a] < |jobs|
            && claims[batch[a]].job.status.Queued? && claims[batch[a]].job.scheduledAt <= cutoff
            && claims[batch[a]].at <= clock)
      && (forall a, b :: 0 <= a < b < |batch| ==> batch[a] != batch[b])
      && Own(TheClaims(batch), trace) == []
    }

    lemma BatchKept(before: Sys, batch: seq<nat>, got: seq<nat>, cutoff: Time)
      requires |batch| == |got|
      requires forall a :: 0 <= a < |batch| ==>
            && batch[a] < |before.claims| && before.claims[batch[a]].progress.Held?
            && before.claims[batch[a]].id == got[a] < |before.jobs|
            && before.claims[batch[a]].job.status.Queued? && before.claims[batch[a]].job.scheduledAt <= cutoff
            && before.claims[batch[a]].at <= before.clock
      requires forall a, b :: 0 <= a < b < |batch| ==> batch[a] != batch[b]
      requires Kept(TheClaims(batch), before, State()) && Own(TheClaims(batch), trace) == []
      ensures Batch(batch, got, cutoff)
    {
      forall a | 0 <= a < |batch|
        ensures batch[a] < |claims| && claims[batch[a]] == before.claims[batch[a]]
        ensures before.clock <= clock && got[a] < |jobs|
      {
        assert batch[a] in TheClaims(batch).claims;
      }
    }

    /** One more claim for the batch. */
    lemma BatchGrows(traceBefore: seq<Label>, claimsBefore: nat, batch: seq<nat>, got: seq<nat>, cutoff: Time,
        l: Label, k: nat)
      requires |batch| == |got| && k == claimsBefore < |claims| && claims[k].progress.Held? && claims[k].id < |jobs|
      requires claims[k].job.status.Queued? && claims[k].job.scheduledAt <= cutoff && claims[k].at <= clock
      requires forall a :: 0 <= a < |batch| ==>
            && batch[a] < claimsBefore && claims[batch[a]].progress.Held? && claims[batch[a]].id == got[a] < |jobs|
            && claims[batch[a]].job.status.Queued? && claims[batch[a]].job.scheduledAt <= cutoff
            && claims[batch[a]].at <= clock
      requires forall a, b :: 0 <= a < b < |batch| ==> batch[a] != batch[b]
      requires Own(TheClaims(batch), traceBefore) == [] && Known(traceBefore, claimsBefore, |execs|)
      requires l.ClaimOne? && trace == traceBefore + [l]
      ensures Batch(batch + [k], got + [claims[k].id], cutoff)
    {
      OwnOfNew(TheClaims(batch), TheClaims(batch + [k]), traceBefore, claimsBefore, |execs|);
      OwnSnoc(TheClaims(batch + [k]), traceBefore, l);
    }

    /** One round of the claim loop: a findOneAndUpdate that finds a document, finds none (`more` is
        false), or fails. */
    method ClaimNext(batch: seq<nat>, got: seq<nat>, ghost at: seq<nat>, cutoff: Time,
        ghost first: seq<Entry>, ghost alone: bool)
      returns (more: bool, batch': seq<nat>, got': seq<nat>, ghost at': seq<nat>, err: Option<Error>)
      requires Valid() && Batch(batch, got, cutoff) && cutoff <= clock
      requires ClaimedAt(c, origin, trace, cutoff, batch, got, at)
      requires alone ==> others == [] && Undisturbed(first, jobs, cutoff, got)
      modifies this
      ensures Valid() && old(trace) <= trace && Batch(batch', got', cutoff) && cutoff <= clock
      ensures |old(claims)| <= |claims|
      ensures if more then err.None? && |batch'| == |batch| + 1 && batch' == batch + [batch'[|batch|]]
                && batch'[|batch|] >= |old(claims)|
                && |at'| == |at| + 1 && at' == at + [at'[|at|]] && at'[|at|] >= |old(trace)|
              else batch' == batch && got' == got && at' == at
      ensures ClaimedAt(c, origin, trace, cutoff, batch', got', at')
      ensures !more && err.None? ==> NoneDue(jobs, cutoff)
      ensures alone ==> others == [] && |first| == |jobs| && Picked(first, jobs, cutoff, got')
      ensures alone && err.None? ==> Undisturbed(first, jobs, cutoff, got')
      ensures old(faults) == [] ==> faults == [] && err.None?
      ensures Bad(old(faults)) == Bad(faults) + One(err.Some?)
    {
      hide Step, Put, Enabled, Throughout, Run, Own, Known, Picked, IsTop, NoneDue, Due, Batch, ClaimedAt, Valid, Bad;
      more, batch', got', at', err := false, batch, got, at, None;
      var stamp := clock;
      InterleaveHolding(batch, got, at, cutoff);
      var fault := NextFault();
      if fault.Refused? { err := Some(Unavailable); return; }
      var found := FindTop(cutoff);
      if found.None? {
        if fault.ReplyLost? { err := Some(Unavailable); }
        return;
      }
      ghost var now := jobs;
      more, batch', got', at' := Take(batch, got, at, cutoff, found.value, stamp);
      if alone { UndisturbedClaim(first, now, jobs, cutoff, got, found.value, stamp); }
      if fault.ReplyLost? {
        BatchShrinks(batch, batch'[|batch|], got, found.value, cutoff);
        more, batch', got', at', err := false, batch, got, at, Some(Unavailable);
      }
    }

    /** The rest of the system moves on; a batch in hand stays one. */
    method InterleaveHolding(batch: seq<nat>, ghost got: seq<nat>, ghost at: seq<nat>, ghost cutoff: Time)
      requires Valid() && Batch(batch, got, cutoff) && ClaimedAt(c, origin, trace, cutoff, batch, got, at)
      modifies this`clock, this`jobs, this`claims, this`topic, this`dlq, this`execs, this`trace, this`others
      ensures Valid() && old(trace) <= trace && Batch(batch, got, cutoff)
      ensures ClaimedAt(c, origin, trace, cutoff, batch, got, at)
      ensures old(clock) <= clock && |old(claims)| <= |claims| && |old(jobs)| <= |jobs|
      ensures old(others) == [] ==> State() == old(State()) && trace == old(trace) && others == []
    {
      hide Step, Put, Enabled, Throughout, Run, Own, Known, ClaimedAt, Valid;
      ghost var before := State();
      Interleave(TheClaims(batch));
      BatchKept(before, batch, got, cutoff);
      ClaimedAtStays(c, origin, old(trace), trace, cutoff, batch, got, at);
    }

    /** The claim itself, entered into the batch. */
    method Take(batch: seq<nat>, got: seq<nat>, ghost at: seq<nat>, cutoff: Time, id: nat, stamp: Time)
      returns (more: bool, batch': seq<nat>, got': seq<nat>, ghost at': seq<nat>)
      requires Valid() && Batch(batch, got, cutoff) && IsTop(jobs, id, cutoff) && cutoff <= stamp <= clock
      requires ClaimedAt(c, origin, trace, cutoff, batch, got, at)
      modifies this`jobs, this`claims, this`trace
      ensures Valid() && trace == old(trace) + [ClaimOne(id, cutoff, stamp)]
      ensures more && batch' == batch + [|old(claims)|] && got' == got + [id] && Batch(batch', got', cutoff)
      ensures at' == at + [|old(trace)|]
      ensures ClaimedAt(c, origin, trace, cutoff, batch', got', at')
      ensures ClaimedAt(c, origin, trace, cutoff, batch, got, at)
      ensures |claims| == |old(claims)| + 1 && |jobs| == |old(jobs)|
      ensures jobs[id].doc == old(jobs)[id].doc.(status := Queued, updatedAt := stamp)
      ensures forall i :: 0 <= i < |jobs| && i != id ==> jobs[i] == old(jobs)[i]
    {
      hide Step, Put, Enabled, Throughout, Run, Own, ClaimedAt, IsTop, Due;
      ghost var was, n := trace, |claims|;
      ClaimedAtNext(c, origin, trace, cutoff, batch, got, at, id, stamp);
      ClaimedAtStays(c, origin, trace, trace + [ClaimOne(id, cutoff, stamp)], cutoff, batch, got, at);
      ClaimIsDue(id, cutoff);
      var k := ClaimTop(id, cutoff, stamp);
      BatchGrows(was, n, batch, got, cutoff, ClaimOne(id, cutoff, stamp), k);
      more, batch', got', at' := true, batch + [k], got + [id], at + [|was|];
    }

    lemma ClaimIsDue(id: nat, cutoff: Time)
      requires IsTop(jobs, id, cutoff)
      ensures id < |jobs| && jobs[id].doc.scheduledAt <= cutoff
    {
    }

    /** Without its last claim a batch is still one. */
    lemma BatchShrinks(batch: seq<nat>, k: nat, got: seq<nat>, id: nat, cutoff: Time)
      requires Batch(batch + [k], got + [id], cutoff)
      ensures Batch(batch, got, cutoff)
    {
      forall a | 0 <= a < |batch| ensures (batch + [k])[a] == batch[a] && (got + [id])[a] == got[a] {
      }
      forall a, b | 0 <= a < b < |batch| ensures batch[a] != batch[b] {
        assert (batch + [k])[a] != (batch + [k])[b];
      }
      OwnLess(TheClaims(batch), TheClaims(batch + [k]), trace);
    }

    /** ClaimDueJobs: up to `limit` due jobs, one atomic call at a time.  Each is the best one due at
        the step that claims it, whatever others do meanwhile, and the call returns short only when
        nothing is due any more.  On an error the claims made so far are returned with it.
        Undisturbed, the result is a top-k selection. */
    method ClaimDueJobs(cutoff: Time, limit: int)
      returns (batch: seq<nat>, got: seq<nat>, err: Option<Error>, ghost at: seq<nat>)
      requires Valid() && cutoff <= clock
      modifies this
      ensures Valid() && old(trace) <= trace && Batch(batch, got, cutoff)
      ensures |batch| <= limit || batch == []
      ensures forall a :: 0 <= a < |batch| ==> |old(claims)| <= batch[a]
      ensures ClaimedAt(c, origin, trace, cutoff, batch, got, at)
      ensures forall a :: 0 <= a < |at| ==> |old(trace)| <= at[a]
      ensures err.None? && |batch| < limit ==> NoneDue(jobs, cutoff)
      ensures old(others) == [] ==> others == [] && |jobs| == |old(jobs)| && Picked(old(jobs), jobs, cutoff, got)
      ensures old(others) == [] && err.None? ==> TopK(old(jobs), jobs, cutoff, limit, got)
      ensures old(others) == [] ==> BestFirst(old(jobs), jobs, cutoff, got)
      ensures err.None? && |batch| < limit ==>
        forall j :: 0 <= j < |jobs| ==> !(jobs[j].doc.status == Pending && jobs[j].doc.scheduledAt <= cutoff)
      ensures old(faults) == [] ==> faults == [] && err.None?
      ensures Bad(old(faults)) == Bad(faults) + One(err.Some?)
    {
      hide Step, Put, Enabled, Throughout, Run, Own, Known, Due, NoneDue, Valid, BestFirst, Bad;
      hide Batch, ClaimedAt, Undisturbed, Picked, TopK, OnlyClaimed;
      batch, got, err, at := [], [], None, [];
      NothingClaimed(cutoff);
      var i, more := 0, true;
      while i < limit && more
        invariant 0 <= i == |batch| && (i <= limit || i == 0)
        invariant Valid() && old(trace) <= trace && Batch(batch, got, cutoff) && cutoff <= clock
        invariant |old(claims)| <= |claims|
        invariant forall a :: 0 <= a < |batch| ==> |old(claims)| <= batch[a]
        invariant ClaimedAt(c, origin, trace, cutoff, batch, got, at)
        invariant forall a :: 0 <= a < |at| ==> |old(trace)| <= at[a]
        invariant err.None? && (!more ==> NoneDue(jobs, cutoff))
        invariant old(others) == [] ==> others == [] && Undisturbed(old(jobs), jobs, cutoff, got)
        invariant old(faults) == [] ==> faults == []
        invariant Bad(old(faults)) == Bad(faults)
        decreases limit - i, more
      {
        more, batch, got, at, err := ClaimNext(batch, got, at, cutoff, old(jobs), old(others) == []);
        if err.Some? {
          if old(others) == [] { PickedIsBestFirst(old(jobs), jobs, cutoff, got); }
          return;
        }
        if more { i := i + 1; }
      }
      BatchSizes(batch, got, cutoff);
      if old(others) == [] { UndisturbedSelects(old(jobs), jobs, cutoff, limit, got); }
      if |batch| < limit { NothingPendingDue(jobs, cutoff); }
    }

    lemma NothingClaimed(cutoff: Time)
      ensures Batch([], [], cutoff) && ClaimedAt(c, origin, trace, cutoff, [], [], [])
      ensures Undisturbed(jobs, jobs, cutoff, [])
    {
      OwnNothing(trace);
    }

    lemma BatchSizes(batch: seq<nat>, got: seq<nat>, cutoff: Time)
      requires Batch(batch, got, cutoff)
      ensures |batch| == |got|
    {
    }

    // ----- cron -----

    /** Of the claims in hand, only k may have moved. */
    twostate predicate RestKept(ks: seq<nat>, k: nat)
      reads this`claims
    {
      && |old(claims)| <= |claims|
      && forall j :: j in ks && j != k && j < |old(claims)| ==> claims[j] == old(claims)[j]
    }

    /** InsertOne of an instance of the template in claim k. */
    method InsertInstance(k: nat, now: Time) returns (inst: nat)
      requires Valid() && Enabled(c, State(), Spawn(k, now))
      modifies this`jobs, this`claims, this`trace
      ensures Valid() && trace == old(trace) + [Spawn(k, now)]
      ensures inst == |old(jobs)| && |jobs| == inst + 1 && jobs[inst].doc == NewInstance(old(claims)[k].job, now)
      ensures forall i :: 0 <= i < inst ==> jobs[i].doc == old(jobs)[i].doc
      ensures claims == old(claims)[k := old(claims)[k].(progress := Spawned(inst), at := clock)]
    {
      hide Step;
      ghost var before := State();
      SpawnEffect(c, before, k, now);
      var x := claims[k];
      var g := jobs[x.id].log;
      inst := |jobs|;
      jobs := jobs[x.id := jobs[x.id].(log := g.(fires := g.fires + [Fire(x.job.scheduledAt, now)]))]
              + [Entry(NewInstance(x.job, now), NewLog(Queued, Some(x.id), clock))];
      claims := claims[k := x.(progress := Spawned(inst), at := clock)];
      Log(before, Spawn(k, now));
    }

    lemma InstanceCarries(t: Job, now: Time)
      ensures var d := NewInstance(t, now);
        && d.tenant == t.tenant && d.jobType == t.jobType && d.payload == t.payload && d.priority == t.priority
        && d.maxAttempts == t.maxAttempts && d.cron == "" && d.status == Queued && d.attempts == 0
        && d.lastError == "" && d.claimedBy == "" && d.claimedAt == None
        && d.scheduledAt == d.createdAt == d.updatedAt == now
        && d.key == t.key + "-run-" + Decimal(now)
    {
    }

    /** SpawnCronInstance, called by the loop that holds the claims `ks` on its claim k. */
    method SpawnCronInstance(ks: seq<nat>, k: nat) returns (err: Option<Error>, ghost own: seq<Label>)
      requires Valid() && k in ks && k < |claims| && claims[k].progress.Held? && claims[k].job.Template()
      requires claims[k].id < |jobs| && claims[k].at <= clock
      modifies this
      ensures Valid() && old(trace) <= trace && |old(jobs)| <= |jobs| && old(clock) <= clock
      ensures Own(TheClaims(ks), trace) == Own(TheClaims(ks), old(trace)) + own && RestKept(ks, k)
      ensures own == [] || own == [Spawn(k, old(clock))]
      ensures k < |claims| && claims[k].id == old(claims)[k].id && claims[k].job == old(claims)[k].job
      ensures if own == [] then claims[k] == old(claims)[k]
              else claims[k].progress == Spawned(|jobs| - 1) && claims[k].at == clock
                   && jobs[|jobs| - 1].doc == NewInstance(claims[k].job, old(clock))
      // what the instance carries
      ensures own != [] ==>
        var t, d := claims[k].job, jobs[|jobs| - 1].doc;
        && d.tenant == t.tenant && d.jobType == t.jobType && d.payload == t.payload && d.priority == t.priority
        && d.maxAttempts == t.maxAttempts && d.cron == "" && d.status == Queued && d.attempts == 0
        && d.lastError == "" && d.claimedBy == "" && d.claimedAt == None
        && d.scheduledAt == d.createdAt == d.updatedAt == old(clock)
        && d.key == t.key + "-run-" + Decimal(old(clock))
      ensures err.None? ==> own == [Spawn(k, old(clock))]
      ensures err == Some(DuplicateKey) ==> own == [] && !KeyFree(jobs, InstanceKey(claims[k].job.key, old(clock)))
      ensures err.None? || err == Some(DuplicateKey) || err == Some(Unavailable)
      ensures old(faults) == [] ==> faults == [] && err != Some(Unavailable)
      ensures Bad(old(faults)) == Bad(faults) + One(err == Some(Unavailable))
    {
      hide Step, Throughout, Run, Own, Known, NewInstance, InstanceKey, KeyFree, Bad;
      var now := clock;
      own := [];
      Interleave(TheClaims(ks));
      var fault := NextFault();
      if fault.Refused? { return Some(Unavailable), own; }
      if !KeyFree(jobs, InstanceKey(claims[k].job.key, now)) {
        return Some(if fault.ReplyLost? then Unavailable else DuplicateKey), own;
      }
      ghost var was := trace;
      InstanceCarries(claims[k].job, now);
      var inst := InsertInstance(k, now);
      own := [Spawn(k, now)];
      OwnSnoc(TheClaims(ks), was, own[0]);
      err := if fault.ReplyLost? then Some(Unavailable) else None;
    }

    /** UpdateOne({_id}, $set pending at the next occurrence): no filter on the status. */
    method SetRescheduledById(k: nat, id: nat, next: Time, now: Time, stamp: Time)
      requires Valid() && Enabled(c, State(), Reschedule(k, now, stamp)) && id == claims[k].id
      requires next == c.next(claims[k].job.cron, now)
      modifies this`jobs, this`claims, this`trace
      ensures Valid() && trace == old(trace) + [Reschedule(k, now, stamp)]
      ensures |jobs| == |old(jobs)| && forall i :: 0 <= i < |jobs| && i != id ==> jobs[i] == old(jobs)[i]
      ensures jobs[id].doc == old(jobs)[id].doc.(status := Pending, scheduledAt := next, updatedAt := stamp)
      ensures var x := old(claims)[k];
        claims == old(claims)[k := x.(progress := Settled(x.progress.inst), at := clock)]
    {
      hide Step, Put;
      ghost var before := State();
      RescheduleEffect(c, before, k, now, stamp);
      Set(id, jobs[id].doc.(status := Pending, scheduledAt := next, updatedAt := stamp), SetRescheduled(next, stamp));
      claims := claims[k := claims[k].(progress := Settled(claims[k].progress.inst), at := clock)];
      Log(before, Reschedule(k, now, stamp));
    }

    /** The loop goes on without having rescheduled the template of claim k. */
    method GiveUpReschedule(k: nat)
      requires Valid() && Enabled(c, State(), RescheduleLost(k))
      modifies this`claims, this`trace
      ensures Valid() && trace == old(trace) + [RescheduleLost(k)]
      ensures var x := old(claims)[k];
        claims == old(claims)[k := x.(progress := Settled(x.progress.inst), at := clock)]
    {
      hide Step;
      ghost var before := State();
      LostEffect(c, before, k);
      claims := claims[k := claims[k].(progress := Settled(claims[k].progress.inst), at := clock)];
      Log(before, RescheduleLost(k));
    }

    /** RescheduleCronTemplate on the template of claim k, with the occurrence found after `now`. */
    method RescheduleCronTemplate(ks: seq<nat>, k: nat, next: Time, now: Time)
      returns (err: Option<Error>, ghost own: seq<Label>)
      requires Valid() && k in ks && k < |claims| && claims[k].progress.Spawned? && claims[k].id < |jobs|
      requires claims[k].at <= now <= clock && c.NextOccurrence(claims[k].job.cron, now) == Some(next)
      modifies this
      ensures Valid() && old(trace) <= trace && |old(jobs)| <= |jobs| && old(clock) <= clock
      ensures Own(TheClaims(ks), trace) == Own(TheClaims(ks), old(trace)) + own && RestKept(ks, k)
      ensures k < |claims| && claims[k].progress == Settled(old(claims)[k].progress.inst)
      ensures claims[k].id == old(claims)[k].id && claims[k].job == old(claims)[k].job
      ensures own == [Reschedule(k, now, old(clock))] || (err.Some? && own == [RescheduleLost(k)])
      ensures own == [Reschedule(k, now, old(clock))] ==>
        var d := jobs[claims[k].id].doc; d.status.Pending? && d.scheduledAt == next
      ensures old(faults) == [] ==> faults == [] && err.None?
      ensures Bad(old(faults)) == Bad(faults) + One(err.Some?)
    {
      hide Step, Throughout, Run, Own, Known, Bad;
      var stamp := clock;
      Interleave(TheClaims(ks));
      var fault := NextFault();
      ghost var was := trace;
      if fault.Refused? {
        GiveUpReschedule(k);
        own := [RescheduleLost(k)];
      } else {
        SetRescheduledById(k, claims[k].id, next, now, stamp);
        own := [Reschedule(k, now, stamp)];
      }
      OwnSnoc(TheClaims(ks), was, own[0]);
      err := if fault.Fine? then None else Some(Unavailable);
    }

    /** UpdateOne({_id}, $set dlq): no filter on the status. */
    method SetInvalidById(k: nat, id: nat, reason: string, stamp: Time)
      requires Valid() && Enabled(c, State(), DeadLetter(k, reason, stamp)) && id == claims[k].id
      modifies this`jobs, this`claims, this`trace
      ensures Valid() && trace == old(trace) + [DeadLetter(k, reason, stamp)]
      ensures |jobs| == |old(jobs)| && forall i :: 0 <= i < |jobs| && i != id ==> jobs[i] == old(jobs)[i]
      ensures jobs[id].doc == old(jobs)[id].doc.(status := Dlq, lastError := reason, updatedAt := stamp)
      ensures var x := old(claims)[k];
        claims == old(claims)[k := x.(progress := Dropped(x.progress.inst), at := clock)]
    {
      hide Step, Put;
      ghost var before := State();
      DeadLetterEffect(c, before, k, reason, stamp);
      Set(id, jobs[id].doc.(status := Dlq, lastError := reason, updatedAt := stamp), SetInvalid(reason, stamp));
      claims := claims[k := claims[k].(progress := Dropped(claims[k].progress.inst), at := clock)];
      Log(before, DeadLetter(k, reason, stamp));
    }

    /** MarkCronInvalid on the template of claim k. */
    method MarkCronInvalid(ks: seq<nat>, k: nat, reason: string) returns (err: Option<Error>, ghost own: seq<Label>)
      requires Valid() && k in ks && k < |claims| && claims[k].progress.Spawned? && claims[k].id < |jobs|
      requires claims[k].at <= clock && !c.parses(claims[k].job.cron)
      modifies this
      ensures Valid() && old(trace) <= trace && |old(jobs)| <= |jobs| && old(clock) <= clock
      ensures Own(TheClaims(ks), trace) == Own(TheClaims(ks), old(trace)) + own && RestKept(ks, k)
      ensures k < |claims| && claims[k].id == old(claims)[k].id && claims[k].job == old(claims)[k].job
      ensures own == [] || own == [DeadLetter(k, reason, old(clock))]
      ensures if own == [] then err.Some? && claims[k] == old(claims)[k]
              else claims[k].progress.Dropped? && jobs[claims[k].id].doc.status.Dlq?
                   && jobs[claims[k].id].doc.lastError == reason
      ensures old(faults) == [] ==> faults == [] && err.None?
      ensures Bad(old(faults)) == Bad(faults) + One(err.Some?)
    {
      hide Step, Throughout, Run, Own, Known, Bad;
      var stamp := clock;
      own := [];
      Interleave(TheClaims(ks));
      var fault := NextFault();
      if fault.Refused? { return Some(Unavailable), own; }
      ghost var was := trace;
      SetInvalidById(k, claims[k].id, reason, stamp);
      own := [DeadLetter(k, reason, stamp)];
      OwnSnoc(TheClaims(ks), was, own[0]);
      err := if fault.ReplyLost? then Some(Unavailable) else None;
    }

    // ----- dispatch and delivery -----

    /** PublishDispatch of the document of claim k, from the goroutine started for it. */
    method PublishDispatch(k: nat) returns (err: Option<Error>)
      requires Valid() && k < |claims| && claims[k].Dispatchable()
      modifies this
      ensures Valid() && old(trace) <= trace && k < |claims| && claims[k] == old(claims)[k]
      ensures err.None? ==> claims[k].Target() in topic && |trace| > 0 && trace[|trace| - 1] == Publish(k)
      ensures old(others) == [] ==>
        && jobs == old(jobs) && claims == old(claims)
        && old(topic) <= topic <= old(topic) + {claims[k].Target()}
      ensures old(faults) == [] ==> faults == [] && err.None?
      ensures Bad(old(faults)) == Bad(faults) + One(err.Some?)
    {
      hide Step, Throughout, Run, Own, Known, Bad;
      assert k in TheClaims([k]).claims;
      Interleave(TheClaims([k]));
      var fault := NextFault();
      if fault.Refused? { return Some(Unavailable); }
      ghost var before := State();
      PublishEffect(c, before, k);
      topic := topic + {claims[k].Target()};
      Log(before, Publish(k));
      err := if fault.ReplyLost? then Some(Unavailable) else None;
    }

    /** FindOne({_id: id}), for a delivery. */
    method FetchById(id: nat) returns (e: nat)
      requires Valid() && id in topic && id < |jobs|
      modifies this`execs, this`trace
      ensures Valid() && trace == old(trace) + [Deliver(id)] && Own(TheExec(e), trace) == []
      ensures e == |old(execs)| && execs == old(execs) + [Exec(id, jobs[id].doc, Fetched, clock, clock, clock)]
    {
      hide Step, Throughout, Run, Own;
      ghost var before, was := State(), trace;
      e := |execs|;
      DeliverEffect(c, before, id);
      execs := execs + [Exec(id, jobs[id].doc, Fetched, clock, clock, clock)];
      OwnNothing(was);
      OwnOfNew(NOBODY, TheExec(e), was, |before.claims|, |before.execs|);
      OwnSnoc(TheExec(e), was, Deliver(id));
      Log(before, Deliver(id));
    }

    /** GetByID.  An executor that has received a message naming `id` makes the document it fetches the
        snapshot of a new delivery; any other caller (`message` is false) just reads. */
    method GetByID(id: nat, message: bool) returns (r: Snapshot)
      requires Valid() && (message ==> id in topic)
      modifies this
      ensures Valid() && old(trace) <= trace && |old(jobs)| <= |jobs| && |old(execs)| <= |execs|
      ensures r.Snapshot? ==> id < |jobs| && r.job == jobs[id].doc && (r.exec.Some? <==> message)
      ensures r.Snapshot? && message ==>
        && r.exec.value >= |old(execs)| && Mine(r.exec.value, id, r.job) && execs[r.exec.value].phase.Fetched?
        && Own(TheExec(r.exec.value), trace) == []
      ensures r.Snapshot? || r == NoJob(Unavailable) || (r == NoJob(NotFound) && id >= |jobs|)
      ensures old(others) == [] ==> others == [] && State().(execs := []) == old(State()).(execs := [])
      ensures old(others) == [] && !message ==> execs == old(execs)
      ensures old(faults) == [] ==> faults == [] && r != NoJob(Unavailable)
      ensures Bad(old(faults)) == Bad(faults) + One(r == NoJob(Unavailable))
    {
      hide Step, Throughout, Run, Own, Known, Bad;
      Interleave(NOBODY);
      var fault := NextFault();
      if !fault.Fine? { return NoJob(Unavailable); }
      if id >= |jobs| { return NoJob(NotFound); }
      if !message { return Snapshot(None, jobs[id].doc); }
      var e := FetchById(id);
      r := Snapshot(Some(e), jobs[id].doc);
    }

    // ----- creation -----

    lemma JobCarries(req: CreateRequest, now: Time)
      ensures var d := NewJob(req, now);
        && d.key == req.key && d.tenant == req.tenant && d.jobType == req.jobType && d.payload == req.payload
        && d.priority == req.priority && d.scheduledAt == req.scheduledAt && d.cron == req.cron
        && d.maxAttempts == (if req.maxAttempts <= 0 then 3 else req.maxAttempts)
        && d.status == Pending && d.attempts == 0 && d.lastError == "" && d.claimedBy == "" && d.claimedAt == None
        && d.createdAt == d.updatedAt == now
    {
    }

    /** Create: one insert, refused when the idempotency key is taken. */
    method Create(req: CreateRequest) returns (err: Option<Error>, id: nat)
      requires Valid()
      modifies this
      ensures Valid() && old(trace) <= trace && |old(jobs)| <= |jobs|
      ensures err.None? ==> id < |jobs| && jobs[id].doc == NewJob(req, old(clock)) && KeyFree(jobs[..id], req.key)
      ensures err.None? ==> |trace| > 0 && trace[|trace| - 1] == System.Create(req, old(clock))
      // what the stored document carries
      ensures err.None? ==>
        var d := jobs[id].doc;
        && d.key == req.key && d.tenant == req.tenant && d.jobType == req.jobType && d.payload == req.payload
        && d.priority == req.priority && d.scheduledAt == req.scheduledAt && d.cron == req.cron
        && d.maxAttempts == (if req.maxAttempts <= 0 then 3 else req.maxAttempts)
        && d.status == Pending && d.attempts == 0 && d.lastError == "" && d.claimedBy == "" && d.claimedAt == None
        && d.createdAt == d.updatedAt == old(clock)
      ensures err.None? ==> forall i :: 0 <= i < id ==> jobs[i].doc.key != req.key
      ensures err == Some(DuplicateKey) ==> exists i :: 0 <= i < |jobs| && jobs[i].doc.key == req.key
      ensures err == Some(DuplicateKey) ==> !KeyFree(jobs, req.key)
      ensures err.None? || err == Some(DuplicateKey) || err == Some(Unavailable)
      ensures old(others) == [] ==>
        && (err == Some(DuplicateKey) ==> !KeyFree(old(jobs), req.key))
        && (err.None? ==> KeyFree(old(jobs), req.key) && |jobs| == |old(jobs)| + 1 && jobs[..|old(jobs)|] == old(jobs))
        && (err == Some(DuplicateKey) ==> jobs == old(jobs))
      ensures old(others) == [] && old(faults) == [] ==>
        (err == Some(DuplicateKey) <==> exists i :: 0 <= i < |old(jobs)| && old(jobs)[i].doc.key == req.key)
      ensures old(faults) == [] ==> faults == [] && err != Some(Unavailable)
      ensures Bad(old(faults)) == Bad(faults) + One(err == Some(Unavailable))
    {
      hide Step, Throughout, Run, NewJob, Bad;
      var now := clock;
      JobCarries(req, now);
      id := 0;
      Interleave(NOBODY);
      var fault := NextFault();
      if fault.Refused? { err := Some(Unavailable); return; }
      if !KeyFree(jobs, req.key) {
        err := Some(if fault.ReplyLost? then Unavailable else DuplicateKey);
        return;
      }
      ghost var before := State();
      CreateEffect(c, before, req, now);
      id := |jobs|;
      jobs := jobs + [Entry(NewJob(req, now), NewLog(Pending, None, clock))];
      Log(before, System.Create(req, now));
      err := if fault.ReplyLost? then Some(Unavailable) else None;
    }

    // ----- the reaper's sweeps -----

    /** UpdateMany reaches one document: filter and update are one atomic operation on it. */
    method SweepById(queued: bool, id: nat, now: Time, stamp: Time) returns (matched: bool)
      requires Valid() && id < |jobs| && now <= stamp <= clock
      modifies this`jobs, this`trace
      ensures Valid() && trace == old(trace) + [Sweeping(queued, id, now, stamp)]
      ensures |jobs| == |old(jobs)| && forall i :: 0 <= i < |jobs| && i != id ==> jobs[i] == old(jobs)[i]
      ensures matched == Stuck(c, queued, old(jobs)[id].doc, now)
      ensures jobs[id].doc ==
              if matched then old(jobs)[id].doc.(status := Pending, updatedAt := stamp) else old(jobs)[id].doc
    {
      hide Step, Put, Stuck;
      ghost var before := State();
      SweepingEffect(c, before, queued, id, now, stamp);
      matched := Stuck(c, queued, jobs[id].doc, now);
      if matched {
        Set(id, jobs[id].doc.(status := Pending, updatedAt := stamp),
            if queued then SweptQueued(stamp) else SweptExecution(stamp));
      }
      Log(before, Sweeping(queued, id, now, stamp));
    }

    /** sweepByStatus over "queued", or over "claimed" and "running".  The documents are updated one
        by one, at the steps `at`, while the rest of the system runs; an error may cut the sweep
        short, and then its count is lost. */
    method SweepByStatus(queued: bool) returns (err: Option<Error>, modified: nat, ghost at: seq<nat>)
      requires Valid()
      modifies this
      ensures Valid() && old(trace) <= trace && |old(jobs)| <= |jobs| && old(clock) <= clock
      ensures SweptAt(trace, |old(trace)|, queued, old(clock), at)
      ensures if err.Some? then modified == 0
              else |at| >= |old(jobs)| && modified == Hits(c, origin, trace, at)
      ensures err.None? ==> forall id: nat :: id < |old(jobs)| ==>
        Visited(c, origin, trace, |old(trace)|, |trace|, id, queued)
      ensures old(others) == [] && err.None? ==> Swept(c, queued, old(jobs), jobs, |jobs|, old(clock), modified)
      // in terms of the documents alone
      ensures old(others) == [] && err.None? ==>
        var overdue := OverdueIn(old(jobs), queued, if queued then c.queuedTimeout else c.claimTimeout, old(clock));
        && |jobs| == |old(jobs)| && modified == |overdue|
        && forall i :: 0 <= i < |jobs| ==>
             var was := old(jobs)[i].doc;
             jobs[i].doc == if i in overdue then was.(status := Pending, updatedAt := old(clock)) else was
      ensures old(others) == [] ==> others == []
      ensures old(faults) == [] ==> faults == [] && err.None?
      ensures Bad(old(faults)) == Bad(faults) + One(err.Some?)
    {
      hide Step, Throughout, Run, Own, Known, Stuck, Visited, Swept, Valid, Hits, SweptAt, Bad, OverdueIn;
      var now := clock;
      err, modified, at := None, 0, [];
      HereIsNow();
      SweepBegins(queued, now);
      Interleave(NOBODY);
      var n, id := |jobs|, 0;
      SweptNothing(c, queued, old(jobs), now);
      SweepStays(old(trace), |old(trace)|, queued, now, at);
      while id < n
        invariant Valid() && old(trace) <= trace && |old(jobs)| <= n <= |jobs| && now == old(clock) <= clock
        invariant 0 <= id == |at| <= n && Sweeps(|old(trace)|, queued, now, at, modified)
        invariant old(others) == [] ==>
          others == [] && n == |jobs| && Swept(c, queued, old(jobs), jobs, id, now, modified)
        invariant old(faults) == [] ==> faults == []
        invariant Bad(old(faults)) == Bad(faults)
      {
        ghost var was := jobs;
        var fault, matched;
        fault, matched, at := SweepStep(|old(trace)|, queued, id, now, at, modified);
        if fault.Refused? { err, modified := Some(Unavailable), 0; return; }
        if old(others) == [] { SweptOneMore(c, queued, old(jobs), was, jobs, id, now, modified); }
        modified := modified + One(matched);
        id := id + 1;
        if fault.ReplyLost? { err, modified := Some(Unavailable), 0; return; }
      }
      SweepVisits(old(trace), queued, now, at);
      if old(others) == [] { SweptAreOverdue(c, queued, old(jobs), jobs, now, modified); }
    }

    /** The sweep's next operation: it may fail before it reaches its document, or after. */
    method SweepStep(ghost start: nat, queued: bool, id: nat, now: Time, ghost at: seq<nat>, ghost modified: nat)
      returns (fault: Fault, matched: bool, ghost at': seq<nat>)
      requires Valid() && id == |at| < |jobs| && now <= clock && start <= |trace|
      requires Sweeps(start, queued, now, at, modified)
      modifies this
      ensures Valid() && old(trace) <= trace && |old(jobs)| <= |jobs| && old(clock) <= clock
      ensures Sweeps(start, queued, now, at', modified + One(matched))
      ensures if fault.Refused? then at' == at && !matched else |at'| == |at| + 1
      ensures old(others) == [] ==> others == [] && |jobs| == |old(jobs)|
      ensures old(others) == [] && !fault.Refused? ==>
        var was := old(jobs)[id].doc;
        && matched == Stuck(c, queued, was, now)
        && jobs[id].doc == (if matched then was.(status := Pending, updatedAt := now) else was)
        && forall i :: 0 <= i < |jobs| && i != id ==> jobs[i] == old(jobs)[i]
      ensures old(faults) == [] ==> faults == [] && fault.Fine?
      ensures Bad(old(faults)) == Bad(faults) + One(!fault.Fine?)
    {
      hide Step, Throughout, Run, Own, Known, Stuck, Visited, Valid, Hits, SweptAt, Bad;
      at', matched := at, false;
      InterleaveSweeping(start, queued, now, at, modified);
      fault := NextFault();
      if fault.Refused? { return; }
      matched := SweepNext(start, queued, id, now, at, modified);
      at' := at + [|trace| - 1];
    }

    lemma HereIsNow()
      requires Valid()
      ensures Run(c, origin, trace).clock == clock
    {
    }

    /** A sweep in progress: the steps it has taken, and what it has counted. */
    ghost predicate Sweeps(start: nat, queued: bool, now: Time, at: seq<nat>, modified: nat)
      reads this`trace
    {
      SweptAt(trace, start, queued, now, at) && modified == Hits(c, origin, trace, at)
    }

    lemma SweepBegins(queued: bool, now: Time)
      ensures SweptAt(trace, |trace|, queued, now, []) && Hits(c, origin, trace, []) == 0
    {
    }

    lemma SweepStays(before: seq<Label>, start: nat, queued: bool, now: Time, at: seq<nat>)
      requires before <= trace && SweptAt(before, start, queued, now, at)
      ensures SweptAt(trace, start, queued, now, at) && Hits(c, origin, trace, at) == Hits(c, origin, before, at)
    {
      HitsStay(c, origin, before, trace, at);
    }

    lemma SweepVisits(first: seq<Label>, queued: bool, now: Time, at: seq<nat>)
      requires Valid() && first <= trace && SweptAt(trace, |first|, queued, now, at)
      requires Run(c, origin, first).clock <= now
      ensures forall id: nat :: id < |at| ==> Visited(c, origin, trace, |first|, |trace|, id, queued)
    {
      hide Run, Throughout, Visited, Known, SweptAt;
      assert trace[..|first|] == first;
      SweptAtVisits(c, origin, trace, |first|, queued, now, at);
    }

    /** The rest of the system moves on in the middle of a sweep that began at step `start`. */
    method InterleaveSweeping(ghost start: nat, ghost queued: bool, ghost now: Time,
        ghost at: seq<nat>, ghost modified: nat)
      requires Valid() && Sweeps(start, queued, now, at, modified)
      modifies this`clock, this`jobs, this`claims, this`topic, this`dlq, this`execs, this`trace, this`others
      ensures Valid() && old(trace) <= trace && |old(jobs)| <= |jobs| && old(clock) <= clock
      ensures Sweeps(start, queued, now, at, modified)
      ensures old(others) == [] ==> State() == old(State()) && trace == old(trace) && others == []
    {
      hide Step, Throughout, Run, Own, Known, Valid, Hits, SweptAt;
      Interleave(NOBODY);
      SweepStays(old(trace), start, queued, now, at);
    }

    /** The sweep reaches its next document. */
    method SweepNext(ghost start: nat, queued: bool, id: nat, now: Time, ghost at: seq<nat>, ghost modified: nat)
      returns (matched: bool)
      requires Valid() && id == |at| < |jobs| && now <= clock && start <= |trace|
      requires Sweeps(start, queued, now, at, modified)
      modifies this`jobs, this`trace
      ensures Valid() && old(trace) <= trace && |trace| == |old(trace)| + 1
      ensures |jobs| == |old(jobs)| && forall i :: 0 <= i < |jobs| && i != id ==> jobs[i] == old(jobs)[i]
      ensures matched == Stuck(c, queued, old(jobs)[id].doc, now)
      ensures var was := old(jobs)[id].doc;
        jobs[id].doc == if matched then was.(status := Pending, updatedAt := now) else was
      ensures Sweeps(start, queued, now, at + [|trace| - 1], modified + One(matched))
    {
      hide Step, Throughout, Run, Own, Known, Stuck, Put, Hits, SweptAt, WritesTo;
      SweepingEffect(c, State(), queued, id, now, now);
      SweptAtNext(c, origin, trace, start, queued, now, at);
      matched := SweepById(queued, id, now, now);
    }
  }
}
