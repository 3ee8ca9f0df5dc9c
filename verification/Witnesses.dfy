/** Runs in which a promise is broken, and what exactly breaks it. */
module Witnesses {
  import opened Types
  import opened Documents
  import opened System
  import opened Safety
  import opened Timing
  import opened Guarantees
  import opened Driving
  import opened CronWindow
  import opened Keys

  function Request(maxAttempts: int): CreateRequest {
    CreateRequest("job", "tenant", "flaky", "", 0, 0, "", maxAttempts)
  }

  /** A job is created, claimed, published, and its handler started. */
  lemma FirstExecution(c: Config, maxAttempts: int) returns (ls: seq<Label>, s: Sys)
    requires c.claimTimeout > 0 && maxAttempts > 0
    ensures Led(c, Empty(0), ls, s)
    ensures s.clock == 0 && |s.jobs| == 1 && 0 in s.topic && s.dlq == []
    ensures var d := s.jobs[0].doc;
      d == AsRunning(NewJob(Request(maxAttempts), 0), "a", 0)
    ensures |s.execs| == 1 && s.execs[0].job == 0 && s.execs[0].phase.Started?
      && s.execs[0].snap.attempts == 0 && s.execs[0].snap.maxAttempts == maxAttempts
      && s.execs[0].at == s.execs[0].lease == 0
  {
    hide Led;
    var e;
    NoSteps(c, Empty(0));
    ls, s := Go(c, Empty(0), [], Empty(0), Create(Request(maxAttempts), 0));
    ls, s := ClaimAndPublish(c, Empty(0), ls, s, 0);
    ls, s, e := StartDelivered(c, Empty(0), ls, s, 0, "a");
  }

  /** ... is swept while its handler still runs, and completed by a second execution. */
  lemma SecondExecutionCompletes(c: Config) returns (ls: seq<Label>, s: Sys)
    requires c.claimTimeout > 0
    ensures Led(c, Empty(0), ls, s) && |s.jobs| == 1 && s.jobs[0].doc.status.Completed?
    ensures s.jobs[0].doc.attempts == 0 && s.jobs[0].doc.maxAttempts == 3
    ensures |s.execs| == 2 && s.execs[0].job == 0 && s.execs[0].phase.Started? && s.execs[0].at <= s.clock
  {
    hide Led, Step;
    var e;
    ls, s := FirstExecution(c, 3);
    ls, s := WaitUntil(c, Empty(0), ls, s, c.claimTimeout);
    ls, s := SweepNow(c, Empty(0), ls, s, 0);
    ls, s := ClaimAndPublish(c, Empty(0), ls, s, 0);
    ls, s, e := StartDelivered(c, Empty(0), ls, s, 0, "b");
    ls, s := Succeed(c, Empty(0), ls, s, e);
  }

  /** Without [T], whatever the timeouts: an execution that outlives the sweep fails its job after
      a second execution has completed it, and the completed job is pending again.  The last write
      is the only one of the run that is late. */
  lemma LateFailureReopensCompletedJob(c: Config) returns (ls: seq<Label>, l: Label)
    requires c.claimTimeout > 0
    ensures Throughout(c, Empty(0), ls, Taken) && Enabled(c, Run(c, Empty(0), ls), l)
    ensures var s := Run(c, Empty(0), ls); |s.jobs| == 1 && s.jobs[0].doc.status.Completed?
    ensures var t := Run(c, Empty(0), ls + [l]); |t.jobs| == 1 && t.jobs[0].doc.status.Pending?
  {
    var s;
    ls, s := SecondExecutionCompletes(c);
    ls, s := ReadNow(c, Empty(0), ls, s, 0);
    l := WriteFail(0, "late", s.clock);
    assert (ls + [l])[..|ls|] == ls;
    assert Run(c, Empty(0), ls + [l]) == Step(c, s, l);
  }

  /** Which steps can touch a finished one-off job when nothing is assumed about time: the by-id
      writes of an execution of that job. */
  lemma FinishedJobWrittenIff(c: Config, s: Sys, l: Label, id: nat)
    requires Inv(c, s)
    requires id < |s.jobs| && !s.jobs[id].doc.Template() && s.jobs[id].doc.status.Terminal()
    ensures WritesTo(c, s, l, id) <==>
      Enabled(c, s, l) && (l.Start? || l.Finish? || l.WriteFail?) && s.execs[l.exec].job == id
  {
    assert forall k :: 0 <= k < |s.claims| ==> ClaimOk(s, s.claims[k]);
  }

  /** No execution of the job is between winning its claim and its last write. */
  ghost predicate NoneWorking(s: Sys, id: nat) {
    forall e :: 0 <= e < |s.execs| && s.execs[e].job == id ==> !s.execs[e].Working()
  }

  ghost predicate Finished(s: Sys, id: nat) {
    id < |s.jobs| && !s.jobs[id].doc.Template() && s.jobs[id].doc.status.Terminal()
  }

  lemma FinishedEntryStays(c: Config, s: Sys, l: Label, id: nat)
    requires Inv(c, s) && Finished(s, id) && NoneWorking(s, id)
    ensures var t := Step(c, s, l); id < |t.jobs| && t.jobs[id] == s.jobs[id]
  {
    hide Step, WritesTo;
    JobAfter(c, s, l, id);
    FinishedJobWrittenIff(c, s, l, id);
    assert forall k :: 0 <= k < |s.claims| ==> ClaimOk(s, s.claims[k]);
  }

  lemma FinishedIsNotTakenUp(c: Config, s: Sys, l: Label, id: nat, e: nat)
    requires Finished(s, id) && NoneWorking(s, id)
    requires e < |Step(c, s, l).execs| && Step(c, s, l).execs[e].job == id
    ensures !Step(c, s, l).execs[e].Working()
  {
    hide Step;
    if e < |s.execs| { ExecAfter(c, s, l, e); } else { NewExecAfter(c, s, l, e); }
  }

  lemma FinishedStays(c: Config, s: Sys, l: Label, id: nat)
    requires Inv(c, s) && Finished(s, id) && NoneWorking(s, id)
    ensures var t := Step(c, s, l); id < |t.jobs| && t.jobs[id] == s.jobs[id] && NoneWorking(t, id)
  {
    hide Step, Inv, Finished;
    var t := Step(c, s, l);
    FinishedEntryStays(c, s, l, id);
    forall e | 0 <= e < |t.execs| && t.execs[e].job == id ensures !t.execs[e].Working() {
      FinishedIsNotTakenUp(c, s, l, id, e);
    }
  }

  lemma {:induction false} FinishedStaysThrough(c: Config, s: Sys, ls: seq<Label>, id: nat)
    requires Inv(c, s) && Finished(s, id) && NoneWorking(s, id)
    ensures var t := Run(c, s, ls); id < |t.jobs| && t.jobs[id] == s.jobs[id] && NoneWorking(t, id)
  {
    hide Step, Inv, NoneWorking;
    if ls != [] {
      var init := ls[..|ls| - 1];
      FinishedStaysThrough(c, s, init, id);
      InvRun(c, s, init);
      FinishedStays(c, Run(c, s, init), ls[|ls| - 1], id);
    }
  }

  /** The write a working execution has next. */
  function NextWrite(e: nat, x: Exec, clock: Time): Label {
    if x.phase.Won? then Start(e, clock) else if x.phase.Started? then Finish(e, clock) else WriteFail(e, "late", clock)
  }

  lemma WorkingCanWrite(c: Config, s: Sys, id: nat, e: nat)
    requires Inv(c, s) && id < |s.jobs| && e < |s.execs| && s.execs[e].job == id && s.execs[e].Working()
    ensures var t := Step(c, s, NextWrite(e, s.execs[e], s.clock)); id < |t.jobs| && t.jobs[id] != s.jobs[id]
  {
    hide Step;
    assert ExecOk(s, s.execs[e]);
    JobAfter(c, s, NextWrite(e, s.execs[e], s.clock), id);
  }

  /** Nothing is ever written to the job again, however the run goes on. */
  ghost predicate FinalFrom(c: Config, s: Sys, id: nat)
    requires id < |s.jobs|
  {
    forall ls: seq<Label> :: id < |Run(c, s, ls).jobs| && Run(c, s, ls).jobs[id] == s.jobs[id]
  }

  /** Exactly when "completed" and "dlq" are final with no assumption about time: a finished one-off
      job is never written again, in any continuation, if and only if no execution of it is still at
      work. */
  lemma FinishedIsFinalIff(c: Config, s: Sys, id: nat)
    requires Reachable(c, s) && Finished(s, id)
    ensures FinalFrom(c, s, id) <==> NoneWorking(s, id)
  {
    hide Step, Inv;
    ReachableInv(c, s);
    if NoneWorking(s, id) {
      forall ls: seq<Label> ensures id < |Run(c, s, ls).jobs| && Run(c, s, ls).jobs[id] == s.jobs[id] {
        FinishedStaysThrough(c, s, ls, id);
      }
    } else {
      var e :| 0 <= e < |s.execs| && s.execs[e].job == id && s.execs[e].Working();
      var l := NextWrite(e, s.execs[e], s.clock);
      WorkingCanWrite(c, s, id, e);
      assert [l][..0] == [];
      assert Run(c, s, [l]) == Step(c, s, l);
    }
  }

  /** A second message is delivered while the first execution runs; then that one fails. */
  lemma FailsAfterSecondFetch(c: Config) returns (ls: seq<Label>, s: Sys)
    requires c.claimTimeout > 0
    ensures Led(c, Empty(0), ls, s) && s.clock == 0 && |s.jobs| == 1 && s.dlq == [] && 0 in s.topic
    ensures var d := s.jobs[0].doc;
      d.status.Pending? && d.attempts == 1 && d.maxAttempts == 2 && d.scheduledAt <= SECOND && !d.Template()
    ensures |s.execs| == 2 && s.execs[0].job == s.execs[1].job == 0 && s.execs[0].phase.Gone?
    ensures s.execs[1].phase.Fetched? && s.execs[1].at == 0
    ensures s.execs[1].snap.attempts == 0 && s.execs[1].snap.maxAttempts == 2
  {
    hide Led, Step;
    ls, s := FirstExecution(c, 2);
    ls, s := DeliverNow(c, Empty(0), ls, s, 0);
    ls, s := Fail(c, Empty(0), ls, s, 0, "first");
  }

  /** ... and after the backoff the second one wins the retry, still with its old snapshot. */
  lemma SecondWinsWithStaleSnapshot(c: Config) returns (ls: seq<Label>, s: Sys)
    requires c.claimTimeout > 0
    ensures Led(c, Empty(0), ls, s) && |s.jobs| == 1 && s.dlq == []
    ensures s.jobs[0].doc.attempts == 1 && s.jobs[0].doc.maxAttempts == 2 && !s.jobs[0].doc.Template()
    ensures |s.execs| == 2 && s.execs[0].job == s.execs[1].job == 0 && s.execs[0].phase.Gone?
    ensures var x := s.execs[1];
      x.phase.Started? && x.at == x.lease == s.clock && x.snap.attempts == 0 && x.snap.maxAttempts == 2
  {
    hide Led, Step;
    ls, s := FailsAfterSecondFetch(c);
    ls, s := WaitUntil(c, Empty(0), ls, s, SECOND);
    ls, s := ClaimAndPublish(c, Empty(0), ls, s, 0);
    ls, s := WinNow(c, Empty(0), ls, s, 1, "b");
    ls, s := StartNow(c, Empty(0), ls, s, 1);
  }

  /** A job can be dead-lettered in time without any message on the DLQ topic, now or later: its
      last execution worked on a snapshot delivered before its first failure. */
  lemma StaleSnapshotLosesDlqMessage(c: Config) returns (ls: seq<Label>)
    requires c.claimTimeout > 0
    ensures Throughout(c, Empty(0), ls, Taken)
    ensures var s := Run(c, Empty(0), ls);
      && |s.jobs| == 1 && s.jobs[0].doc.status.Dlq? && s.dlq == []
      && (forall e :: 0 <= e < |s.execs| ==> s.execs[e].job == 0 && s.execs[e].phase.Gone?)
      && !MayBeAnnounced(c, s, 0)
  {
    hide Step, Taken, Throughout, MayBeAnnounced, ReachableBy, Run;
    var s;
    ls, s := SecondWinsWithStaleSnapshot(c);
    ls, s := Fail(c, Empty(0), ls, s, 1, "second");
    EmptyIsTimely(c, 0, 0);
    TakenStaysTimely(c, Empty(0), ls, 0);
    SilenceIsFinal(c, s, 0);
  }

  // ----- an expression that does not move forward -----

  /** A recurring job created with a given due instant. */
  function Recurring(cron: string, due: Time): CreateRequest {
    CreateRequest("t", "tenant", "noop", "", 0, due, cron, 3)
  }

  lemma ClaimNow(c: Config, s0: Sys, ls: seq<Label>, s: Sys, id: nat) returns (more: seq<Label>, t: Sys)
    requires Led(c, s0, ls, s) && IsTop(s.jobs, id, s.clock)
    ensures Led(c, s0, more, t)
    ensures var d := s.jobs[id].doc.(status := Queued, updatedAt := s.clock);
      && t == WithWrite(s, id, SetQueued(|s.claims|, s.clock)).(claims := s.claims + [Claim(id, d, Held, s.clock)])
  {
    hide Led;
    more, t := Go(c, s0, ls, s, ClaimOne(id, s.clock, s.clock));
  }

  lemma SpawnNow(c: Config, s0: Sys, ls: seq<Label>, s: Sys, k: nat) returns (more: seq<Label>, t: Sys)
    requires Led(c, s0, ls, s)
    requires k < |s.claims| && s.claims[k].progress.Held? && s.claims[k].job.Template() && s.claims[k].at <= s.clock
    requires s.claims[k].id < |s.jobs| && KeyFree(s.jobs, InstanceKey(s.claims[k].job.key, s.clock))
    ensures Led(c, s0, more, t) && t.clock == s.clock
    ensures t.claims == s.claims[k := s.claims[k].(progress := Spawned(|s.jobs|), at := s.clock)]
    ensures var id := s.claims[k].id;
      var fires := s.jobs[id].log.fires + [Fire(s.claims[k].job.scheduledAt, s.clock)];
      var fired := s.jobs[id].(log := s.jobs[id].log.(fires := fires));
      t.jobs == s.jobs[id := fired]
                + [Entry(NewInstance(s.claims[k].job, s.clock), NewLog(Queued, Some(id), s.clock))]
  {
    hide Led;
    more, t := Go(c, s0, ls, s, Spawn(k, s.clock));
  }

  lemma RescheduleNow(c: Config, s0: Sys, ls: seq<Label>, s: Sys, k: nat) returns (more: seq<Label>, t: Sys)
    requires Led(c, s0, ls, s)
    requires k < |s.claims| && s.claims[k].progress.Spawned? && s.claims[k].at <= s.clock
    requires s.claims[k].id < |s.jobs| && c.parses(s.claims[k].job.cron)
    ensures Led(c, s0, more, t) && t.clock == s.clock
    ensures var id := s.claims[k].id;
      var w := SetRescheduled(c.next(s.claims[k].job.cron, s.clock), s.clock);
      t.jobs == s.jobs[id := Record(s.jobs[id], w, s.clock)]
  {
    hide Led;
    more, t := Go(c, s0, ls, s, Reschedule(k, s.clock, s.clock));
  }

  lemma ShortKey(now: Time)
    ensures InstanceKey("t", now) != "t"
  {
    assert |InstanceKey("t", now)| >= 6;
  }

  /** The collection after n firings of the template, one every nanosecond from t0 on. */
  ghost predicate FiredEvery(c: Config, cron: string, t0: Time, n: nat, s: Sys) {
    && s.clock == t0 + n && |s.jobs| == n + 1
    && (forall j :: 0 < j <= n ==> s.jobs[j].doc.status.Queued? && s.jobs[j].doc.key == InstanceKey("t", t0 + j - 1))
    && var en := s.jobs[0];
       && en.doc.status.Pending? && en.doc.cron == cron && en.doc.key == "t" && en.log.queuedSweeps == 0
       && |en.log.fires| == n
       && (forall i :: 0 <= i < n ==> en.log.fires[i].at == t0 + i)
       && (forall i :: 0 < i < n ==> en.log.fires[i].due == c.next(cron, t0 + i - 1))
       && (n > 0 ==> en.doc.scheduledAt == c.next(cron, t0 + n - 1))
  }

  lemma Created(c: Config, cron: string, t0: Time, due: Time) returns (ls: seq<Label>, s: Sys)
    requires cron != "" && c.parses(cron)
    ensures Led(c, Empty(t0), ls, s) && FiredEvery(c, cron, t0, 0, s) && s.claims == []
    ensures s.jobs[0].doc.scheduledAt == due
  {
    hide Led;
    NoSteps(c, Empty(t0));
    ls, s := Go(c, Empty(t0), [], Empty(t0), Create(Recurring(cron, due), t0));
    assert s.jobs == [Entry(NewJob(Recurring(cron, due), t0), NewLog(Pending, None, t0))];
  }

  lemma NextKeyIsFree(c: Config, cron: string, t0: Time, n: nat, s: Sys)
    requires FiredEvery(c, cron, t0, n, s)
    ensures KeyFree(s.jobs, InstanceKey("t", s.clock))
  {
    forall j | 0 <= j < |s.jobs| ensures s.jobs[j].doc.key != InstanceKey("t", s.clock) {
      if j == 0 { ShortKey(s.clock); } else { InstantsDiffer("t", s.clock, t0 + j - 1); }
    }
  }

  /** The template, due, is claimed and fired. */
  lemma FireNow(c: Config, cron: string, t0: Time, n: nat, ls: seq<Label>, s: Sys)
    returns (more: seq<Label>, t: Sys, k: nat)
    requires Led(c, Empty(t0), ls, s) && FiredEvery(c, cron, t0, n, s) && cron != ""
    requires s.jobs[0].doc.scheduledAt <= s.clock
    ensures Led(c, Empty(t0), more, t) && t.clock == s.clock && |t.jobs| == n + 2
    ensures k < |t.claims| && t.claims[k].progress.Spawned? && t.claims[k].id == 0 && t.claims[k].at == s.clock
    ensures t.claims[k].job.cron == cron
    ensures t.jobs[0].doc == s.jobs[0].doc.(status := Queued, updatedAt := s.clock)
    ensures t.jobs[0].log.fires == s.jobs[0].log.fires + [Fire(s.jobs[0].doc.scheduledAt, s.clock)]
    ensures t.jobs[0].log.queuedSweeps == 0
    ensures t.jobs[n + 1].doc.status.Queued? && t.jobs[n + 1].doc.key == InstanceKey("t", s.clock)
    ensures forall j :: 0 < j <= n ==> t.jobs[j] == s.jobs[j]
  {
    hide Led, InstanceKey;
    NextKeyIsFree(c, cron, t0, n, s);
    k := |s.claims|;
    more, t := ClaimNow(c, Empty(t0), ls, s, 0);
    assert t.jobs[0].doc.key == "t";
    more, t := SpawnNow(c, Empty(t0), more, t, k);
  }

  /** One more nanosecond, one more firing. */
  lemma FireOnce(c: Config, cron: string, t0: Time, n: nat, ls: seq<Label>, s: Sys)
    returns (more: seq<Label>, t: Sys)
    requires Led(c, Empty(t0), ls, s) && FiredEvery(c, cron, t0, n, s) && cron != "" && c.parses(cron)
    requires s.jobs[0].doc.scheduledAt <= s.clock
    ensures Led(c, Empty(t0), more, t) && FiredEvery(c, cron, t0, n + 1, t)
    ensures t.jobs[0].log.fires == s.jobs[0].log.fires + [Fire(s.jobs[0].doc.scheduledAt, s.clock)]
  {
    hide Led, InstanceKey;
    var k;
    more, t, k := FireNow(c, cron, t0, n, ls, s);
    more, t := RescheduleNow(c, Empty(t0), more, t, k);
    more, t := WaitUntil(c, Empty(t0), more, t, t.clock + 1);
  }

  /** A template whose expression never moves forward fires again at every claim: for every n there is
      a run with n firings in n nanoseconds. */
  lemma {:induction false} FiresAtEveryClaim(c: Config, cron: string, t0: Time, n: nat) returns (ls: seq<Label>, s: Sys)
    requires cron != "" && c.parses(cron) && forall t: Time :: t0 <= t ==> c.next(cron, t) <= t
    ensures Led(c, Empty(t0), ls, s) && FiredEvery(c, cron, t0, n, s) && s.jobs[0].doc.scheduledAt <= s.clock
  {
    hide Led, InstanceKey;
    if n == 0 {
      ls, s := Created(c, cron, t0, t0);
    } else {
      ls, s := FiresAtEveryClaim(c, cron, t0, n - 1);
      ls, s := FireOnce(c, cron, t0, n - 1, ls, s);
    }
  }

  lemma {:induction false} AllFired(fires: seq<Fire>, m: nat, a: Time, b: Time)
    requires m <= |fires| && forall i :: 0 <= i < m ==> a <= fires[i].at <= b
    ensures |FiredIn(fires, 0, m, a, b)| == m
  {
    if m == 0 {
      assert FiredIn(fires, 0, 0, a, b) == {};
    } else {
      AllFired(fires, m - 1, a, b);
      OneMoreFired(fires, 0, m, a, b);
    }
  }

  /** Whatever the configuration: an expression that parses but never occurs, for which the library
      returns the zero time, fires any number of times within as many nanoseconds, with no sweep and
      no occurrence of the expression anywhere near. */
  lemma NeverOccurringExpressionFiresAtEveryClaim(c: Config, cron: string, n: nat) returns (ls: seq<Label>)
    requires cron != "" && c.parses(cron) && forall t: Time :: c.next(cron, t) == ZERO_TIME
    ensures Throughout(c, Empty(0), ls, Taken)
    ensures var s := Run(c, Empty(0), ls);
      && Unswept(s, 0) && s.jobs[0].doc.cron == cron
      && var fires := s.jobs[0].log.fires;
         |fires| == n && |FiredIn(fires, 0, n, 0, n)| == n && OccurrencesIn(c, cron, 0, n) == {}
  {
    hide Step, Taken, Throughout;
    var s;
    ls, s := FiresAtEveryClaim(c, cron, 0, n);
    AllFired(s.jobs[0].log.fires, n, 0, n);
  }

  /** Every template with this expression, until it is first swept, fires its occurrences in order and
      each of them once. */
  ghost predicate AlwaysFiresOnce(c: Config, cron: string) {
    forall s: Sys, id: nat ::
      Reachable(c, s) && Unswept(s, id) && s.jobs[id].doc.cron == cron ==> EachOnce(s.jobs[id].log.fires, 0)
  }

  /** A reschedule of a template with this expression, in a state where it was never swept. */
  ghost predicate Rescheduling(c: Config, s: Sys, l: Label, cron: string) {
    && Reachable(c, s) && Enabled(c, s, l) && l.Reschedule?
    && Unswept(s, s.claims[l.claim].id) && s.jobs[s.claims[l.claim].id].doc.cron == cron
  }

  ghost predicate MovesForward(c: Config, s: Sys, l: Label)
    requires Enabled(c, s, l) && l.Reschedule?
  {
    var id := s.claims[l.claim].id;
    id < |Step(c, s, l).jobs| && l.now < Step(c, s, l).jobs[id].doc.scheduledAt
  }

  ghost predicate AlwaysMovesForward(c: Config, cron: string) {
    forall s: Sys, l: Label :: Rescheduling(c, s, l, cron) ==> MovesForward(c, s, l)
  }

  /** Created through the API at an instant t whose next occurrence is not later, the template fires
      that occurrence at t, is rescheduled to it, and fires it again a nanosecond later. */
  lemma FiresTwice(c: Config, cron: string, t: Time) returns (s: Sys)
    requires cron != "" && c.parses(cron) && c.next(cron, t) <= t
    ensures Reachable(c, s) && Unswept(s, 0) && s.jobs[0].doc.cron == cron && !EachOnce(s.jobs[0].log.fires, 0)
  {
    hide Step, InstanceKey, Throughout, Run;
    var k;
    var ls: seq<Label>;
    ls, s := Created(c, cron, t, c.next(cron, t));
    ls, s := FireOnce(c, cron, t, 0, ls, s);
    ls, s, k := FireNow(c, cron, t, 1, ls, s);
    var fires := s.jobs[0].log.fires;
    assert fires == [Fire(c.next(cron, t), t), Fire(c.next(cron, t), t + 1)];
    assert !(fires[0].due < fires[1].due);
  }

  lemma ReschedulesInPlace(c: Config, cron: string, t: Time) returns (s: Sys, l: Label)
    requires cron != "" && c.parses(cron) && c.next(cron, t) <= t
    ensures Rescheduling(c, s, l, cron) && !MovesForward(c, s, l)
  {
    hide Step, InstanceKey, Throughout, Run;
    var k;
    var ls: seq<Label>;
    ls, s := Created(c, cron, t, c.next(cron, t));
    ls, s, k := FireNow(c, cron, t, 0, ls, s);
    l := Reschedule(k, t, t);
    JobAfter(c, s, l, 0);
  }

  /** Exactly which expressions fire each occurrence once: those whose next occurrence always is later
      than the instant it is searched from. */
  lemma FiresOnceIff(c: Config, cron: string)
    requires cron != "" && c.parses(cron)
    ensures AlwaysFiresOnce(c, cron) <==> AlwaysOccursAgain(c, cron)
  {
    hide Reachable, EachOnce;
    if AlwaysOccursAgain(c, cron) {
      forall s: Sys, id: nat | Reachable(c, s) && Unswept(s, id) && s.jobs[id].doc.cron == cron
        ensures EachOnce(s.jobs[id].log.fires, 0)
      {
        OccurrencesFireOnce(c, s, id);
      }
    } else {
      var t: Time :| c.next(cron, t) <= t;
      var s := FiresTwice(c, cron, t);
    }
  }

  /** ... and which are always rescheduled forward. */
  lemma ReschedulesForwardIff(c: Config, cron: string)
    requires cron != "" && c.parses(cron)
    ensures AlwaysMovesForward(c, cron) <==> AlwaysOccursAgain(c, cron)
  {
    hide MovesForward, Reachable;
    if AlwaysOccursAgain(c, cron) {
      forall s: Sys, l: Label | Rescheduling(c, s, l, cron) ensures MovesForward(c, s, l) {
        Forward(c, s, l);
      }
    } else {
      var t: Time :| c.next(cron, t) <= t;
      var s, l := ReschedulesInPlace(c, cron, t);
    }
  }

  lemma Forward(c: Config, s: Sys, l: Label)
    requires Reachable(c, s) && Enabled(c, s, l) && l.Reschedule? && Unswept(s, s.claims[l.claim].id)
    requires AlwaysOccursAgain(c, s.jobs[s.claims[l.claim].id].doc.cron)
    ensures MovesForward(c, s, l)
  {
    hide Step;
    RescheduleMovesForward(c, s, l);
  }

  // ----- a reschedule that never reached the store -----

  /** A template is claimed and fired, its reschedule is lost, and the queued sweep returns it to
      pending, due at the same occurrence as before. */
  lemma FiredThenSwept(c: Config, cron: string) returns (ls: seq<Label>, s: Sys)
    requires cron != "" && c.parses(cron)
    ensures Led(c, Empty(0), ls, s) && s.clock == c.queuedTimeout && |s.jobs| == 2
    ensures var en := s.jobs[0];
      && en.doc.status.Pending? && en.doc.scheduledAt == 0 && en.doc.cron == cron && en.doc.key == "t"
      && en.log.fires == [Fire(0, 0)] && en.log.queuedSweeps == 1
    ensures s.jobs[1].doc.status.Queued? && s.jobs[1].doc.key == InstanceKey("t", 0)
  {
    hide Led, InstanceKey;
    var k;
    ls, s := Created(c, cron, 0, 0);
    ls, s, k := FireNow(c, cron, 0, 0, ls, s);
    ls, s := Go(c, Empty(0), ls, s, RescheduleLost(k));
    ls, s := WaitUntil(c, Empty(0), ls, s, c.queuedTimeout);
    ls, s := Go(c, Empty(0), ls, s, SweepQueued(0, s.clock, s.clock));
  }

  /** The recovery from a lost reschedule fires the same occurrence a second time.  By
      OccurrencesFireOnce it takes a sweep of the template for that. */
  lemma LostRescheduleFiresTwice(c: Config, cron: string) returns (ls: seq<Label>)
    requires cron != "" && c.parses(cron) && c.queuedTimeout > 0
    ensures Throughout(c, Empty(0), ls, Taken)
    ensures var s := Run(c, Empty(0), ls); |s.jobs| == 3 && var en := s.jobs[0];
      && en.doc.Template() && en.log.queuedSweeps == 1
      && en.log.fires == [Fire(0, 0), Fire(0, c.queuedTimeout)]
  {
    hide Step, Taken, Throughout, InstanceKey;
    var s;
    ls, s := FiredThenSwept(c, cron);
    ls, s := ClaimNow(c, Empty(0), ls, s, 0);
    ShortKey(s.clock);
    InstantsDiffer("t", s.clock, 0);
    ls, s := SpawnNow(c, Empty(0), ls, s, |s.claims| - 1);
  }
}
