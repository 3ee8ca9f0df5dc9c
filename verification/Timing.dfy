/** The guarantees the design rests on time for.  MarkRunning, MarkCompleted and MarkFailed filter
    on `_id` only, so they are safe only while the execution that makes them has not been swept.
    [T]: each write of an execution reaches the store less than ClaimTimeout after the stamp of
    its previous one; an execution that is later writes nothing more.  Documents are independent, so
    a guarantee about one job asks [T] of the executions of that job only. */
module Timing {
  import opened Types
  import opened Documents
  import opened Lifecycle
  import opened System
  import opened Safety

  /** [T], asked of one step as far as it concerns job `id`. */
  predicate InTime(c: Config, s: Sys, l: Label, id: nat) {
    (l.Start? || l.Finish? || l.WriteFail?) && l.exec < |s.execs| && s.execs[l.exec].job == id ==>
      s.clock < s.execs[l.exec].lease + c.claimTimeout
  }

  /** [T] for job `id`, of runs. */
  function TimelyFor(id: nat): (Config, Sys, Label) -> bool {
    (c: Config, s: Sys, l: Label) => InTime(c, s, l, id)
  }

  /** [T] for every job. */
  predicate Timely(c: Config, s: Sys, l: Label) {
    (l.Start? || l.Finish? || l.WriteFail?) && l.exec < |s.execs| ==>
      s.clock < s.execs[l.exec].lease + c.claimTimeout
  }

  /** The step can be taken, and is in time. */
  predicate Taken(c: Config, s: Sys, l: Label) { Enabled(c, s, l) && Timely(c, s, l) }

  /** Steps that are all in time keep a state that is reachable in time so. */
  lemma TakenStaysTimely(c: Config, s: Sys, ls: seq<Label>, id: nat)
    requires ReachableBy(c, s, TimelyFor(id)) && Throughout(c, s, ls, Taken)
    ensures ReachableBy(c, Run(c, s, ls), TimelyFor(id))
  {
    hide Run, Enabled;
    forall k | 0 <= k < |ls| ensures TimelyFor(id)(c, At(c, s, ls, k), ls[k]) {
      assert Taken(c, At(c, s, ls, k), ls[k]);
    }
    RunReachableBy(c, s, ls, TimelyFor(id));
  }

  lemma EmptyIsTimely(c: Config, clock: Time, id: nat)
    ensures ReachableBy(c, Empty(clock), TimelyFor(id))
  {
    assert Throughout(c, Empty(clock), [], TimelyFor(id)) && Run(c, Empty(clock), []) == Empty(clock);
  }

  /** Execution x has won its job, is not done with it, and may still write. */
  predicate Live(c: Config, clock: Time, x: Exec) {
    x.Working() && clock < x.lease + c.claimTimeout
  }

  ghost predicate OneOffOk(clock: Time, en: Entry) {
    !en.doc.Template() ==>
      && Balanced(en) && Bounded(en)
      && (en.doc.status.Queued? || en.doc.status.Executing() ==> en.doc.scheduledAt <= clock)
  }

  /** A live execution owns its job, whose document is as it left it. */
  ghost predicate LiveOk(c: Config, s: Sys, e: nat)
    requires e < |s.execs| && s.execs[e].job < |s.jobs|
  {
    var x, en := s.execs[e], s.jobs[s.execs[e].job];
    Live(c, s.clock, x) ==>
      && en.log.owner == Some(e)
      && en.doc.status == (if x.phase.Won? then Claimed else Running)
      && en.doc.updatedAt == x.lease
      && (x.phase.Failing? ==> x.phase.read.attempts == en.doc.attempts)
  }

  /** A snapshot never runs ahead of the store, and a DLQ message is due or sent only for a job
      that this execution dead-lettered. */
  ghost predicate AfterOk(s: Sys, e: nat)
    requires e < |s.execs| && s.execs[e].job < |s.jobs|
  {
    var x, en := s.execs[e], s.jobs[s.execs[e].job];
    && 0 <= x.snap.attempts <= en.doc.attempts
    && (x.phase.Exhausted? || x.phase.Published? ==> en.doc.status.Dlq? && en.log.owner == Some(e))
  }

  /** A message for job `id` was sent by the execution that owns it. */
  ghost predicate SentByOwner(s: Sys, id: nat) {
    && id < |s.jobs|
    && var g := s.jobs[id].log;
       g.owner.Some? && g.owner.value < |s.execs|
       && s.execs[g.owner.value].phase.Published? && s.execs[g.owner.value].job == id
  }

  /** The messages for job `id`: sent by its owner, at most one, and one if an execution has sent it. */
  ghost predicate DlqOk(s: Sys, id: nat) {
    && (id in s.dlq ==> SentByOwner(s, id))
    && (forall m, n :: 0 <= m < n < |s.dlq| && s.dlq[m] == id ==> s.dlq[n] != id)
    && (forall e :: 0 <= e < |s.execs| && s.execs[e].job == id && s.execs[e].phase.Published? ==> id in s.dlq)
  }

  ghost predicate TimelyInv(c: Config, s: Sys, id: nat) {
    && Inv(c, s)
    && (id < |s.jobs| ==> OneOffOk(s.clock, s.jobs[id]))
    && (forall e :: 0 <= e < |s.execs| && s.execs[e].job == id ==> id < |s.jobs| && LiveOk(c, s, e) && AfterOk(s, e))
    && DlqOk(s, id)
  }

  /** Under [T] every write of a one-off job meets the status it expects. */
  lemma WritesAreExpected(c: Config, s: Sys, l: Label, id: nat)
    requires TimelyInv(c, s, id) && InTime(c, s, l, id)
    requires id < |s.jobs| && !s.jobs[id].doc.Template() && WritesTo(c, s, l, id)
    ensures Expected(s.jobs[id].doc, WriteOf(c, s, l).value.1)
  {
    assert forall k :: 0 <= k < |s.claims| ==> ClaimOk(s, s.claims[k]);
    assert forall e :: 0 <= e < |s.execs| ==> ExecOk(s, s.execs[e]);
    assert forall e :: 0 <= e < |s.execs| && s.execs[e].job == id ==> LiveOk(c, s, e);
  }

  /** Only a claim moves a job into the queue, and only a due one. */
  lemma QueuedIsDue(c: Config, s: Sys, l: Label, id: nat)
    requires WritesTo(c, s, l, id) && WriteOf(c, s, l).value.1.SetQueued?
    ensures id < |s.jobs| && s.jobs[id].doc.scheduledAt <= s.clock
  {
  }

  lemma OneOffStep(c: Config, s: Sys, l: Label, id: nat)
    requires TimelyInv(c, s, id) && InTime(c, s, l, id) && id < |Step(c, s, l).jobs|
    ensures OneOffOk(Step(c, s, l).clock, Step(c, s, l).jobs[id])
  {
    hide Step, WriteOf;
    StepMovesOn(c, s, l);
    if id < |s.jobs| {
      JobAfter(c, s, l, id);
      if WritesTo(c, s, l, id) && !s.jobs[id].doc.Template() {
        var w := WriteOf(c, s, l).value.1;
        WritesAreExpected(c, s, l, id);
        ExpectedWriteBalances(s.jobs[id], w, s.clock);
        ExpectedWriteStaysBounded(s.jobs[id], w, s.clock);
        if w.SetQueued? { QueuedIsDue(c, s, l, id); }
      }
    } else {
      BornOk(c, s, l, id);
    }
  }

  lemma BornOk(c: Config, s: Sys, l: Label, id: nat)
    requires Inv(c, s) && |s.jobs| <= id < |Step(c, s, l).jobs|
    ensures OneOffOk(s.clock, Step(c, s, l).jobs[id])
  {
    hide Step;
    BornAfter(c, s, l, id);
    var d := Step(c, s, l).jobs[id].doc;
    if l.Spawn? {
      assert ClaimOk(s, s.claims[l.claim]) && EntryOk(c, s.clock, s.jobs[s.claims[l.claim].id]);
    }
    if !d.Template() {
      BornBalanced(d, Step(c, s, l).jobs[id].log.parent, s.clock);
    }
  }

  /** Someone else's write never reaches the document of a live execution. */
  lemma LiveIsAlone(c: Config, s: Sys, l: Label, id: nat, e: nat)
    requires TimelyInv(c, s, id) && InTime(c, s, l, id) && e < |s.execs| && s.execs[e].job == id
    requires Live(c, s.clock, s.execs[e]) && !l.ByExec(e)
    ensures !WritesTo(c, s, l, id)
  {
    assert ExecOk(s, s.execs[e]);
    assert forall f :: 0 <= f < |s.execs| && s.execs[f].job == id ==> LiveOk(c, s, f);
    if WritesTo(c, s, l, id) {
      WritesAreExpected(c, s, l, id);
    }
  }

  lemma LiveStep(c: Config, s: Sys, l: Label, id: nat, e: nat)
    requires TimelyInv(c, s, id) && InTime(c, s, l, id) && e < |s.execs| && s.execs[e].job == id
    ensures var t := Step(c, s, l); e < |t.execs| && t.execs[e].job == id < |t.jobs| && LiveOk(c, t, e)
  {
    hide Step;
    ExecAfter(c, s, l, e);
    JobAfter(c, s, l, id);
    assert LiveOk(c, s, e);
    if !l.ByExec(e) && Live(c, s.clock, s.execs[e]) {
      LiveIsAlone(c, s, l, id, e);
    }
  }

  /** Attempts are never taken back, and a dead-lettered job is not written again. */
  lemma AttemptsKept(c: Config, s: Sys, l: Label, id: nat)
    requires TimelyInv(c, s, id) && InTime(c, s, l, id) && id < |s.jobs| && !s.jobs[id].doc.Template()
    ensures var t := Step(c, s, l);
      && id < |t.jobs| && s.jobs[id].doc.attempts <= t.jobs[id].doc.attempts
      && (s.jobs[id].doc.status.Terminal() ==> !WritesTo(c, s, l, id) && t.jobs[id] == s.jobs[id])
  {
    hide Step, WriteOf, Put, Note;
    JobAfter(c, s, l, id);
    assert forall k :: 0 <= k < |s.claims| ==> ClaimOk(s, s.claims[k]);
    if WritesTo(c, s, l, id) {
      WritesAreExpected(c, s, l, id);
      ExpectedKeepsAttempts(s.jobs[id].doc, WriteOf(c, s, l).value.1);
    }
  }

  lemma AfterStep(c: Config, s: Sys, l: Label, id: nat, e: nat)
    requires TimelyInv(c, s, id) && InTime(c, s, l, id) && e < |s.execs| && s.execs[e].job == id
    ensures var t := Step(c, s, l); e < |t.execs| && t.execs[e].job == id < |t.jobs| && AfterOk(t, e)
  {
    hide Step;
    assert AfterOk(s, e) && LiveOk(c, s, e) && ExecOk(s, s.execs[e]);
    ExecAfter(c, s, l, e);
    JobAfter(c, s, l, id);
    AttemptsKept(c, s, l, id);
  }

  lemma NewExecStep(c: Config, s: Sys, l: Label, id: nat, e: nat)
    requires TimelyInv(c, s, id) && |s.execs| <= e < |Step(c, s, l).execs| && Step(c, s, l).execs[e].job == id
    ensures var t := Step(c, s, l); id < |t.jobs| && LiveOk(c, t, e) && AfterOk(t, e) && !t.execs[e].phase.Published?
  {
    hide Step;
    NewExecAfter(c, s, l, e);
    JobAfter(c, s, l, id);
    assert OneOffOk(s.clock, s.jobs[id]) && OneOff(s.jobs, id);
  }

  lemma DlqAfter(c: Config, s: Sys, l: Label)
    ensures Step(c, s, l).dlq == if Enabled(c, s, l) && l.PublishDlq? then s.dlq + [s.execs[l.exec].job] else s.dlq
  {
  }

  /** A message already on the DLQ topic keeps its sender. */
  lemma SentStaysSent(c: Config, s: Sys, l: Label, id: nat)
    requires TimelyInv(c, s, id) && InTime(c, s, l, id) && id in s.dlq
    ensures SentByOwner(Step(c, s, l), id)
  {
    hide Step, WritesTo;
    var e := s.jobs[id].log.owner.value;
    assert AfterOk(s, e) && ExecOk(s, s.execs[e]);
    ExecAfter(c, s, l, e);
    AttemptsKept(c, s, l, id);
  }

  /** The execution that owns a dead-lettered job sends its message. */
  lemma OwnerSends(c: Config, s: Sys, l: Label, id: nat)
    requires TimelyInv(c, s, id) && InTime(c, s, l, id)
    requires Enabled(c, s, l) && l.PublishDlq? && s.execs[l.exec].job == id
    ensures SentByOwner(Step(c, s, l), id) && id !in s.dlq
  {
    hide Step, WritesTo;
    assert AfterOk(s, l.exec) && ExecOk(s, s.execs[l.exec]);
    ExecAfter(c, s, l, l.exec);
    AttemptsKept(c, s, l, id);
  }

  lemma DlqStep(c: Config, s: Sys, l: Label, id: nat)
    requires TimelyInv(c, s, id) && InTime(c, s, l, id)
    ensures DlqOk(Step(c, s, l), id)
  {
    hide Step;
    var t := Step(c, s, l);
    DlqAfter(c, s, l);
    if id in s.dlq { SentStaysSent(c, s, l, id); }
    if Enabled(c, s, l) && l.PublishDlq? && s.execs[l.exec].job == id { OwnerSends(c, s, l, id); }
    forall e | 0 <= e < |t.execs| && t.execs[e].job == id && t.execs[e].phase.Published? ensures id in t.dlq {
      if e < |s.execs| {
        ExecAfter(c, s, l, e);
        if id in s.dlq { assert id in t.dlq; }
      } else {
        NewExecStep(c, s, l, id, e);
      }
    }
  }

  lemma TimelyInvStep(c: Config, s: Sys, l: Label, id: nat)
    requires TimelyInv(c, s, id) && InTime(c, s, l, id)
    ensures TimelyInv(c, Step(c, s, l), id)
  {
    hide Step, Inv, OneOffOk, LiveOk, AfterOk, DlqOk, InTime;
    var t := Step(c, s, l);
    InvStep(c, s, l);
    if id < |t.jobs| { OneOffStep(c, s, l, id); }
    forall e | 0 <= e < |t.execs| && t.execs[e].job == id
      ensures id < |t.jobs| && LiveOk(c, t, e) && AfterOk(t, e)
    {
      if e < |s.execs| {
        JobKept(c, s, l, e);
        LiveStep(c, s, l, id, e);
        AfterStep(c, s, l, id, e);
      } else {
        NewExecStep(c, s, l, id, e);
      }
    }
    DlqStep(c, s, l, id);
  }

  lemma JobKept(c: Config, s: Sys, l: Label, e: nat)
    requires e < |s.execs|
    ensures e < |Step(c, s, l).execs| && Step(c, s, l).execs[e].job == s.execs[e].job
  {
    hide Step;
    ExecAfter(c, s, l, e);
  }

  lemma {:induction false} TimelyInvRun(c: Config, s: Sys, ls: seq<Label>, id: nat)
    requires TimelyInv(c, s, id) && Throughout(c, s, ls, TimelyFor(id))
    ensures TimelyInv(c, Run(c, s, ls), id)
  {
    hide Step, TimelyInv, InTime;
    if ls != [] {
      ThroughoutPrefix(c, s, ls, TimelyFor(id), |ls| - 1);
      TimelyInvRun(c, s, ls[..|ls| - 1], id);
      TimelyInvStep(c, Run(c, s, ls[..|ls| - 1]), ls[|ls| - 1], id);
    }
  }

  /** Every state of every run that is timely for the job. */
  lemma TimelyReachableInv(c: Config, s: Sys, id: nat)
    requires ReachableBy(c, s, TimelyFor(id))
    ensures TimelyInv(c, s, id)
  {
    hide Run, InTime;
    var clock: Time, ls: seq<Label> :|
      Throughout(c, Empty(clock), ls, TimelyFor(id)) && s == Run(c, Empty(clock), ls);
    TimelyInvRun(c, Empty(clock), ls, id);
  }
}
