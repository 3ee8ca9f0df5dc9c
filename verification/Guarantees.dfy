/** What the scheduler promises about a job in every run that is timely for it. */
module Guarantees {
  import opened Types
  import opened Lifecycle
  import opened System
  import opened Safety
  import opened Timing

  /** At most one execution of a job can still write; while it can, the document says claimed or
      running and no execution sweep, whatever instant its cutoff is taken from, matches it. */
  lemma ExclusiveExecution(c: Config, s: Sys, id: nat, e: nat)
    requires ReachableBy(c, s, TimelyFor(id))
    requires e < |s.execs| && s.execs[e].job == id && Live(c, s.clock, s.execs[e])
    ensures id < |s.jobs| && s.jobs[id].doc.status.Executing()
    ensures forall now: Time :: now <= s.clock ==> !StuckExecuting(c, s.jobs[id].doc, now)
    ensures forall f :: 0 <= f < |s.execs| && Live(c, s.clock, s.execs[f]) && s.execs[f].job == id ==> f == e
  {
    TimelyReachableInv(c, s, id);
    assert forall f :: 0 <= f < |s.execs| && s.execs[f].job == id ==> LiveOk(c, s, f);
  }

  // ----- refinement -----

  /** What the step means for document `id` in the abstract machine. */
  function ActionOn(c: Config, s: Sys, l: Label, id: nat): Action {
    if WritesTo(c, s, l, id) then ActionOf(WriteOf(c, s, l).value.1) else Stutter
  }

  /** Messages, deliveries, lost claims, the start of a handler, reads and time. */
  predicate Invisible(l: Label) {
    l.Tick? || l.Publish? || l.Deliver? || l.Lose? || l.Start? || l.ReadForFail? || l.PublishDlq?
  }

  /** What kind of write a kind of step makes. */
  lemma KindsOfWrite(c: Config, s: Sys, l: Label, id: nat)
    requires WritesTo(c, s, l, id)
    ensures var w := WriteOf(c, s, l).value.1;
      && (w.Sweep() <==> l.SweepQueued? || l.SweepExecution?)
      && (w.SetCompleted? <==> l.Finish?)
      && (Invisible(l) ==> w.SetRunning?)
  {
  }

  /** Every run maps step by step to the five-state machine, on every one-off job it is timely for:
      on each such job a step is one action of the machine or nothing, and it is nothing for
      messages, deliveries, lost claims, the start of a handler, reads and time. */
  lemma Refinement(c: Config, s: Sys, l: Label, id: nat)
    requires ReachableBy(c, s, TimelyFor(id)) && InTime(c, s, l, id)
    requires id < |s.jobs| && !s.jobs[id].doc.Template()
    ensures var t := Step(c, s, l);
      && id < |t.jobs| && !t.jobs[id].doc.Template()
      && LifeStep(LifeOf(s.jobs[id].doc), ActionOn(c, s, l, id), LifeOf(t.jobs[id].doc))
      && (Invisible(l) ==> LifeOf(t.jobs[id].doc) == LifeOf(s.jobs[id].doc))
  {
    hide Step, WriteOf, InTime, TimelyInv;
    TimelyReachableInv(c, s, id);
    JobAfter(c, s, l, id);
    if WritesTo(c, s, l, id) {
      KindsOfWrite(c, s, l, id);
      WritesAreExpected(c, s, l, id);
      ExpectedWriteRefines(s.jobs[id].doc, WriteOf(c, s, l).value.1);
    }
  }

  /** Jobs enter the machine waiting or in the queue, with no attempt spent and at least one to
      spend. */
  lemma RefinementStart(c: Config, s: Sys, l: Label, id: nat)
    requires Reachable(c, s) && |s.jobs| <= id < |Step(c, s, l).jobs|
    ensures var a := LifeOf(Step(c, s, l).jobs[id].doc);
            (a.stage.Waiting? || a.stage.InQueue?) && a.attempts == 0 && a.maxAttempts >= 1
  {
    hide Step;
    ReachableInv(c, s);
    BornAfter(c, s, l, id);
    EntryStep(c, s, l, id);
  }

  // ----- ledger and potential -----

  /** In every timely run the books of every one-off job balance, its attempts stay within bounds
      and reach MaxAttempts exactly when it is dead-lettered, and with s sweeps it makes at most
      4 * (MaxAttempts + s) transitions. */
  lemma LedgerConservation(c: Config, s: Sys, id: nat)
    requires ReachableBy(c, s, TimelyFor(id)) && id < |s.jobs| && !s.jobs[id].doc.Template()
    ensures Balanced(s.jobs[id])
    ensures Potential(s.jobs[id].doc) >= 0
    ensures s.jobs[id].log.Transitions() <= 4 * (s.jobs[id].doc.maxAttempts + s.jobs[id].log.Sweeps())
  {
    TimelyReachableInv(c, s, id);
    assert OneOffOk(s.clock, s.jobs[id]);
  }

  /** The potential of a one-off job falls by exactly one on every write but a completion, which
      ends it, and a sweep, which raises it by one to three. */
  lemma ProgressPotential(c: Config, s: Sys, l: Label, id: nat)
    requires ReachableBy(c, s, TimelyFor(id)) && InTime(c, s, l, id)
    requires id < |s.jobs| && !s.jobs[id].doc.Template()
    ensures id < |Step(c, s, l).jobs|
    ensures var p, q := Potential(s.jobs[id].doc), Potential(Step(c, s, l).jobs[id].doc);
      if !WritesTo(c, s, l, id) then q == p
      else if l.SweepQueued? || l.SweepExecution? then p < q <= p + 3
      else if l.Finish? then p >= 1 && q == 0
      else q == p - 1
  {
    hide Step, WriteOf, InTime;
    TimelyReachableInv(c, s, id);
    JobAfter(c, s, l, id);
    if WritesTo(c, s, l, id) {
      KindsOfWrite(c, s, l, id);
      WritesAreExpected(c, s, l, id);
      PotentialStep(s.jobs[id], WriteOf(c, s, l).value.1);
    }
  }

  // ----- completed and dead-lettered jobs -----

  /** A completed or dead-lettered one-off job is final in every timely continuation: nothing in its
      document changes again, and by its history no claim is won and no handler started for it. */
  lemma {:induction false} TerminalIsFinal(c: Config, s: Sys, ls: seq<Label>, id: nat)
    requires ReachableBy(c, s, TimelyFor(id)) && Throughout(c, s, ls, TimelyFor(id))
    requires id < |s.jobs| && !s.jobs[id].doc.Template() && s.jobs[id].doc.status.Terminal()
    ensures id < |Run(c, s, ls).jobs| && Run(c, s, ls).jobs[id] == s.jobs[id]
  {
    hide Step, InTime, TimelyInv, ReachableBy, WritesTo;
    if ls != [] {
      var init := ls[..|ls| - 1];
      ThroughoutPrefix(c, s, ls, TimelyFor(id), |ls| - 1);
      TerminalIsFinal(c, s, init, id);
      TimelyReachableInv(c, s, id);
      TimelyInvRun(c, s, init, id);
      AttemptsKept(c, Run(c, s, init), ls[|ls| - 1], id);
    }
  }

  // ----- the DLQ topic -----

  /** A message on the DLQ topic names a one-off job stored as dead-lettered, and it is the only one
      that names it. */
  lemma DlqTopicSound(c: Config, s: Sys, id: nat)
    requires ReachableBy(c, s, TimelyFor(id)) && id in s.dlq
    ensures id < |s.jobs| && s.jobs[id].doc.status.Dlq? && !s.jobs[id].doc.Template()
    ensures forall m, n :: 0 <= m < n < |s.dlq| && s.dlq[m] == id ==> s.dlq[n] != id
  {
    TimelyReachableInv(c, s, id);
    var e := s.jobs[id].log.owner.value;
    assert AfterOk(s, e) && ExecOk(s, s.execs[e]);
  }

  ghost predicate HasExec(s: Sys, id: nat, phase: Phase) {
    exists e :: 0 <= e < |s.execs| && s.execs[e].job == id && s.execs[e].phase == phase
  }

  /** The topic names the job if and only if one of its executions has published. */
  lemma AnnouncedIffPublished(c: Config, s: Sys, id: nat)
    requires ReachableBy(c, s, TimelyFor(id))
    ensures id in s.dlq <==> HasExec(s, id, Published)
  {
    TimelyReachableInv(c, s, id);
    if id in s.dlq {
      assert s.execs[s.jobs[id].log.owner.value].phase == Published;
    }
  }

  /** The job is dead-lettered and nothing on the topic, or on its way there, says so. */
  ghost predicate Silent(s: Sys, id: nat) {
    && id < |s.jobs| && !s.jobs[id].doc.Template() && s.jobs[id].doc.status.Dlq?
    && id !in s.dlq && !HasExec(s, id, Exhausted)
  }

  lemma SilentStep(c: Config, s: Sys, l: Label, id: nat)
    requires TimelyInv(c, s, id) && InTime(c, s, l, id) && Silent(s, id)
    ensures Silent(Step(c, s, l), id)
  {
    hide Step, WritesTo;
    var t := Step(c, s, l);
    AttemptsKept(c, s, l, id);
    DlqAfter(c, s, l);
    forall e | 0 <= e < |t.execs| && t.execs[e].job == id ensures t.execs[e].phase != Exhausted {
      if e < |s.execs| { ExecAfter(c, s, l, e); } else { NewExecAfter(c, s, l, e); }
    }
  }

  lemma {:induction false} SilentRun(c: Config, s: Sys, ls: seq<Label>, id: nat)
    requires TimelyInv(c, s, id) && Throughout(c, s, ls, TimelyFor(id)) && Silent(s, id)
    ensures Silent(Run(c, s, ls), id)
  {
    hide Step, InTime, TimelyInv, Silent;
    if ls != [] {
      var init := ls[..|ls| - 1];
      ThroughoutPrefix(c, s, ls, TimelyFor(id), |ls| - 1);
      SilentRun(c, s, init, id);
      TimelyInvRun(c, s, init, id);
      SilentStep(c, Run(c, s, init), ls[|ls| - 1], id);
    }
  }

  /** Some timely continuation puts a message for the job on the DLQ topic, or it is there already. */
  ghost predicate MayBeAnnounced(c: Config, s: Sys, id: nat) {
    exists ls: seq<Label> :: Throughout(c, s, ls, TimelyFor(id)) && id in Run(c, s, ls).dlq
  }

  lemma AnnouncedLater(c: Config, s: Sys, id: nat)
    requires TimelyInv(c, s, id)
    requires id < |s.jobs| && !s.jobs[id].doc.Template() && s.jobs[id].doc.status.Dlq?
    ensures MayBeAnnounced(c, s, id) <==> id in s.dlq || HasExec(s, id, Exhausted)
  {
    hide Step, InTime, TimelyInv;
    if id in s.dlq {
      assert Throughout(c, s, [], TimelyFor(id)) && Run(c, s, []) == s;
    } else if HasExec(s, id, Exhausted) {
      var e :| 0 <= e < |s.execs| && s.execs[e].job == id && s.execs[e].phase == Exhausted;
      var l := PublishDlq(e);
      SendsNow(c, s, e);
      Snoc(c, s, [], l, TimelyFor(id));
      assert [] + [l] == [l];
      assert id in Run(c, s, [l]).dlq;
    } else if MayBeAnnounced(c, s, id) {
      var ls :| Throughout(c, s, ls, TimelyFor(id)) && id in Run(c, s, ls).dlq;
      SilentRun(c, s, ls, id);
    }
  }

  lemma SendsNow(c: Config, s: Sys, e: nat)
    requires e < |s.execs| && s.execs[e].phase.Exhausted?
    ensures Enabled(c, s, PublishDlq(e)) && InTime(c, s, PublishDlq(e), s.execs[e].job)
    ensures Step(c, s, PublishDlq(e)).dlq == s.dlq + [s.execs[e].job]
  {
  }

  /** A dead-lettered job can still get a DLQ message if and only if an execution of it is about to
      send one.  If none is and none has, the job stays silent in every timely continuation. */
  lemma SilenceIsFinal(c: Config, s: Sys, id: nat)
    requires ReachableBy(c, s, TimelyFor(id))
    requires id < |s.jobs| && !s.jobs[id].doc.Template() && s.jobs[id].doc.status.Dlq?
    ensures MayBeAnnounced(c, s, id) <==> id in s.dlq || HasExec(s, id, Exhausted)
  {
    TimelyReachableInv(c, s, id);
    AnnouncedLater(c, s, id);
  }

  /** No execution but the one failing has a message to send. */
  lemma NobodyElseSends(c: Config, s: Sys, l: Label, id: nat, e: nat)
    requires TimelyInv(c, s, id) && id < |s.jobs| && !s.jobs[id].doc.status.Dlq?
    requires e < |Step(c, s, l).execs| && !l.ByExec(e) && Step(c, s, l).execs[e].job == id
    ensures Step(c, s, l).execs[e].phase != Exhausted
  {
    hide Step;
    if e < |s.execs| {
      ExecAfter(c, s, l, e);
      assert AfterOk(s, e);
    } else {
      NewExecAfter(c, s, l, e);
    }
  }

  /** The write that dead-letters a job leaves a message to send exactly when the snapshot was up to
      date, and no other execution has one. */
  lemma AnnouncedIffFresh(c: Config, s: Sys, l: Label, id: nat)
    requires TimelyInv(c, s, id) && InTime(c, s, l, id)
    requires l.WriteFail? && Enabled(c, s, l) && s.execs[l.exec].job == id
    requires Step(c, s, l).jobs[id].doc.status.Dlq?
    ensures var t := Step(c, s, l);
      && id < |t.jobs| && !t.jobs[id].doc.Template() && id !in t.dlq
      && (HasExec(t, id, Exhausted) <==> s.execs[l.exec].snap.attempts == s.jobs[id].doc.attempts)
      && (t.execs[l.exec].phase.Exhausted? <==> HasExec(t, id, Exhausted))
  {
    hide Step;
    var t := Step(c, s, l);
    JobAfter(c, s, l, id);
    DlqAfter(c, s, l);
    assert ExecOk(s, s.execs[l.exec]) && LiveOk(c, s, l.exec) && AfterOk(s, l.exec);
    forall e | 0 <= e < |t.execs| && e != l.exec && t.execs[e].job == id ensures t.execs[e].phase != Exhausted {
      NobodyElseSends(c, s, l, id, e);
    }
    ExecAfter(c, s, l, l.exec);
  }

  /** Not every dead-lettered job gets a message: whether to send one is judged on the snapshot taken
      before the claim.  When a failing write dead-letters the job, a message for it reaches the topic
      in some timely continuation if and only if that snapshot carried all the attempts stored. */
  lemma DlqMessageIffFreshSnapshot(c: Config, s: Sys, l: Label, id: nat)
    requires ReachableBy(c, s, TimelyFor(id)) && InTime(c, s, l, id)
    requires l.WriteFail? && Enabled(c, s, l) && s.execs[l.exec].job == id
    requires Step(c, s, l).jobs[id].doc.status.Dlq?
    ensures id !in Step(c, s, l).dlq
    ensures MayBeAnnounced(c, Step(c, s, l), id) <==> s.execs[l.exec].snap.attempts == s.jobs[id].doc.attempts
  {
    hide Step, TimelyInv;
    TimelyReachableInv(c, s, id);
    AnnouncedIffFresh(c, s, l, id);
    TimelyInvStep(c, s, l, id);
    AnnouncedLater(c, Step(c, s, l), id);
  }
}
