/** What holds in every reachable state whatever the timing: nothing here assumes that executions
    are quick, that one scheduler leads, or that messages arrive once. */
module Safety {
  import opened Types
  import opened Documents
  import opened System

  // ----- growth: documents are never removed and their identity never changes -----

  ghost predicate Grows(a: Sys, b: Sys) {
    && a.clock <= b.clock
    && |a.jobs| <= |b.jobs|
    && forall i :: 0 <= i < |a.jobs| ==> SameJob(a.jobs[i].doc, b.jobs[i].doc)
  }

  lemma StepGrows(c: Config, s: Sys, l: Label)
    ensures Grows(s, Step(c, s, l))
  {
    hide Step;
    StepMovesOn(c, s, l);
    forall i | 0 <= i < |s.jobs| ensures SameJob(s.jobs[i].doc, Step(c, s, l).jobs[i].doc) {
      JobAfter(c, s, l, i);
    }
  }

  lemma StepMovesOn(c: Config, s: Sys, l: Label)
    ensures s.clock <= Step(c, s, l).clock && |s.jobs| <= |Step(c, s, l).jobs|
  {
  }

  // ----- one document -----

  /** A template is only ever waiting, queued or dead-lettered; it never collects an attempt; it is
      dead-lettered only if its expression does not parse; and every claim of it is paid for. */
  ghost predicate TemplateOk(c: Config, clock: Time, en: Entry) {
    var d, g := en.doc, en.log;
    d.Template() ==>
      && (d.status.Pending? || d.status.Queued? || d.status.Dlq?)
      && d.attempts == 0
      && (d.status.Dlq? ==> !c.parses(d.cron))
      && (d.status.Queued? ==> d.scheduledAt <= clock)
      && g.claims <= g.reschedules + g.deadLetters + g.queuedSweeps + One(d.status.Queued?)
      && g.parent.None?
  }

  ghost predicate EntryOk(c: Config, clock: Time, en: Entry) {
    && TemplateOk(c, clock, en)
    && en.doc.maxAttempts >= 1 && !en.doc.status.Failed?
    && en.log.touched <= clock
    && en.doc.updatedAt <= clock
  }

  // ----- the rest of the state refers to documents of the right kind -----

  ghost predicate OneOff(jobs: seq<Entry>, id: nat) {
    id < |jobs| && !jobs[id].doc.Template()
  }

  ghost predicate ClaimOk(s: Sys, k: Claim) {
    && k.id < |s.jobs| && SameJob(k.job, s.jobs[k.id].doc)
    && k.at <= s.clock
    && k.job.scheduledAt <= k.at
    && (!k.progress.Held? ==> k.job.Template() && OneOff(s.jobs, k.progress.inst))
  }

  ghost predicate ExecOk(s: Sys, x: Exec) {
    && OneOff(s.jobs, x.job)
    && SameJob(x.snap, s.jobs[x.job].doc)
    && x.fetched <= x.at <= s.clock
    && x.lease <= s.clock
    && (x.phase.Failing? ==> SameJob(x.phase.read, s.jobs[x.job].doc))
  }

  ghost predicate UniqueKeys(jobs: seq<Entry>) {
    forall i, j :: 0 <= i < j < |jobs| ==> jobs[i].doc.key != jobs[j].doc.key
  }

  ghost predicate ParentsExist(jobs: seq<Entry>) {
    forall i :: 0 <= i < |jobs| && jobs[i].log.parent.Some? ==> jobs[i].log.parent.value < |jobs|
  }

  ghost predicate Inv(c: Config, s: Sys) {
    && (forall i :: 0 <= i < |s.jobs| ==> EntryOk(c, s.clock, s.jobs[i]))
    && (forall k :: 0 <= k < |s.claims| ==> ClaimOk(s, s.claims[k]))
    && (forall e :: 0 <= e < |s.execs| ==> ExecOk(s, s.execs[e]))
    && (forall id :: id in s.topic ==> OneOff(s.jobs, id))
    && ParentsExist(s.jobs)
    && UniqueKeys(s.jobs)
  }

  /** What may be written to a document that is a template. */
  lemma TemplateWrites(c: Config, s: Sys, l: Label, id: nat)
    requires Inv(c, s) && id < |s.jobs| && s.jobs[id].doc.Template() && WritesTo(c, s, l, id)
    ensures l.ClaimOne? || l.Reschedule? || l.DeadLetter? || l.SweepQueued?
    ensures l.ClaimOne? ==> Due(s.jobs[id].doc, s.clock)
    ensures l.Reschedule? ==> c.parses(s.jobs[id].doc.cron)
    ensures l.DeadLetter? ==> !c.parses(s.jobs[id].doc.cron)
    ensures l.SweepQueued? ==> s.jobs[id].doc.status.Queued?
  {
    assert EntryOk(c, s.clock, s.jobs[id]);
    assert forall k :: 0 <= k < |s.claims| ==> ClaimOk(s, s.claims[k]);
    assert forall e :: 0 <= e < |s.execs| ==> ExecOk(s, s.execs[e]);
  }

  lemma StampsAreRead(c: Config, s: Sys, l: Label, id: nat)
    requires WritesTo(c, s, l, id)
    ensures id < |s.jobs| && Put(s.jobs[id].doc, WriteOf(c, s, l).value.1).updatedAt <= s.clock
    ensures Put(s.jobs[id].doc, WriteOf(c, s, l).value.1).status != Failed
  {
  }

  lemma EntryKept(c: Config, s: Sys, l: Label, id: nat)
    requires Inv(c, s) && id < |s.jobs|
    ensures id < |Step(c, s, l).jobs| && EntryOk(c, Step(c, s, l).clock, Step(c, s, l).jobs[id])
  {
    hide Step;
    JobAfter(c, s, l, id);
    assert EntryOk(c, s.clock, s.jobs[id]);
    if WritesTo(c, s, l, id) {
      StampsAreRead(c, s, l, id);
      if s.jobs[id].doc.Template() { TemplateWrites(c, s, l, id); }
    }
  }

  lemma EntryStep(c: Config, s: Sys, l: Label, id: nat)
    requires Inv(c, s) && id < |Step(c, s, l).jobs|
    ensures EntryOk(c, Step(c, s, l).clock, Step(c, s, l).jobs[id])
  {
    hide Step;
    StepMovesOn(c, s, l);
    if id < |s.jobs| {
      EntryKept(c, s, l, id);
    } else {
      BornAfter(c, s, l, id);
      if l.Spawn? {
        assert ClaimOk(s, s.claims[l.claim]) && EntryOk(c, s.clock, s.jobs[s.claims[l.claim].id]);
      }
    }
  }

  lemma ClaimStep(c: Config, s: Sys, l: Label, k: nat)
    requires Inv(c, s) && k < |Step(c, s, l).claims|
    ensures ClaimOk(Step(c, s, l), Step(c, s, l).claims[k])
  {
    hide Step;
    StepGrows(c, s, l);
    if k < |s.claims| {
      ClaimAfter(c, s, l, k);
      assert ClaimOk(s, s.claims[k]);
      if Enabled(c, s, l) && l.Spawn? && l.claim == k { SpawnIsBorn(c, s, l); }
    } else {
      NewClaimAfter(c, s, l, k);
    }
  }

  lemma SpawnIsBorn(c: Config, s: Sys, l: Label)
    requires Enabled(c, s, l) && l.Spawn?
    ensures OneOff(Step(c, s, l).jobs, |s.jobs|)
  {
  }

  lemma ExecutionStep(c: Config, s: Sys, l: Label, e: nat)
    requires Inv(c, s) && e < |Step(c, s, l).execs|
    ensures ExecOk(Step(c, s, l), Step(c, s, l).execs[e])
  {
    hide Step;
    StepGrows(c, s, l);
    if e < |s.execs| {
      ExecAfter(c, s, l, e);
      assert ExecOk(s, s.execs[e]);
    } else {
      NewExecAfter(c, s, l, e);
      assert OneOff(s.jobs, l.id);
    }
  }

  lemma TopicStep(c: Config, s: Sys, l: Label, id: nat)
    requires Inv(c, s) && id in Step(c, s, l).topic
    ensures OneOff(Step(c, s, l).jobs, id)
  {
    StepGrows(c, s, l);
    assert forall k :: 0 <= k < |s.claims| ==> ClaimOk(s, s.claims[k]);
  }

  lemma ParentKept(c: Config, s: Sys, l: Label, id: nat)
    requires id < |s.jobs|
    ensures id < |Step(c, s, l).jobs| && Step(c, s, l).jobs[id].log.parent == s.jobs[id].log.parent
  {
    hide Step, WriteOf, Put;
    JobAfter(c, s, l, id);
  }

  lemma ParentsStep(c: Config, s: Sys, l: Label)
    requires Inv(c, s)
    ensures ParentsExist(Step(c, s, l).jobs)
  {
    hide Step;
    var t := Step(c, s, l);
    StepMovesOn(c, s, l);
    forall i | 0 <= i < |t.jobs| && t.jobs[i].log.parent.Some?
      ensures t.jobs[i].log.parent.value < |t.jobs|
    {
      if i < |s.jobs| { ParentKept(c, s, l, i); } else { BornAfter(c, s, l, i); }
    }
  }

  lemma KeysStep(c: Config, s: Sys, l: Label)
    requires UniqueKeys(s.jobs)
    ensures UniqueKeys(Step(c, s, l).jobs)
  {
    hide Step;
    var t := Step(c, s, l);
    StepGrows(c, s, l);
    forall i, j | 0 <= i < j < |t.jobs| ensures t.jobs[i].doc.key != t.jobs[j].doc.key {
      assert i < |s.jobs| ==> SameJob(s.jobs[i].doc, t.jobs[i].doc);
      assert j < |s.jobs| ==> SameJob(s.jobs[j].doc, t.jobs[j].doc);
      if j >= |s.jobs| {
        BornAfter(c, s, l, j);
      }
    }
  }

  lemma InvStep(c: Config, s: Sys, l: Label)
    requires Inv(c, s)
    ensures Inv(c, Step(c, s, l))
  {
    hide Step, EntryOk, ClaimOk, ExecOk, OneOff, ParentsExist, UniqueKeys;
    var t := Step(c, s, l);
    forall i | 0 <= i < |t.jobs| ensures EntryOk(c, t.clock, t.jobs[i]) { EntryStep(c, s, l, i); }
    forall k | 0 <= k < |t.claims| ensures ClaimOk(t, t.claims[k]) { ClaimStep(c, s, l, k); }
    forall e | 0 <= e < |t.execs| ensures ExecOk(t, t.execs[e]) { ExecutionStep(c, s, l, e); }
    forall id | id in t.topic ensures OneOff(t.jobs, id) { TopicStep(c, s, l, id); }
    ParentsStep(c, s, l);
    KeysStep(c, s, l);
  }

  lemma {:induction false} InvRun(c: Config, s: Sys, ls: seq<Label>)
    requires Inv(c, s)
    ensures Inv(c, Run(c, s, ls))
  {
    hide Step, Inv;
    if ls != [] {
      InvRun(c, s, ls[..|ls| - 1]);
      InvStep(c, Run(c, s, ls[..|ls| - 1]), ls[|ls| - 1]);
    }
  }

  lemma InvOfRun(c: Config, clock: Time, ls: seq<Label>)
    ensures Inv(c, Run(c, Empty(clock), ls))
  {
    hide Run;
    InvRun(c, Empty(clock), ls);
  }

  /** Every reachable state. */
  lemma ReachableInv(c: Config, s: Sys)
    requires Reachable(c, s)
    ensures Inv(c, s)
  {
    hide Run;
    var clock: Time, ls: seq<Label> :| s == Run(c, Empty(clock), ls);
    InvRun(c, Empty(clock), ls);
  }
}
