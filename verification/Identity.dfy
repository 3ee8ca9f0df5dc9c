/** What is run is what was asked for: from the request or the template to every delivery. */
module Identity {
  import opened Types
  import opened System
  import opened Safety
  import opened Traces

  /** However the run goes on after a document is created, it carries what the request asked for, and so
      does the snapshot of every delivery of it: the handler chosen is the one asked for, with the
      payload asked for. */
  lemma RunsAsAsked(c: Config, s: Sys, req: CreateRequest, now: Time, ls: seq<Label>)
    requires Reachable(c, s) && Enabled(c, s, Create(req, now))
    ensures var id, t := |s.jobs|, Run(c, Step(c, s, Create(req, now)), ls);
      && id < |t.jobs|
      && var d := t.jobs[id].doc;
      && d.key == req.key && d.tenant == req.tenant && d.jobType == req.jobType && d.payload == req.payload
      && d.priority == req.priority && d.cron == req.cron && d.createdAt == now
      && d.maxAttempts == (if req.maxAttempts <= 0 then 3 else req.maxAttempts)
      && forall e :: 0 <= e < |t.execs| && t.execs[e].job == id ==>
           var x := t.execs[e].snap;
           && x.key == req.key && x.tenant == req.tenant && x.jobType == req.jobType && x.payload == req.payload
           && x.priority == req.priority && x.maxAttempts == d.maxAttempts
  {
    hide Step, Run, Inv;
    var id, r := |s.jobs|, Step(c, s, Create(req, now));
    ReachableInv(c, s);
    InvStep(c, s, Create(req, now));
    InvRun(c, r, ls);
    CreatedIs(c, s, req, now);
    RunRemembers(c, r, [], ls);
    NoStepsTaken(c, r);
    var t := Run(c, r, ls);
    assert SameJob(r.jobs[id].doc, t.jobs[id].doc);
    forall e | 0 <= e < |t.execs| && t.execs[e].job == id ensures SameJob(t.execs[e].snap, t.jobs[id].doc) {
      SnapshotIsOf(c, t, e);
    }
  }

  lemma NoStepsTaken(c: Config, s: Sys)
    ensures Run(c, s, []) == s
  {
  }

  lemma SnapshotIsOf(c: Config, s: Sys, e: nat)
    requires Inv(c, s) && e < |s.execs|
    ensures s.execs[e].job < |s.jobs| && SameJob(s.execs[e].snap, s.jobs[s.execs[e].job].doc)
  {
    assert ExecOk(s, s.execs[e]);
  }

  lemma CreatedIs(c: Config, s: Sys, req: CreateRequest, now: Time)
    requires Enabled(c, s, Create(req, now))
    ensures var t := Step(c, s, Create(req, now)); |t.jobs| == |s.jobs| + 1 && t.jobs[|s.jobs|].doc == NewJob(req, now)
  {
  }

  // ----- instances -----

  /** Two documents that run the same work for the same tenant. */
  predicate SameWork(a: Job, b: Job) {
    && a.tenant == b.tenant && a.jobType == b.jobType && a.payload == b.payload
    && a.priority == b.priority && a.maxAttempts == b.maxAttempts
  }

  /** A spawned document does the work of its template. */
  ghost predicate InheritOk(s: Sys, i: nat)
    requires i < |s.jobs|
  {
    s.jobs[i].log.parent.Some? ==>
      && s.jobs[i].log.parent.value < |s.jobs|
      && SameWork(s.jobs[i].doc, s.jobs[s.jobs[i].log.parent.value].doc)
      && s.jobs[i].doc.cron == ""
  }

  lemma StaysInherited(c: Config, s: Sys, l: Label, i: nat)
    requires i < |s.jobs| && InheritOk(s, i)
    ensures i < |Step(c, s, l).jobs| && InheritOk(Step(c, s, l), i)
  {
    hide Step;
    StepGrows(c, s, l);
    ParentKept(c, s, l, i);
    assert SameJob(s.jobs[i].doc, Step(c, s, l).jobs[i].doc);
    if s.jobs[i].log.parent.Some? {
      var p := s.jobs[i].log.parent.value;
      assert SameJob(s.jobs[p].doc, Step(c, s, l).jobs[p].doc);
    }
  }

  lemma BornInherits(c: Config, s: Sys, l: Label, i: nat)
    requires Inv(c, s) && |s.jobs| <= i < |Step(c, s, l).jobs|
    ensures InheritOk(Step(c, s, l), i)
  {
    hide Step;
    StepGrows(c, s, l);
    BornAfter(c, s, l, i);
    if l.Spawn? {
      assert ClaimOk(s, s.claims[l.claim]);
      assert SameJob(s.jobs[s.claims[l.claim].id].doc, Step(c, s, l).jobs[s.claims[l.claim].id].doc);
    }
  }

  lemma {:induction false} InheritRun(c: Config, clock: Time, ls: seq<Label>, i: nat)
    ensures var s := Run(c, Empty(clock), ls); i < |s.jobs| ==> InheritOk(s, i)
  {
    hide Step, Inv, InheritOk;
    if ls != [] {
      var init, l := ls[..|ls| - 1], ls[|ls| - 1];
      var s := Run(c, Empty(clock), init);
      InvOfRun(c, clock, init);
      InheritRun(c, clock, init, i);
      if i < |s.jobs| {
        StaysInherited(c, s, l, i);
      } else if i < |Step(c, s, l).jobs| {
        BornInherits(c, s, l, i);
      }
    }
  }

  /** In every reachable state a spawned instance carries its template's tenant, job type, payload,
      priority and attempts, and no cron expression; and so does the snapshot of every delivery of it. */
  lemma InstancesDoTheirTemplatesWork(c: Config, s: Sys, i: nat)
    requires Reachable(c, s) && i < |s.jobs| && s.jobs[i].log.parent.Some?
    ensures s.jobs[i].log.parent.value < |s.jobs|
    ensures var t, d := s.jobs[s.jobs[i].log.parent.value].doc, s.jobs[i].doc;
      && d.tenant == t.tenant && d.jobType == t.jobType && d.payload == t.payload && d.priority == t.priority
      && d.maxAttempts == t.maxAttempts && d.cron == ""
      && forall e :: 0 <= e < |s.execs| && s.execs[e].job == i ==>
           && s.execs[e].snap.jobType == t.jobType && s.execs[e].snap.payload == t.payload
           && s.execs[e].snap.tenant == t.tenant
  {
    hide Run, Inv;
    var clock: Time, ls: seq<Label> :| s == Run(c, Empty(clock), ls);
    InheritRun(c, clock, ls, i);
    ReachableInv(c, s);
    forall e | 0 <= e < |s.execs| && s.execs[e].job == i ensures SameJob(s.execs[e].snap, s.jobs[i].doc) {
      SnapshotIsOf(c, s, e);
    }
  }

  // ----- what the history of a document counts -----

  /** Each counter of a document's history counts the steps of one kind that wrote the document, and
      nothing else; the instants of its failures are those the failing steps were stamped with. */
  lemma HistoryCounts(c: Config, s: Sys, l: Label, id: nat)
    requires id < |s.jobs|
    ensures id < |Step(c, s, l).jobs|
    ensures var g, h, w := s.jobs[id].log, Step(c, s, l).jobs[id].log, WritesTo(c, s, l, id);
      && h.born == g.born && h.parent == g.parent
      && h.claims == g.claims + One(w && l.ClaimOne?)
      && h.wins == g.wins + One(w && l.Win?)
      && h.starts == g.starts + One(w && l.Start?)
      && h.completions == g.completions + One(w && l.Finish?)
      && h.failures == g.failures + One(w && l.WriteFail?)
      && h.queuedSweeps == g.queuedSweeps + One(w && l.SweepQueued?)
      && h.execSweeps == g.execSweeps + One(w && l.SweepExecution?)
      && h.reschedules == g.reschedules + One(w && l.Reschedule?)
      && h.deadLetters == g.deadLetters + One(w && l.DeadLetter?)
      && h.firstFail == (if w && l.WriteFail? && g.failures == 0 then l.now else g.firstFail)
      && h.lastFail == (if w && l.WriteFail? then l.now else g.lastFail)
      && h.failLanded == (if w && l.WriteFail? then s.clock else g.failLanded)
      && h.touched == (if w then s.clock else g.touched)
  {
    hide Step;
    JobAfter(c, s, l, id);
  }
}
