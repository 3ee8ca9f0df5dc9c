/** Recurring templates: how often they fire, that they are never executed, and that a
    dead-lettered one stays so.  No timing assumption, any number of scheduler loops. */
module Cron {
  import opened Types
  import opened Documents
  import opened System
  import opened Safety

  /** In every reachable state a template is waiting, queued or dead-lettered with no attempt
      spent; no message, snapshot or execution names one; a spawned instance is never one. */
  lemma TemplatesNeverExecute(c: Config, s: Sys)
    requires Reachable(c, s)
    ensures forall i :: 0 <= i < |s.jobs| && s.jobs[i].doc.Template() ==>
      && (s.jobs[i].doc.status.Pending? || s.jobs[i].doc.status.Queued? || s.jobs[i].doc.status.Dlq?)
      && s.jobs[i].doc.attempts == 0
      && i !in s.topic && s.jobs[i].log.parent.None?
    ensures forall e :: 0 <= e < |s.execs| ==>
      && s.execs[e].job < |s.jobs| && !s.jobs[s.execs[e].job].doc.Template()
      && !s.execs[e].snap.Template()
  {
    ReachableInv(c, s);
    assert forall i :: 0 <= i < |s.jobs| ==> TemplateOk(c, s.clock, s.jobs[i]);
    assert forall e :: 0 <= e < |s.execs| ==> ExecOk(s, s.execs[e]);
  }

  // ----- dead-lettering -----

  ghost predicate DeadTemplate(s: Sys, id: nat) {
    id < |s.jobs| && s.jobs[id].doc.Template() && s.jobs[id].doc.status.Dlq?
  }

  lemma DeadLetterStep(c: Config, s: Sys, l: Label, id: nat)
    requires Inv(c, s) && DeadTemplate(s, id)
    ensures DeadTemplate(Step(c, s, l), id)
  {
    hide Step;
    JobAfter(c, s, l, id);
    assert EntryOk(c, s.clock, s.jobs[id]);
    if WritesTo(c, s, l, id) {
      TemplateWrites(c, s, l, id);
    }
  }

  /** A dead-lettered template stays dead-lettered for the rest of any run, however many loops
      still hold a claim of it. */
  lemma {:induction false} DeadLetterIsForever(c: Config, s: Sys, ls: seq<Label>, id: nat)
    requires Reachable(c, s) && DeadTemplate(s, id)
    ensures DeadTemplate(Run(c, s, ls), id)
  {
    hide Step, Inv, DeadTemplate;
    if ls != [] {
      var init := ls[..|ls| - 1];
      DeadLetterIsForever(c, s, init, id);
      ReachableInv(c, s);
      InvRun(c, s, init);
      DeadLetterStep(c, Run(c, s, init), ls[|ls| - 1], id);
    }
  }

  /** What POST /jobs lets through: a recurring job only with an expression that parses. */
  predicate ViaApi(c: Config, s: Sys, l: Label) {
    l.Create? && l.req.cron != "" ==> c.parses(l.req.cron)
  }

  ghost predicate AllParse(c: Config, s: Sys) {
    forall i :: 0 <= i < |s.jobs| && s.jobs[i].doc.Template() ==> c.parses(s.jobs[i].doc.cron)
  }

  lemma AllParseStep(c: Config, s: Sys, l: Label)
    requires AllParse(c, s) && ViaApi(c, s, l)
    ensures AllParse(c, Step(c, s, l))
  {
    hide Step;
    var t := Step(c, s, l);
    forall i | 0 <= i < |t.jobs| && t.jobs[i].doc.Template() ensures c.parses(t.jobs[i].doc.cron) {
      if i < |s.jobs| { JobAfter(c, s, l, i); } else { BornAfter(c, s, l, i); }
    }
  }

  lemma {:induction false} AllParseRun(c: Config, s: Sys, ls: seq<Label>)
    requires AllParse(c, s) && Throughout(c, s, ls, ViaApi)
    ensures AllParse(c, Run(c, s, ls))
  {
    hide Step, AllParse;
    if ls != [] {
      ThroughoutPrefix(c, s, ls, ViaApi, |ls| - 1);
      AllParseRun(c, s, ls[..|ls| - 1]);
      AllParseStep(c, Run(c, s, ls[..|ls| - 1]), ls[|ls| - 1]);
    }
  }

  /** If every template came through the API, none is ever dead-lettered. */
  lemma ApiTemplatesNeverDie(c: Config, s: Sys)
    requires ReachableBy(c, s, ViaApi)
    ensures forall id :: 0 <= id < |s.jobs| ==> !DeadTemplate(s, id)
  {
    hide Run;
    var clock: Time, ls: seq<Label> :| Throughout(c, Empty(clock), ls, ViaApi) && s == Run(c, Empty(clock), ls);
    AllParseRun(c, Empty(clock), ls);
    ReachableInv(c, s);
    assert forall i :: 0 <= i < |s.jobs| ==> EntryOk(c, s.clock, s.jobs[i]);
  }

  // ----- the firing ledger -----

  /** Claims of template `id` still in a loop's batch. */
  ghost function HeldOf(s: Sys, id: nat): set<nat> {
    set k | 0 <= k < |s.claims| && s.claims[k].id == id && s.claims[k].progress.Held?
  }

  /** Documents spawned from template `id`. */
  ghost function InstancesOf(s: Sys, id: nat): set<nat> {
    set i | 0 <= i < |s.jobs| && s.jobs[i].log.parent == Some(id)
  }

  /** Each claim fires at most once, and each firing is one document. */
  ghost predicate FiringsPaid(s: Sys, id: nat) {
    id < |s.jobs| ==>
      && |s.jobs[id].log.fires| + |HeldOf(s, id)| <= s.jobs[id].log.claims
      && |InstancesOf(s, id)| == |s.jobs[id].log.fires|
  }

  /** A step adds a held claim of the template, uses one up, or leaves them alone. */
  lemma HeldAfter(c: Config, s: Sys, l: Label, id: nat)
    ensures HeldOf(Step(c, s, l), id) ==
            if !Enabled(c, s, l) then HeldOf(s, id)
            else if l.ClaimOne? && l.id == id then HeldOf(s, id) + {|s.claims|}
            else if l.Spawn? then HeldOf(s, id) - {l.claim}
            else HeldOf(s, id)
  {
  }

  lemma InstancesAfter(c: Config, s: Sys, l: Label, id: nat)
    ensures InstancesOf(Step(c, s, l), id) ==
            if Enabled(c, s, l) && l.Spawn? && s.claims[l.claim].id == id
            then InstancesOf(s, id) + {|s.jobs|} else InstancesOf(s, id)
  {
    hide Step, WritesTo, WriteOf, Record;
    var t := Step(c, s, l);
    StepMovesOn(c, s, l);
    forall i | 0 <= i < |s.jobs| ensures t.jobs[i].log.parent == s.jobs[i].log.parent {
      ParentKept(c, s, l, i);
    }
    if Enabled(c, s, l) && l.Spawn? { SpawnIsBorn(c, s, l); }
    forall i | |s.jobs| <= i < |t.jobs|
      ensures i == |s.jobs| && Enabled(c, s, l)
      ensures t.jobs[i].log.parent == if l.Spawn? then Some(s.claims[l.claim].id) else None
    {
      BornAfter(c, s, l, i);
    }
  }

  /** What a step does to the counters of the ledger. */
  lemma FiringCountsAfter(c: Config, s: Sys, l: Label, id: nat)
    requires id < |s.jobs|
    ensures var t := Step(c, s, l); var en := Enabled(c, s, l);
      && id < |t.jobs|
      && t.jobs[id].log.claims == s.jobs[id].log.claims + One(en && l.ClaimOne? && l.id == id)
      && |t.jobs[id].log.fires| == |s.jobs[id].log.fires| + One(en && l.Spawn? && s.claims[l.claim].id == id)
  {
    hide Step;
    JobAfter(c, s, l, id);
  }

  lemma FiringsStep(c: Config, s: Sys, l: Label, id: nat)
    requires id < |s.jobs| && FiringsPaid(s, id)
    ensures FiringsPaid(Step(c, s, l), id)
  {
    hide Step;
    HeldAfter(c, s, l, id);
    InstancesAfter(c, s, l, id);
    FiringCountsAfter(c, s, l, id);
    if Enabled(c, s, l) && l.Spawn? {
      if s.claims[l.claim].id == id {
        assert l.claim in HeldOf(s, id);
      } else {
        assert HeldOf(s, id) - {l.claim} == HeldOf(s, id);
      }
    }
  }

  /** A document just inserted has been neither claimed nor fired. */
  lemma BornUnfired(c: Config, s: Sys, l: Label, id: nat)
    requires Inv(c, s) && |s.jobs| <= id < |Step(c, s, l).jobs|
    ensures FiringsPaid(Step(c, s, l), id)
  {
    hide Step;
    BornAfter(c, s, l, id);
    HeldAfter(c, s, l, id);
    InstancesAfter(c, s, l, id);
    assert forall k :: 0 <= k < |s.claims| ==> ClaimOk(s, s.claims[k]);
    assert HeldOf(s, id) == {};
    assert ParentsExist(s.jobs);
    assert InstancesOf(s, id) == {};
  }

  lemma {:induction false} FiringsRun(c: Config, clock: Time, ls: seq<Label>, id: nat)
    ensures FiringsPaid(Run(c, Empty(clock), ls), id)
  {
    hide Step, Inv;
    if ls != [] {
      var init := ls[..|ls| - 1];
      var s := Run(c, Empty(clock), init);
      FiringsRun(c, clock, init, id);
      InvOfRun(c, clock, init);
      if id < |s.jobs| {
        FiringsStep(c, s, ls[|ls| - 1], id);
      } else if id < |Step(c, s, ls[|ls| - 1]).jobs| {
        BornUnfired(c, s, ls[|ls| - 1], id);
      }
    }
  }

  /** In every reachable state: each firing is one instance, no claim fires twice, and every claim but
      the one that may be in flight has been paid for by a reschedule, a dead-lettering or a sweep. */
  lemma FiringLedger(c: Config, s: Sys, id: nat)
    requires Reachable(c, s) && id < |s.jobs| && s.jobs[id].doc.Template()
    ensures var g := s.jobs[id].log;
      && |InstancesOf(s, id)| == |g.fires| <= g.claims
      && |g.fires| + |HeldOf(s, id)| <= g.claims
      && g.claims <= g.reschedules + g.deadLetters + g.queuedSweeps + One(s.jobs[id].doc.status.Queued?)
  {
    hide Run;
    var clock: Time, ls: seq<Label> :| s == Run(c, Empty(clock), ls);
    FiringsRun(c, clock, ls, id);
    ReachableInv(c, s);
    assert EntryOk(c, s.clock, s.jobs[id]);
  }
}
