/** Exactly when an occurrence of a template can fire twice: as soon as the reaper sweeps it. */
module Refiring {
  import opened Types
  import opened Documents
  import opened System
  import opened Safety
  import opened CronWindow
  import opened Driving
  import opened Timing
  import opened Keys
  import opened Witnesses

  // ----- an instant at which the next instance can be inserted -----

  lemma {:induction false} FreeAmong(jobs: seq<Entry>, n: nat, key: string, from: Time) returns (now: Time)
    requires n <= |jobs|
    ensures from <= now && forall j :: 0 <= j < n ==> jobs[j].doc.key != InstanceKey(key, now)
  {
    if n == 0 {
      now := from;
    } else {
      now := FreeAmong(jobs, n - 1, key, from);
      if jobs[n - 1].doc.key == InstanceKey(key, now) {
        var later := FreeAmong(jobs, n - 1, key, now + 1);
        InstantsDiffer(key, now, later);
        now := later;
      }
    }
  }

  /** After some waiting the key of an instance of the template is free. */
  lemma WaitUntilFree(c: Config, s0: Sys, ls: seq<Label>, s: Sys, key: string) returns (more: seq<Label>, t: Sys)
    requires Led(c, s0, ls, s)
    ensures Led(c, s0, more, t) && s.clock <= t.clock && t == s.(clock := t.clock)
    ensures KeyFree(t.jobs, InstanceKey(key, t.clock))
  {
    hide Led, InstanceKey;
    var now := FreeAmong(s.jobs, |s.jobs|, key, s.clock);
    more, t := WaitUntil(c, s0, ls, s, now);
  }

  // ----- firing what is due -----

  /** A loop that holds a claim of the template fires it, once its key is free. */
  lemma FireHeld(c: Config, s0: Sys, ls: seq<Label>, s: Sys, id: nat, k: nat) returns (more: seq<Label>, t: Sys)
    requires Led(c, s0, ls, s) && id < |s.jobs| && k < |s.claims| && s.claims[k].id == id
    requires s.claims[k].progress.Held? && s.claims[k].job.Template() && s.claims[k].at <= s.clock
    ensures Led(c, s0, more, t) && s.clock <= t.clock && id < |t.jobs| && |t.claims| == |s.claims|
    ensures t.jobs[id].doc == s.jobs[id].doc && t.jobs[id].log.queuedSweeps == s.jobs[id].log.queuedSweeps
    ensures t.jobs[id].log.fires == s.jobs[id].log.fires + [Fire(s.claims[k].job.scheduledAt, t.clock)]
    ensures forall j :: 0 <= j < |s.claims| && j != k ==> t.claims[j] == s.claims[j]
  {
    hide Led, InstanceKey, KeyFree;
    more, t := WaitUntilFree(c, s0, ls, s, s.claims[k].job.key);
    more, t := SpawnNow(c, s0, more, t, k);
  }

  /** A template that is due is claimed and fired by another loop. */
  lemma FireDue(c: Config, s0: Sys, ls: seq<Label>, s: Sys, id: nat) returns (more: seq<Label>, t: Sys)
    requires Led(c, s0, ls, s) && IsTemplate(s, id) && Due(s.jobs[id].doc, s.clock)
    ensures Led(c, s0, more, t) && s.clock <= t.clock && id < |t.jobs| && s.claims <= t.claims
    ensures t.jobs[id].log.queuedSweeps == s.jobs[id].log.queuedSweeps
    ensures exists at: Time :: t.jobs[id].log.fires == s.jobs[id].log.fires + [Fire(s.jobs[id].doc.scheduledAt, at)]
  {
    hide Led, IsTop;
    more, t := BecomeHead(c, s0, ls, s, id);
    var k := |t.claims|;
    more, t := ClaimNow(c, s0, more, t, id);
    more, t := FireHeld(c, s0, more, t, id, k);
  }

  // ----- after the first sweep -----

  /** No continuation in which the template is not swept again fires an occurrence twice. */
  ghost predicate OnceFrom(c: Config, s: Sys, id: nat)
    requires id < |s.jobs|
  {
    forall ls: seq<Label> :: NotTwice(s, Run(c, s, ls), id)
  }

  ghost predicate NotTwice(s: Sys, t: Sys, id: nat)
    requires id < |s.jobs|
  {
    && id < |t.jobs|
    && (t.jobs[id].log.queuedSweeps == s.jobs[id].log.queuedSweeps ==> EachOnce(t.jobs[id].log.fires, 0))
  }

  /** What the sweep leaves: the template due again, at the instant its last claim was made for, and
      that claim either still to fire or the last to have fired. */
  lemma AfterFirstSweep(c: Config, s: Sys, l: Label, id: nat) returns (t: Sys, k: nat)
    requires Reachable(c, s) && Unswept(s, id) && WritesTo(c, s, l, id) && l.SweepQueued?
    ensures t == Step(c, s, l) && IsTemplate(t, id) && Due(t.jobs[id].doc, t.clock) && t.jobs[id].log.queuedSweeps == 1
    ensures k < |t.claims| && t.claims[k].id == id && t.claims[k].job.Template() && t.claims[k].at <= t.clock
    ensures t.claims[k].job.scheduledAt == t.jobs[id].doc.scheduledAt
    ensures !t.claims[k].progress.Held? ==>
      var fires := t.jobs[id].log.fires; |fires| > 0 && fires[|fires| - 1].due == t.jobs[id].doc.scheduledAt
  {
    hide Step, WritesTo;
    ReachableUnswept(c, s, id);
    SweepKeepsDue(c, s, l, id);
    t, k := Step(c, s, l), s.jobs[id].log.holder.value;
    SweepCounts(c, s, l, id);
    ClaimAfter(c, s, l, k);
    assert ClaimOk(s, s.claims[k]) && EntryOk(c, s.clock, s.jobs[id]);
  }

  lemma SweepCounts(c: Config, s: Sys, l: Label, id: nat)
    requires id < |s.jobs| && WritesTo(c, s, l, id) && l.SweepQueued?
    ensures var t := Step(c, s, l);
      id < |t.jobs| && t.clock == s.clock && t.jobs[id].log.queuedSweeps == s.jobs[id].log.queuedSweeps + 1
      && t.jobs[id].doc.cron == s.jobs[id].doc.cron && t.claims == s.claims
  {
  }

  /** After the first sweep of a template, another loop fires the due instant, and it fires twice:
      before, if the claim the sweep interrupted had fired, and after, when that claim fires late, if
      it had not. */
  lemma FirstSweepLetsOneFireTwice(c: Config, s: Sys, l: Label, id: nat) returns (ls: seq<Label>)
    requires Reachable(c, s) && Unswept(s, id) && WritesTo(c, s, l, id) && l.SweepQueued?
    ensures Throughout(c, Step(c, s, l), ls, Taken) && id < |Step(c, s, l).jobs|
    ensures Step(c, s, l).jobs[id].log.queuedSweeps == 1
    ensures var t := Run(c, Step(c, s, l), ls);
      id < |t.jobs| && t.jobs[id].log.queuedSweeps == 1 && !EachOnce(t.jobs[id].log.fires, 0)
  {
    hide Step, WritesTo, Reachable, Throughout, Taken, Run;
    var s1, k := AfterFirstSweep(c, s, l, id);
    var due := s1.jobs[id].doc.scheduledAt;
    var n := |s1.jobs[id].log.fires|;
    NoSteps(c, s1);
    var t;
    ls, t := FireDue(c, s1, [], s1, id);
    assert t.claims[k] == s1.claims[k];
    assert t.jobs[id].log.fires[n].due == due;
    if s1.claims[k].progress.Held? {
      ls, t := FireHeld(c, s1, ls, t, id, k);
      assert !(t.jobs[id].log.fires[n].due < t.jobs[id].log.fires[n + 1].due);
    } else {
      assert !(t.jobs[id].log.fires[n - 1].due < t.jobs[id].log.fires[n].due);
    }
  }

  lemma SweepsCounted(c: Config, s: Sys, l: Label, id: nat)
    requires id < |s.jobs| && !(WritesTo(c, s, l, id) && l.SweepQueued?)
    ensures var t := Step(c, s, l); id < |t.jobs| && t.jobs[id].log.queuedSweeps == s.jobs[id].log.queuedSweeps
  {
    hide Step;
    JobAfter(c, s, l, id);
  }

  /** A template that was never swept fires each occurrence once, and after any further step keeps to
      that for as long as it is not swept again, if and only if that step is not its first sweep. */
  lemma FiresOnceUnlessSwept(c: Config, s: Sys, l: Label, id: nat)
    requires Reachable(c, s) && Unswept(s, id) && AlwaysOccursAgain(c, s.jobs[id].doc.cron)
    ensures id < |Step(c, s, l).jobs|
    ensures OnceFrom(c, Step(c, s, l), id) <==> !(WritesTo(c, s, l, id) && l.SweepQueued?)
  {
    hide Step, WritesTo, Run, Reachable, AlwaysOccursAgain, EachOnce;
    if WritesTo(c, s, l, id) && l.SweepQueued? {
      var ls := FirstSweepLetsOneFireTwice(c, s, l, id);
      assert !NotTwice(Step(c, s, l), Run(c, Step(c, s, l), ls), id);
    } else {
      var r := Step(c, s, l);
      SweepsCounted(c, s, l, id);
      TemplateKept(c, s, l, id);
      StepReachable(c, s, l);
      forall ls: seq<Label> ensures NotTwice(r, Run(c, r, ls), id) {
        RunReachable(c, r, ls);
        TemplateKeptThrough(c, r, ls, id);
        if Unswept(Run(c, r, ls), id) { OccurrencesFireOnce(c, Run(c, r, ls), id); }
      }
    }
  }

  lemma StepReachable(c: Config, s: Sys, l: Label)
    requires Reachable(c, s)
    ensures Reachable(c, Step(c, s, l))
  {
    hide Step, Reachable;
    RunReachable(c, s, [l]);
    assert [l][..0] == [];
    assert Run(c, s, [l]) == Step(c, s, l);
  }

  lemma {:induction false} TemplateKeptThrough(c: Config, s: Sys, ls: seq<Label>, id: nat)
    requires IsTemplate(s, id)
    ensures IsTemplate(Run(c, s, ls), id) && Run(c, s, ls).jobs[id].doc.cron == s.jobs[id].doc.cron
  {
    hide Step;
    if ls != [] {
      TemplateKeptThrough(c, s, ls[..|ls| - 1], id);
      TemplateKept(c, Run(c, s, ls[..|ls| - 1]), ls[|ls| - 1], id);
    }
  }
}
