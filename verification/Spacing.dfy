/** Retry spacing.  The backoff is computed from the snapshot an execution fetched before its claim,
    so it counts the right attempt only if no failure slipped in between.  That cannot happen when
    deliveries are claimed, and failures written, promptly compared with the shortest backoff. */
module Spacing {
  import opened Types
  import opened Backoff
  import opened Documents
  import opened Lifecycle
  import opened System
  import opened Safety
  import opened Timing
  import opened Guarantees

  /** [T] for job `id`, plus: when a retry of it is won, the age of the snapshot and the time its last
      failure took to reach the store are together below the shortest backoff. */
  predicate Prompt(c: Config, s: Sys, l: Label, id: nat) {
    && InTime(c, s, l, id)
    && (l.Win? && l.exec < |s.execs| && s.execs[l.exec].job == id < |s.jobs| && s.jobs[id].log.failures >= 1 ==>
          (s.clock - s.execs[l.exec].fetched) + (s.jobs[id].log.failLanded - s.jobs[id].log.lastFail) < SECOND)
  }

  function PromptFor(id: nat): (Config, Sys, Label) -> bool {
    (c: Config, s: Sys, l: Label) => Prompt(c, s, l, id)
  }

  /** Failures so far are at least the backoffs apart, and the next run is due after the last. */
  ghost predicate SpacedOk(en: Entry) {
    var d, g := en.doc, en.log;
    !d.Template() && g.failures >= 1 ==>
      && g.lastFail >= g.firstFail + TotalBackoff(g.failures - 1) * SECOND
      && (!d.status.Dlq? ==> d.scheduledAt >= g.lastFail + ExponentialBackoff(g.failures - 1))
      && (d.status.Dlq? ==> d.updatedAt == g.lastFail)
  }

  /** A snapshot is as old as the last failure, or up to date; a live execution's is up to date. */
  ghost predicate FreshOk(c: Config, s: Sys, e: nat)
    requires e < |s.execs| && s.execs[e].job < |s.jobs|
  {
    var x, en := s.execs[e], s.jobs[s.execs[e].job];
    && (x.phase.Fetched? && x.snap.attempts != en.doc.attempts ==> x.fetched <= en.log.failLanded)
    && (Live(c, s.clock, x) ==> x.snap.attempts == en.doc.attempts && en.doc.scheduledAt <= x.at)
  }

  ghost predicate SpacingInv(c: Config, s: Sys, id: nat) {
    && TimelyInv(c, s, id)
    && (id < |s.jobs| ==> SpacedOk(s.jobs[id]))
    && (forall e :: 0 <= e < |s.execs| && s.execs[e].job == id ==> id < |s.jobs| && FreshOk(c, s, e))
  }

  /** At a claim that is won, the snapshot is up to date. */
  lemma WonWithFreshSnapshot(c: Config, s: Sys, l: Label, id: nat)
    requires SpacingInv(c, s, id) && Prompt(c, s, l, id)
    requires Enabled(c, s, l) && l.Win? && s.execs[l.exec].job == id
    ensures s.execs[l.exec].snap.attempts == s.jobs[id].doc.attempts
  {
    assert FreshOk(c, s, l.exec) && AfterOk(s, l.exec) && ExecOk(s, s.execs[l.exec]);
    var failures := s.jobs[id].log.failures;
    if failures >= 1 {
      BackoffRange(failures - 1, failures - 1);
    }
  }

  /** The write of a failure keeps the spacing. */
  lemma FailureIsSpaced(c: Config, s: Sys, l: Label, id: nat)
    requires SpacingInv(c, s, id) && Prompt(c, s, l, id)
    requires Enabled(c, s, l) && l.WriteFail? && s.execs[l.exec].job == id
    ensures SpacedOk(Record(s.jobs[id], WriteOf(c, s, l).value.1, s.clock))
  {
    var x := s.execs[l.exec];
    assert FreshOk(c, s, l.exec) && LiveOk(c, s, l.exec) && ExecOk(s, x);
    assert x.snap.attempts == s.jobs[id].log.failures;
  }

  /** Any other write an unfinished job meets leaves its attempts, due time and failures alone. */
  lemma OtherWritesKeepFailures(en: Entry, w: Write, clock: Time)
    requires Expected(en.doc, w) && !w.SetFailed? && Balanced(en)
    ensures var en' := Record(en, w, clock);
      && en'.doc.attempts == en.doc.attempts && en'.doc.scheduledAt == en.doc.scheduledAt
      && !en.doc.status.Dlq? && !en'.doc.status.Dlq?
      && en'.log.failures == en.log.failures && en'.log.firstFail == en.log.firstFail
      && en'.log.lastFail == en.log.lastFail && en'.log.failLanded == en.log.failLanded
  {
  }

  /** A failure is written by WriteFail and by nothing else. */
  lemma OnlyWriteFailFails(c: Config, s: Sys, l: Label, id: nat)
    requires WritesTo(c, s, l, id)
    ensures WriteOf(c, s, l).value.1.SetFailed? <==> l.WriteFail?
    ensures l.WriteFail? ==> s.execs[l.exec].job == id
  {
  }

  lemma SpacedStep(c: Config, s: Sys, l: Label, id: nat)
    requires SpacingInv(c, s, id) && Prompt(c, s, l, id)
    requires id < |Step(c, s, l).jobs|
    ensures SpacedOk(Step(c, s, l).jobs[id])
  {
    hide Step, WriteOf, SpacedOk;
    if id < |s.jobs| {
      JobAfter(c, s, l, id);
      if WritesTo(c, s, l, id) && !s.jobs[id].doc.Template() {
        WritesAreExpected(c, s, l, id);
        OnlyWriteFailFails(c, s, l, id);
        if l.WriteFail? {
          FailureIsSpaced(c, s, l, id);
        } else {
          SpacedStays(s.jobs[id], WriteOf(c, s, l).value.1, s.clock);
        }
      } else {
        UnwrittenStaysSpaced(s.jobs[id], Step(c, s, l).jobs[id]);
      }
    } else {
      BornSpaced(c, s, l, id);
    }
  }

  lemma SpacedStays(en: Entry, w: Write, clock: Time)
    requires SpacedOk(en) && Expected(en.doc, w) && !w.SetFailed? && Balanced(en)
    ensures SpacedOk(Record(en, w, clock))
  {
    OtherWritesKeepFailures(en, w, clock);
  }

  lemma UnwrittenStaysSpaced(en: Entry, en': Entry)
    requires SpacedOk(en) && (en'.doc.Template() || (en'.doc == en.doc && en'.log == en.log.(fires := en'.log.fires)))
    ensures SpacedOk(en')
  {
  }

  lemma BornSpaced(c: Config, s: Sys, l: Label, id: nat)
    requires |s.jobs| <= id < |Step(c, s, l).jobs|
    ensures SpacedOk(Step(c, s, l).jobs[id])
  {
    hide Step;
    BornAfter(c, s, l, id);
  }

  /** The execution's own step. */
  lemma FreshOwnStep(c: Config, s: Sys, l: Label, id: nat, e: nat)
    requires SpacingInv(c, s, id) && Prompt(c, s, l, id)
    requires e < |s.execs| && s.execs[e].job == id && l.ByExec(e) && Enabled(c, s, l)
    ensures var t := Step(c, s, l); e < |t.execs| && t.execs[e].job == id < |t.jobs| && FreshOk(c, t, e)
  {
    hide Step;
    ExecAfter(c, s, l, e);
    JobAfter(c, s, l, id);
    assert FreshOk(c, s, e) && LiveOk(c, s, e) && OneOffOk(s.clock, s.jobs[id]);
    if l.Win? {
      WonWithFreshSnapshot(c, s, l, id);
    }
  }

  /** Everyone else's. */
  lemma FreshOtherStep(c: Config, s: Sys, l: Label, id: nat, e: nat)
    requires SpacingInv(c, s, id) && Prompt(c, s, l, id)
    requires e < |s.execs| && s.execs[e].job == id && !l.ByExec(e)
    ensures var t := Step(c, s, l); e < |t.execs| && t.execs[e].job == id < |t.jobs| && FreshOk(c, t, e)
  {
    hide Step, WriteOf;
    ExecAfter(c, s, l, e);
    JobAfter(c, s, l, id);
    assert FreshOk(c, s, e) && ExecOk(s, s.execs[e]);
    if WritesTo(c, s, l, id) {
      WritesAreExpected(c, s, l, id);
      OnlyWriteFailFails(c, s, l, id);
      if !l.WriteFail? {
        OtherWritesKeepFailures(s.jobs[id], WriteOf(c, s, l).value.1, s.clock);
      }
      if Live(c, s.clock, s.execs[e]) {
        LiveIsAlone(c, s, l, id, e);
      }
    }
  }

  lemma FreshStep(c: Config, s: Sys, l: Label, id: nat, e: nat)
    requires SpacingInv(c, s, id) && Prompt(c, s, l, id)
    requires e < |s.execs| && s.execs[e].job == id
    ensures var t := Step(c, s, l); e < |t.execs| && t.execs[e].job == id < |t.jobs| && FreshOk(c, t, e)
  {
    hide SpacingInv, Prompt, FreshOk, Step;
    if !l.ByExec(e) {
      FreshOtherStep(c, s, l, id, e);
    } else if Enabled(c, s, l) {
      FreshOwnStep(c, s, l, id, e);
    } else {
      Idle(c, s, l, id, e);
    }
  }

  lemma Idle(c: Config, s: Sys, l: Label, id: nat, e: nat)
    requires SpacingInv(c, s, id) && e < |s.execs| && s.execs[e].job == id && !Enabled(c, s, l)
    ensures Step(c, s, l) == s && id < |s.jobs| && FreshOk(c, s, e)
  {
  }

  lemma NewFresh(c: Config, s: Sys, l: Label, e: nat)
    requires |s.execs| <= e < |Step(c, s, l).execs|
    ensures var t := Step(c, s, l); t.execs[e].job < |t.jobs| && FreshOk(c, t, e)
  {
    hide Step;
    NewExecAfter(c, s, l, e);
    JobAfter(c, s, l, l.id);
  }

  lemma SpacingInvStep(c: Config, s: Sys, l: Label, id: nat)
    requires SpacingInv(c, s, id) && Prompt(c, s, l, id)
    ensures SpacingInv(c, Step(c, s, l), id)
  {
    hide Step, TimelyInv, SpacedOk, FreshOk, InTime;
    var t := Step(c, s, l);
    TimelyInvStep(c, s, l, id);
    if id < |t.jobs| { SpacedStep(c, s, l, id); }
    forall e | 0 <= e < |t.execs| && t.execs[e].job == id ensures id < |t.jobs| && FreshOk(c, t, e) {
      if e < |s.execs| {
        JobKept(c, s, l, e);
        FreshStep(c, s, l, id, e);
      } else {
        NewFresh(c, s, l, e);
      }
    }
  }

  lemma {:induction false} SpacingInvRun(c: Config, s: Sys, ls: seq<Label>, id: nat)
    requires SpacingInv(c, s, id) && Throughout(c, s, ls, PromptFor(id))
    ensures SpacingInv(c, Run(c, s, ls), id)
  {
    hide Step, SpacingInv, Prompt;
    if ls != [] {
      ThroughoutPrefix(c, s, ls, PromptFor(id), |ls| - 1);
      SpacingInvRun(c, s, ls[..|ls| - 1], id);
      SpacingInvStep(c, Run(c, s, ls[..|ls| - 1]), ls[|ls| - 1], id);
    }
  }

  /** Every state of every run that is prompt for the job. */
  lemma PromptReachableInv(c: Config, s: Sys, id: nat)
    requires ReachableBy(c, s, PromptFor(id))
    ensures SpacingInv(c, s, id)
  {
    hide Run, Prompt;
    var clock: Time, ls: seq<Label> :|
      Throughout(c, Empty(clock), ls, PromptFor(id)) && s == Run(c, Empty(clock), ls);
    SpacingInvRun(c, Empty(clock), ls, id);
  }

  /** At every claim of the job that is won, the snapshot carries the attempts the store has. */
  lemma SnapshotsAreFresh(c: Config, s: Sys, l: Label, id: nat)
    requires ReachableBy(c, s, PromptFor(id)) && Prompt(c, s, l, id)
    requires Enabled(c, s, l) && l.Win? && s.execs[l.exec].job == id
    ensures s.execs[l.exec].snap.attempts == s.jobs[id].doc.attempts
  {
    PromptReachableInv(c, s, id);
    WonWithFreshSnapshot(c, s, l, id);
  }

  /** A dead-lettered job with n attempts took, from the instant of its first failure to the instant
      of its last, at least 2^(n-1) - 1 seconds when n <= 10, and 511 + 300 * (n - 10) seconds
      beyond, whatever crashes and sweeps came between. */
  lemma RetrySpacing(c: Config, s: Sys, id: nat)
    requires ReachableBy(c, s, PromptFor(id))
    requires id < |s.jobs| && !s.jobs[id].doc.Template() && s.jobs[id].doc.status.Dlq?
    ensures var d, g := s.jobs[id].doc, s.jobs[id].log; var n := d.maxAttempts;
      && n >= 1 && g.failures == n && d.updatedAt == g.lastFail
      && (n <= 10 ==> g.lastFail - g.firstFail >= (Pow2(n - 1) - 1) * 1_000_000_000)
      && (n >= 10 ==> g.lastFail - g.firstFail >= (511 + 300 * (n - 10)) * 1_000_000_000)
  {
    hide Pow2, TotalBackoff, ExponentialBackoff, Bounded;
    PromptReachableInv(c, s, id);
    TotalBackoffClosed(s.jobs[id].doc.maxAttempts - 1);
  }

  /** Under the same promptness every dead-lettering leaves a DLQ message, which the execution sends
      next unless it crashes. */
  lemma DeadLettersAreAnnounced(c: Config, s: Sys, l: Label, id: nat)
    requires ReachableBy(c, s, PromptFor(id)) && InTime(c, s, l, id)
    requires l.WriteFail? && Enabled(c, s, l) && s.execs[l.exec].job == id
    requires Step(c, s, l).jobs[id].doc.status.Dlq?
    ensures var t := Step(c, s, l);
      Enabled(c, t, PublishDlq(l.exec)) && Step(c, t, PublishDlq(l.exec)).dlq == t.dlq + [id]
  {
    hide Step;
    PromptReachableInv(c, s, id);
    assert FreshOk(c, s, l.exec);
    AnnouncedIffFresh(c, s, l, id);
    ExecAfter(c, s, l, l.exec);
    SendsNow(c, Step(c, s, l), l.exec);
  }
}
