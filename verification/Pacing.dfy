/** Where [T] comes from: the two-minute bound Execute puts on its handler, and store calls that do
    not dawdle. */
module Pacing {
  import opened Types
  import opened System
  import opened Timing

  /** The bound on one handler call. */
  const EXECUTION_TIMEOUT: nat := 2 * MINUTE

  /** What is left of ClaimTimeout for each of the three store calls that may lie between a stamp and
      the last write it covers. */
  function CallBudget(c: Config): int { (c.claimTimeout - EXECUTION_TIMEOUT - 1) / 3 }

  /** With the default ClaimTimeout of five minutes that is anything below a minute. */
  lemma DefaultBudget(c: Config)
    ensures c.claimTimeout == 300_000_000_000 ==> CallBudget(c) == 59_999_999_999
    ensures CallBudget(c) >= 0 <==> 120_000_000_000 < c.claimTimeout
  {
  }

  /** Steps really taken, in which an execution of job `id` moves from one store call to its next
      within the budget, plus the execution timeout where the handler lies between them; and the stamp
      of a claim is within the budget when it is won. */
  predicate Paced(c: Config, s: Sys, l: Label, id: nat) {
    && Enabled(c, s, l)
    && (OfExec(l) && s.execs[l.exec].job == id ==>
          && (l.Win? ==> s.clock - l.now <= CallBudget(c))
          && (l.Start? || l.WriteFail? ==> s.clock - s.execs[l.exec].at <= CallBudget(c))
          && (l.Finish? || l.ReadForFail? ==> s.clock - s.execs[l.exec].at <= EXECUTION_TIMEOUT + CallBudget(c)))
  }

  function PacedFor(id: nat): (Config, Sys, Label) -> bool {
    (c: Config, s: Sys, l: Label) => Paced(c, s, l, id)
  }

  /** How far an execution's last step lies behind the stamp the reaper goes by. */
  predicate OnPace(c: Config, x: Exec) {
    && (x.Working() ==> CallBudget(c) >= 0)
    && (x.phase.Won? || x.phase.Started? ==> x.at - x.lease <= CallBudget(c))
    && (x.phase.Failing? ==> x.at - x.lease <= EXECUTION_TIMEOUT + 2 * CallBudget(c))
  }

  ghost predicate AllOnPace(c: Config, s: Sys, id: nat) {
    forall e :: 0 <= e < |s.execs| && s.execs[e].job == id ==> OnPace(c, s.execs[e])
  }

  lemma PacedStepIsTimely(c: Config, s: Sys, l: Label, id: nat)
    requires AllOnPace(c, s, id) && Paced(c, s, l, id)
    ensures InTime(c, s, l, id) && AllOnPace(c, Step(c, s, l), id)
  {
    hide Step;
    var t := Step(c, s, l);
    forall e | 0 <= e < |t.execs| && t.execs[e].job == id ensures OnPace(c, t.execs[e]) {
      if e < |s.execs| { ExecAfter(c, s, l, e); } else { NewExecAfter(c, s, l, e); }
    }
  }

  lemma {:induction false} PacedRunIsTimely(c: Config, s: Sys, ls: seq<Label>, id: nat)
    requires AllOnPace(c, s, id) && Throughout(c, s, ls, PacedFor(id))
    ensures AllOnPace(c, Run(c, s, ls), id) && Throughout(c, s, ls, TimelyFor(id))
  {
    hide Step, Paced, InTime, AllOnPace;
    if ls != [] {
      var init, last := ls[..|ls| - 1], ls[|ls| - 1];
      ThroughoutPrefix(c, s, ls, PacedFor(id), |ls| - 1);
      PacedRunIsTimely(c, s, init, id);
      PacedStepIsTimely(c, Run(c, s, init), last, id);
      Snoc(c, s, init, last, TimelyFor(id));
      assert init + [last] == ls;
    }
  }

  /** [T] need not be assumed of a job whose executions keep this pace: the two minutes of a handler
      and three store calls fit into ClaimTimeout, so the run is timely for it. */
  lemma PacedRunsAreTimely(c: Config, s: Sys, id: nat)
    requires ReachableBy(c, s, PacedFor(id))
    ensures ReachableBy(c, s, TimelyFor(id))
  {
    hide Run, Paced;
    var clock: Time, ls: seq<Label> :|
      Throughout(c, Empty(clock), ls, PacedFor(id)) && s == Run(c, Empty(clock), ls);
    PacedRunIsTimely(c, Empty(clock), ls, id);
  }
}
