/** The reaper process of cmd/reaper/main.go. */
module Reaping {
  import opened Types
  import opened System
  import opened Recovery
  import opened Store

  class Reaper {
    const repo: Backend

    constructor (repo: Backend)
      ensures this.repo == repo
    {
      this.repo := repo;
    }

    /** A sweep has visited the first n documents since step `start`. */
    ghost predicate Reaches(start: nat, n: nat, queued: bool)
      requires start <= |repo.trace|
      reads repo
    {
      forall id: nat :: id < n ==> Visited(repo.c, repo.origin, repo.trace, start, |repo.trace|, id, queued)
    }

    /** One tick: the execution sweep, then the queued sweep whatever became of the first.  When
        neither fails it is a full pass, however much the rest of the system moves meanwhile. */
    method Pass() returns (swept: Option<Error>, requeued: Option<Error>)
      requires repo.Valid()
      modifies repo
      ensures repo.Valid() && old(repo.trace) <= repo.trace
      // each sweep runs whatever becomes of the other, and fails for a call of its own that went wrong
      ensures swept.None? ==> Reaches(|old(repo.trace)|, |old(repo.jobs)|, false)
      ensures requeued.None? ==> Reaches(|old(repo.trace)|, |old(repo.jobs)|, true)
      ensures swept.None? && requeued.None? ==>
        PassInOrder(repo.c, repo.origin, repo.trace, |old(repo.trace)|, |repo.trace|)
        && FullPass(repo.c, repo.origin, repo.trace, |old(repo.trace)|, |repo.trace|)
      ensures old(repo.faults) == [] ==> repo.faults == [] && swept.None? && requeued.None?
      ensures Bad(old(repo.faults)) == Bad(repo.faults) + One(swept.Some?) + One(requeued.Some?)
    {
      hide Step, Throughout, Run, Visited, Enabled, PassInOrder, FullPass;
      ghost var first := repo.trace;
      var n, m;
      ghost var steps;
      swept, n, steps := repo.SweepByStatus(false);
      ghost var between := repo.trace;
      ghost var grown := |repo.jobs|;
      requeued, m, steps := repo.SweepByStatus(true);
      if swept.None? {
        VisitedStays(repo.c, repo.origin, between, repo.trace, |first|, |old(repo.jobs)|, false);
      }
      if requeued.None? {
        VisitedSince(repo.c, repo.origin, repo.trace, |first|, |between|, |old(repo.jobs)|, true);
      }
      if swept.None? && requeued.None? {
        PassIsInOrder(repo.c, repo.origin, first, between, repo.trace, grown);
        InOrderIsFull(repo.c, repo.origin, repo.trace, |first|, |repo.trace|);
      }
    }
  }

  /** Two sweeps, one after the other, that visited all documents. */
  lemma PassIsInOrder(c: Config, s0: Sys, first: seq<Label>, between: seq<Label>, last: seq<Label>, n: nat)
    requires first <= between <= last && |Run(c, s0, first).jobs| <= n
    requires forall id: nat :: id < |Run(c, s0, first).jobs| ==> Visited(c, s0, between, |first|, |between|, id, false)
    requires forall id: nat :: id < n ==> Visited(c, s0, last, |between|, |last|, id, true)
    ensures PassInOrder(c, s0, last, |first|, |last|)
  {
    hide Run, Visited;
    assert last[..|first|] == first;
    VisitedStays(c, s0, between, last, |first|, |Run(c, s0, first).jobs|, false);
    assert SweptBetween(c, s0, last, |first|, |first|, |between|, false);
    assert SweptBetween(c, s0, last, |first|, |between|, |last|, true);
  }
}
