/** The reaper: if its passes keep up, nothing stays stuck, and what it returns to pending is due. */
module Recovery {
  import opened Types
  import opened Documents
  import opened System
  import opened Safety
  import opened Timing

  // ----- a pass -----

  /** Between steps i and k the queued sweep (or else the execution sweep) evaluates its filter on
      document `id`, with a cutoff taken from an instant not before state i. */
  ghost predicate Visited(c: Config, s0: Sys, ls: seq<Label>, i: nat, k: nat, id: nat, queued: bool)
    requires i <= k <= |ls|
  {
    exists j: nat :: i <= j < k && (if queued then ls[j].SweepQueued? else ls[j].SweepExecution?)
      && ls[j].id == id && At(c, s0, ls, i).clock <= ls[j].now && Enabled(c, At(c, s0, ls, j), ls[j])
  }

  /** A full reaper pass: both sweeps visit every document there was when it began. */
  ghost predicate FullPass(c: Config, s0: Sys, ls: seq<Label>, i: nat, k: nat)
    requires i <= k <= |ls|
  {
    forall id: nat :: id < |At(c, s0, ls, i).jobs| ==>
      Visited(c, s0, ls, i, k, id, false) && Visited(c, s0, ls, i, k, id, true)
  }

  /** A full pass in the reaper's order: the execution sweep is over before the queued sweep begins. */
  ghost predicate PassInOrder(c: Config, s0: Sys, ls: seq<Label>, i: nat, k: nat)
    requires i <= k <= |ls|
  {
    exists m: nat :: i <= m <= k && SweptBetween(c, s0, ls, i, i, m, false) && SweptBetween(c, s0, ls, i, m, k, true)
  }

  /** Between steps a and b the sweep visits every document there was at step i. */
  ghost predicate SweptBetween(c: Config, s0: Sys, ls: seq<Label>, i: nat, a: nat, b: nat, queued: bool)
    requires i <= a <= b <= |ls|
  {
    forall id: nat :: id < |At(c, s0, ls, i).jobs| ==> Visited(c, s0, ls, a, b, id, queued)
  }

  lemma InOrderIsFull(c: Config, s0: Sys, ls: seq<Label>, i: nat, k: nat)
    requires i <= k <= |ls| && PassInOrder(c, s0, ls, i, k)
    ensures FullPass(c, s0, ls, i, k)
  {
    hide At, Enabled;
    var m: nat :| i <= m <= k && SweptBetween(c, s0, ls, i, i, m, false) && SweptBetween(c, s0, ls, i, m, k, true);
    ClockMonotone(c, s0, ls, i, m);
    forall id: nat | id < |At(c, s0, ls, i).jobs|
      ensures Visited(c, s0, ls, i, k, id, false) && Visited(c, s0, ls, i, k, id, true)
    {
      assert Visited(c, s0, ls, i, m, id, false) && Visited(c, s0, ls, m, k, id, true);
    }
  }

  /** Every stretch of length `period` up to a state of the run contains a full pass. */
  ghost predicate ReaperKeepsUp(c: Config, s0: Sys, ls: seq<Label>, period: nat) {
    forall m: nat, x: Time :: m <= |ls| && x + period <= At(c, s0, ls, m).clock ==>
      PassSince(c, s0, ls, m, x)
  }

  ghost predicate PassSince(c: Config, s0: Sys, ls: seq<Label>, m: nat, x: Time)
    requires m <= |ls|
  {
    exists i: nat, k: nat :: i <= k <= m && x <= At(c, s0, ls, i).clock && FullPass(c, s0, ls, i, k)
  }

  // ----- documents nobody writes stand still -----

  lemma {:induction false} ClockMonotone(c: Config, s0: Sys, ls: seq<Label>, i: nat, m: nat)
    requires i <= m <= |ls|
    ensures At(c, s0, ls, i).clock <= At(c, s0, ls, m).clock
    ensures |At(c, s0, ls, i).jobs| <= |At(c, s0, ls, m).jobs|
  {
    hide At, Step;
    if i < m {
      ClockMonotone(c, s0, ls, i, m - 1);
      AtNext(c, s0, ls, m - 1);
      StepMovesOn(c, At(c, s0, ls, m - 1), ls[m - 1]);
    }
  }

  /** A step stamps every document it writes or inserts with the instant it reached the store. */
  lemma TouchAfter(c: Config, s: Sys, l: Label, id: nat)
    requires id < |Step(c, s, l).jobs|
    ensures var t := Step(c, s, l);
      if id < |s.jobs| && !WritesTo(c, s, l, id)
      then t.jobs[id].doc == s.jobs[id].doc && t.jobs[id].log.touched == s.jobs[id].log.touched
      else t.jobs[id].log.touched == s.clock
  {
    hide Step, WriteOf;
    if id < |s.jobs| { JobAfter(c, s, l, id); } else { BornAfter(c, s, l, id); }
  }

  /** A document last written before state i was the same at i. */
  lemma {:induction false} StoodStill(c: Config, s0: Sys, ls: seq<Label>, i: nat, m: nat, id: nat)
    requires i <= m <= |ls| && id < |At(c, s0, ls, m).jobs|
    requires At(c, s0, ls, m).jobs[id].log.touched < At(c, s0, ls, i).clock
    ensures id < |At(c, s0, ls, i).jobs|
    ensures At(c, s0, ls, i).jobs[id].doc == At(c, s0, ls, m).jobs[id].doc
    ensures At(c, s0, ls, i).jobs[id].log.touched == At(c, s0, ls, m).jobs[id].log.touched
  {
    hide At, Step, WritesTo;
    if i < m {
      AtNext(c, s0, ls, m - 1);
      TouchAfter(c, At(c, s0, ls, m - 1), ls[m - 1], id);
      ClockMonotone(c, s0, ls, i, m - 1);
      StoodStill(c, s0, ls, i, m - 1, id);
    }
  }

  // ----- bounded recovery -----

  /** The instant from which the document is both overdue for its sweep and settled. */
  function Overdue(en: Entry, timeout: nat): Time {
    var due, settled := en.doc.updatedAt + timeout, en.log.touched + 1;
    if due > settled then due else settled
  }

  /** At a sweep inside a pass that began after the document was last written, the document is
      what it is at the end; so the sweep did not match it. */
  lemma SweepWouldHaveMatched(c: Config, s0: Sys, ls: seq<Label>, i: nat, j: nat, m: nat, id: nat)
    requires i <= j < m <= |ls| && id < |At(c, s0, ls, m).jobs|
    requires At(c, s0, ls, m).jobs[id].log.touched < At(c, s0, ls, i).clock
    ensures id < |At(c, s0, ls, j).jobs|
    ensures At(c, s0, ls, j).jobs[id].doc == At(c, s0, ls, m).jobs[id].doc
    ensures !WritesTo(c, At(c, s0, ls, j), ls[j], id)
  {
    hide At, Step, WritesTo;
    ClockMonotone(c, s0, ls, i, j);
    StoodStill(c, s0, ls, j, m, id);
    ClockMonotone(c, s0, ls, j, j + 1);
    StoodStill(c, s0, ls, j + 1, m, id);
    AtNext(c, s0, ls, j);
    TouchAfter(c, At(c, s0, ls, j), ls[j], id);
  }

  /** While the reaper keeps up with period S, no document is queued at or past
      updatedAt + QueuedTimeout + S, nor claimed or running at or past updatedAt + ClaimTimeout + S;
      a write that was slow to reach the store counts from when it did.  No timing assumption on
      executions. */
  lemma BoundedRecovery(c: Config, s0: Sys, ls: seq<Label>, period: nat, m: nat, id: nat)
    requires m <= |ls| && id < |At(c, s0, ls, m).jobs| && ReaperKeepsUp(c, s0, ls, period)
    ensures var s := At(c, s0, ls, m); var en := s.jobs[id];
      && (en.doc.status == Queued ==>
            s.clock < en.doc.updatedAt + c.queuedTimeout + period || s.clock <= en.log.touched + period)
      && (en.doc.status == Claimed || en.doc.status == Running ==>
            s.clock < en.doc.updatedAt + c.claimTimeout + period || s.clock <= en.log.touched + period)
  {
    hide At;
    var s := At(c, s0, ls, m);
    var en := s.jobs[id];
    var x := Overdue(en, if en.doc.status.Queued? then c.queuedTimeout else c.claimTimeout);
    if x + period <= s.clock && (en.doc.status.Queued? || en.doc.status.Executing()) {
      assert PassSince(c, s0, ls, m, x);
      var i: nat, k: nat :| i <= k <= m && x <= At(c, s0, ls, i).clock && FullPass(c, s0, ls, i, k);
      StoodStill(c, s0, ls, i, m, id);
      assert Visited(c, s0, ls, i, k, id, en.doc.status.Queued?);
      var j: nat :| i <= j < k && (if en.doc.status.Queued? then ls[j].SweepQueued? else ls[j].SweepExecution?)
        && ls[j].id == id && At(c, s0, ls, i).clock <= ls[j].now && Enabled(c, At(c, s0, ls, j), ls[j]);
      SweepWouldHaveMatched(c, s0, ls, i, j, m, id);
    }
  }

  lemma SweepEffect(c: Config, s: Sys, l: Label, id: nat)
    requires id < |s.jobs| && (l.SweepQueued? || l.SweepExecution?) && WritesTo(c, s, l, id)
    ensures var t := Step(c, s, l);
      && t.clock == s.clock && |t.jobs| == |s.jobs|
      && (s.jobs[id].doc.status.Queued? || s.jobs[id].doc.status.Executing())
      && t.jobs[id].doc.status.Pending? && t.jobs[id].doc.scheduledAt == s.jobs[id].doc.scheduledAt
  {
  }

  /** Exactly what a sweep writes, in terms of the document alone: the queued sweep a queued document,
      the execution sweep a claimed or running one, last updated at least its timeout before the instant
      the sweep goes by.  So no document is swept before its timeout has passed. */
  lemma SweptIffOverdue(c: Config, s: Sys, l: Label, id: nat)
    requires l.SweepQueued? || l.SweepExecution?
    ensures WritesTo(c, s, l, id) <==>
      && id == l.id < |s.jobs| && l.now <= l.stamp <= s.clock
      && var d := s.jobs[id].doc;
         if l.SweepQueued? then d.status == Queued && d.updatedAt + c.queuedTimeout <= l.now
         else (d.status == Claimed || d.status == Running) && d.updatedAt + c.claimTimeout <= l.now
    ensures WritesTo(c, s, l, id) ==>
      && id < |Step(c, s, l).jobs|
      && Step(c, s, l).jobs[id].doc == s.jobs[id].doc.(status := Pending, updatedAt := l.stamp)
  {
  }

  /** In a run that is timely for it a job that is queued, claimed or running is past its due time, so
      whatever a sweep returns to pending can be claimed at once. */
  lemma SweptIsDueAtOnce(c: Config, s: Sys, l: Label, id: nat)
    requires ReachableBy(c, s, TimelyFor(id)) && id < |s.jobs|
    requires (l.SweepQueued? || l.SweepExecution?) && WritesTo(c, s, l, id)
    ensures s.jobs[id].doc.scheduledAt <= s.clock
    ensures id < |Step(c, s, l).jobs| && Due(Step(c, s, l).jobs[id].doc, s.clock)
  {
    hide Step, WritesTo;
    TimelyReachableInv(c, s, id);
    SweepEffect(c, s, l, id);
    assert EntryOk(c, s.clock, s.jobs[id]);
  }

  // ----- one sweep, as the store runs it -----

  /** A sweep's label, and its filter, for one of the two sweeps. */
  function Sweeping(queued: bool, id: nat, now: Time, stamp: Time): Label {
    if queued then SweepQueued(id, now, stamp) else SweepExecution(id, now, stamp)
  }

  predicate Stuck(c: Config, queued: bool, d: Job, now: Time) {
    if queued then StuckQueued(c, d, now) else StuckExecuting(c, d, now)
  }

  lemma SweepingEffect(c: Config, s: Sys, queued: bool, id: nat, now: Time, stamp: Time)
    requires id < |s.jobs| && now <= stamp <= s.clock
    ensures var w := if queued then SweptQueued(stamp) else SweptExecution(stamp);
      && Enabled(c, s, Sweeping(queued, id, now, stamp))
      && Step(c, s, Sweeping(queued, id, now, stamp)) ==
         (if Stuck(c, queued, s.jobs[id].doc, now) then WithWrite(s, id, w) else s)
      && Put(s.jobs[id].doc, w) == s.jobs[id].doc.(status := Pending, updatedAt := stamp)
      && (WritesTo(c, s, Sweeping(queued, id, now, stamp), id) <==> Stuck(c, queued, s.jobs[id].doc, now))
  {
  }

  /** The steps `at` of the run are one sweep, document by document, begun at instant `now` and not
      before step `start`. */
  ghost predicate SweptAt(ls: seq<Label>, start: nat, queued: bool, now: Time, at: seq<nat>) {
    && (forall i :: 0 <= i < |at| ==> start <= at[i] < |ls| && ls[at[i]] == Sweeping(queued, i, now, now))
    && (forall i, j :: 0 <= i < j < |at| ==> at[i] < at[j])
  }

  /** On how many of its documents the sweep's filter matched. */
  ghost function Hits(c: Config, s0: Sys, ls: seq<Label>, at: seq<nat>): nat
    requires forall i :: 0 <= i < |at| ==> at[i] < |ls|
  {
    if at == [] then 0
    else
      var i := |at| - 1;
      Hits(c, s0, ls, at[..i]) + One(WritesTo(c, At(c, s0, ls, at[i]), ls[at[i]], i))
  }

  lemma {:induction false} HitsStay(c: Config, s0: Sys, ls: seq<Label>, more: seq<Label>, at: seq<nat>)
    requires ls <= more && forall i :: 0 <= i < |at| ==> at[i] < |ls|
    ensures Hits(c, s0, more, at) == Hits(c, s0, ls, at)
  {
    hide WritesTo, Run;
    if at != [] {
      var last := at[|at| - 1];
      assert more[..last] == ls[..last] && more[last] == ls[last];
      HitsStay(c, s0, ls, more, at[..|at| - 1]);
    }
  }

  lemma HitsNext(c: Config, s0: Sys, ls: seq<Label>, l: Label, at: seq<nat>)
    requires forall i :: 0 <= i < |at| ==> at[i] < |ls|
    ensures Hits(c, s0, ls + [l], at + [|ls|]) == Hits(c, s0, ls, at) + One(WritesTo(c, Run(c, s0, ls), l, |at|))
  {
    hide WritesTo, Run;
    HitsStay(c, s0, ls, ls + [l], at);
    assert (at + [|ls|])[..|at|] == at;
    assert (ls + [l])[..|ls|] == ls;
  }

  lemma StepsNext(ls: seq<Label>, start: nat, queued: bool, now: Time, at: seq<nat>)
    requires start <= |ls| && SweptAt(ls, start, queued, now, at)
    ensures SweptAt(ls + [Sweeping(queued, |at|, now, now)], start, queued, now, at + [|ls|])
  {
    hide Sweeping;
    var more, at' := ls + [Sweeping(queued, |at|, now, now)], at + [|ls|];
    forall i | 0 <= i < |at'| ensures start <= at'[i] < |more| && more[at'[i]] == Sweeping(queued, i, now, now) {
      if i < |at| { assert at'[i] == at[i] && more[at[i]] == ls[at[i]]; }
    }
  }

  /** The sweep reaches its next document. */
  lemma SweptAtNext(c: Config, s0: Sys, ls: seq<Label>, start: nat, queued: bool, now: Time, at: seq<nat>)
    requires start <= |ls| && SweptAt(ls, start, queued, now, at)
    ensures var l := Sweeping(queued, |at|, now, now);
      && SweptAt(ls + [l], start, queued, now, at + [|ls|])
      && Hits(c, s0, ls + [l], at + [|ls|]) == Hits(c, s0, ls, at) + One(WritesTo(c, Run(c, s0, ls), l, |at|))
  {
    hide WritesTo, Run, Sweeping, Hits;
    StepsNext(ls, start, queued, now, at);
    HitsNext(c, s0, ls, Sweeping(queued, |at|, now, now), at);
  }

  /** A sweep visits its documents. */
  lemma SweptAtVisits(c: Config, s0: Sys, ls: seq<Label>, start: nat, queued: bool, now: Time, at: seq<nat>)
    requires start <= |ls| && SweptAt(ls, start, queued, now, at) && Throughout(c, s0, ls, Enabled)
    requires Run(c, s0, ls[..start]).clock <= now
    ensures forall id: nat :: id < |at| ==> Visited(c, s0, ls, start, |ls|, id, queued)
  {
    hide Run, Enabled;
    forall id: nat | id < |at| ensures Visited(c, s0, ls, start, |ls|, id, queued) {
      assert Enabled(c, At(c, s0, ls, at[id]), ls[at[id]]);
    }
  }

  /** A document visited stays visited as the run goes on. */
  lemma VisitedStays(c: Config, s0: Sys, ls: seq<Label>, more: seq<Label>, i: nat, n: nat, queued: bool)
    requires i <= |ls| && ls <= more
    requires forall id: nat :: id < n ==> Visited(c, s0, ls, i, |ls|, id, queued)
    ensures forall id: nat :: id < n ==> Visited(c, s0, more, i, |ls|, id, queued)
    ensures forall id: nat :: id < n ==> Visited(c, s0, more, i, |more|, id, queued)
  {
    hide Run, Enabled;
    assert more[..i] == ls[..i];
    forall id: nat | id < n
      ensures Visited(c, s0, more, i, |ls|, id, queued) && Visited(c, s0, more, i, |more|, id, queued)
    {
      assert Visited(c, s0, ls, i, |ls|, id, queued);
      var j: nat :| i <= j < |ls| && (if queued then ls[j].SweepQueued? else ls[j].SweepExecution?)
        && ls[j].id == id && At(c, s0, ls, i).clock <= ls[j].now && Enabled(c, At(c, s0, ls, j), ls[j]);
      assert more[..j] == ls[..j] && more[j] == ls[j];
    }
  }

  ghost function Matches(c: Config, queued: bool, jobs: seq<Entry>, n: nat, now: Time): set<nat>
    requires n <= |jobs|
  {
    set i | 0 <= i < n && Stuck(c, queued, jobs[i].doc, now)
  }

  /** Among the first n documents exactly the stuck ones have become pending, and nothing else has
      changed; `modified` counts them. */
  ghost predicate Swept(c: Config, queued: bool, before: seq<Entry>, after: seq<Entry>, n: nat, now: Time,
      modified: nat)
  {
    && n <= |after| == |before|
    && (forall i :: 0 <= i < |before| ==>
          after[i].doc == if i < n && Stuck(c, queued, before[i].doc, now)
                          then before[i].doc.(status := Pending, updatedAt := now) else before[i].doc)
    && modified == |Matches(c, queued, before, n, now)|
  }

  /** What a sweep that began later visited counts from any earlier instant. */
  lemma VisitedSince(c: Config, s0: Sys, ls: seq<Label>, i: nat, later: nat, n: nat, queued: bool)
    requires i <= later <= |ls| && forall id: nat :: id < n ==> Visited(c, s0, ls, later, |ls|, id, queued)
    ensures forall id: nat :: id < n ==> Visited(c, s0, ls, i, |ls|, id, queued)
  {
    hide At, Enabled;
    ClockMonotone(c, s0, ls, i, later);
    forall id: nat | id < n ensures Visited(c, s0, ls, i, |ls|, id, queued) {
      assert Visited(c, s0, ls, later, |ls|, id, queued);
    }
  }

  /** The documents an undisturbed sweep begun at `now` finds overdue. */
  ghost function OverdueIn(jobs: seq<Entry>, queued: bool, timeout: nat, now: Time): set<nat> {
    set i | 0 <= i < |jobs| && jobs[i].doc.updatedAt <= now - timeout
      && (if queued then jobs[i].doc.status == Queued
          else jobs[i].doc.status == Claimed || jobs[i].doc.status == Running)
  }

  lemma SweptAreOverdue(c: Config, queued: bool, before: seq<Entry>, after: seq<Entry>, now: Time, modified: nat)
    requires Swept(c, queued, before, after, |after|, now, modified)
    ensures var overdue := OverdueIn(before, queued, if queued then c.queuedTimeout else c.claimTimeout, now);
      && |after| == |before| && modified == |overdue|
      && forall i :: 0 <= i < |before| ==>
           after[i].doc == if i in overdue then before[i].doc.(status := Pending, updatedAt := now) else before[i].doc
  {
    assert Matches(c, queued, before, |after|, now) ==
           OverdueIn(before, queued, if queued then c.queuedTimeout else c.claimTimeout, now);
  }

  lemma SweptNothing(c: Config, queued: bool, jobs: seq<Entry>, now: Time)
    ensures Swept(c, queued, jobs, jobs, 0, now, 0)
  {
    assert Matches(c, queued, jobs, 0, now) == {};
  }

  lemma SweptOneMore(c: Config, queued: bool, before: seq<Entry>, was: seq<Entry>, after: seq<Entry>, n: nat, now: Time,
      modified: nat)
    requires Swept(c, queued, before, was, n, now, modified) && n < |was| == |after|
    requires forall i :: 0 <= i < |was| && i != n ==> after[i] == was[i]
    requires after[n].doc == if Stuck(c, queued, was[n].doc, now) then was[n].doc.(status := Pending, updatedAt := now)
                             else was[n].doc
    ensures Swept(c, queued, before, after, n + 1, now, modified + One(Stuck(c, queued, was[n].doc, now)))
  {
    var some := Matches(c, queued, before, n, now);
    assert Matches(c, queued, before, n + 1, now) ==
           if Stuck(c, queued, before[n].doc, now) then some + {n} else some;
  }
}
