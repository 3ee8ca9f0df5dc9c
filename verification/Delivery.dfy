/** The consumer of internal/dispatch/consumer.go on one partition, with the message handler of
    cmd/executor/main.go. */
module Delivery {
  import opened Types
  import opened System
  import opened Traces
  import opened Store
  import opened Execution

  /** A record as the consumer makes it out: not a dispatch message at all, one whose job id is no
      id, or one that names a job. */
  datatype Message = Malformed | BadId | For(id: nat)

  function Least(a: nat, b: nat): nat { if a < b then a else b }

  /** What one handling of a record came to: nothing, or a delivery, the snapshot it worked on and the
      steps it took. */
  datatype Handling = Skipped | Delivered(exec: nat, snap: Job, own: seq<Label>)

  /** The handling was of this message, and took these steps in the run. */
  ghost predicate DeliveryOf(s: Sys, trace: seq<Label>, m: Message, x: Handling) {
    x.Delivered? ==>
      && m.For? && x.exec < |s.execs| && s.execs[x.exec].job == m.id && s.execs[x.exec].snap == x.snap
      && exists n: nat :: n <= |trace| && Own(TheExec(x.exec), trace[..n]) == x.own
  }

  lemma DeliveryStays(a: Sys, b: Sys, before: seq<Label>, after: seq<Label>, m: Message, x: Handling)
    requires DeliveryOf(a, before, m, x) && Remembers(a, b) && before <= after
    ensures DeliveryOf(b, after, m, x)
  {
    if x.Delivered? {
      var n: nat :| n <= |before| && Own(TheExec(x.exec), before[..n]) == x.own;
      assert after[..n] == before[..n];
    }
  }

  lemma DeliveryNow(s: Sys, trace: seq<Label>, m: Message, x: Handling)
    requires x.Delivered? ==>
      && m.For? && x.exec < |s.execs| && s.execs[x.exec].job == m.id && s.execs[x.exec].snap == x.snap
      && Own(TheExec(x.exec), trace) == x.own
    ensures DeliveryOf(s, trace, m, x)
  {
    assert trace[..|trace|] == trace;
  }

  class Consumer {
    const runner: Runner
    var log: seq<Message>
    var position: nat             // the next record to fetch
    var committed: nat            // where the next consumer of the group would begin
    var alive: bool               // the process is still there
    ghost var handled: seq<seq<Handling>>   // record by record, what its handlings came to

    constructor (runner: Runner)
      ensures this.runner == runner && log == [] && position == committed == 0 && alive && handled == []
    {
      this.runner := runner;
      log, position, committed, alive := [], 0, 0, true;
      handled := [];
    }

    /** At-least-once: no record before the committed offset is unhandled, nor, while the process
        lives, any it has fetched. */
    ghost predicate Valid()
      reads this, runner.repo
    {
      && Sound()
      && committed <= position <= |log|
      && forall o :: 0 <= o < (if alive then position else committed) ==> |handled[o]| >= 1
    }

    /** What is in the log was published, and what is recorded of its handling is so. */
    ghost predicate Sound()
      reads this`log, this`handled, runner.repo
    {
      && runner.repo.Valid() && |handled| == |log|
      && (forall o :: 0 <= o < |log| && log[o].For? ==> log[o].id in runner.repo.topic)
      && (forall o, j :: 0 <= o < |log| && 0 <= j < |handled[o]| ==>
            DeliveryOf(runner.repo.State(), runner.repo.trace, log[o], handled[o][j]))
    }

    /** The last handling of record o. */
    ghost function Latest(o: nat): Handling
      requires o < |handled| && |handled[o]| > 0
      reads this`handled
    {
      handled[o][|handled[o]| - 1]
    }

    /** This handling of record o did what the registry and its handler's outcome ask for, where
        outcomes[i] is that of record start + i. */
    ghost predicate DidAs(x: Handling, o: nat, start: nat, outcomes: seq<Outcome>) {
      && start <= o < start + |outcomes|
      && (x.Delivered? && |x.own| > 2 ==> runner.Decided(x.exec, x.snap, outcomes[o - start], x.own[2..]))
    }

    /** A published record arrives in the log. */
    method Arrive(m: Message)
      requires Valid() && (m.For? ==> m.id in runner.repo.topic)
      modifies this`log, this`handled
      ensures Valid() && log == old(log) + [m] && handled == old(handled) + [[]]
    {
      hide Backend.Valid;
      log, handled := log + [m], handled + [[]];
    }

    /** The handler, on one message: a job that cannot be fetched is skipped, anything but a job's id
        is only logged.  What is executed is never a template. */
    method Handle(m: Message, outcome: Outcome) returns (ghost e: Option<nat>, ghost own: seq<Label>)
      requires runner.repo.Valid() && (m.For? ==> m.id in runner.repo.topic)
      modifies runner.repo
      ensures runner.repo.Valid() && old(runner.repo.trace) <= runner.repo.trace
      ensures old(runner.repo.topic) <= runner.repo.topic
      ensures e.None? ==> own == []
      ensures !m.For? ==> e.None? && runner.repo.trace == old(runner.repo.trace)
      ensures old(runner.repo.faults) == [] ==> runner.repo.faults == [] && (m.For? ==> e.Some?)
      ensures e.Some? ==>
        && m.For? && |old(runner.repo.execs)| <= e.value < |runner.repo.execs|
        && !runner.repo.execs[e.value].snap.Template()
        && runner.repo.execs[e.value].job == m.id
        && Own(TheExec(e.value), runner.repo.trace) == own
        && Course(e.value, runner.repo.execs[e.value].snap,
                  runner.Effective(runner.repo.execs[e.value].snap, outcome), runner.announces, own)
        && (|own| > 0 && own != [Lose(e.value)] ==>
              own[0].Win? && own[0].exec == e.value && own[0].worker == runner.workerId)
        && (|own| > 2 ==> runner.Decided(e.value, runner.repo.execs[e.value].snap, outcome, own[2..]))
    {
      hide Own, Course, Runner.Decided, Step, Throughout, Run, Known;
      e, own := None, [];
      if m.For? {
        var r := runner.repo.GetByID(m.id, true);
        label Fetched:
        runner.repo.Remembered();
        runner.repo.MessagesNameJobs(m.id);
        if r.Snapshot? {
          e := r.exec;
          own := runner.Execute(r.exec.value, m.id, r.job, outcome);
          runner.repo.Remembered@Fetched();
        }
        runner.repo.Remembered();
      }
    }

    /** One record is handled to the end. */
    method HandleRecord(o: nat, start: nat, outcomes: seq<Outcome>)
      requires Sound() && o < |log| && start <= o < start + |outcomes|
      modifies this`handled, runner.repo
      ensures Sound() && old(runner.repo.trace) <= runner.repo.trace
      ensures |handled[o]| == |old(handled)[o]| + 1 && handled == old(handled)[o := old(handled)[o] + [Latest(o)]]
      ensures Remembers(old(runner.repo.State()), runner.repo.State())
      ensures Latest(o).Delivered? ==> |old(runner.repo.execs)| <= Latest(o).exec < |runner.repo.execs|
      ensures DidAs(Latest(o), o, start, outcomes)
      ensures old(runner.repo.faults) == [] ==> runner.repo.faults == [] && (log[o].For? ==> Latest(o).Delivered?)
    {
      hide Own, Course, Backend.Valid, DeliveryOf, Runner.Decided;
      ghost var e, own := Handle(log[o], outcomes[o - start]);
      runner.repo.Remembered();
      ghost var x := if e.Some? then Delivered(e.value, runner.repo.execs[e.value].snap, own) else Skipped;
      DeliveryNow(runner.repo.State(), runner.repo.trace, log[o], x);
      forall p, j | 0 <= p < |log| && 0 <= j < |handled[p]|
        ensures DeliveryOf(runner.repo.State(), runner.repo.trace, log[p], handled[p][j])
      {
        DeliveryStays(old(runner.repo.State()), runner.repo.State(), old(runner.repo.trace), runner.repo.trace,
                      log[p], handled[p][j]);
      }
      handled := handled[o := handled[o] + [x]];
    }

    /** The next n records, in order: each is handled once more, by a delivery of its own and with its
        own outcome. */
    method HandleRecords(start: nat, n: nat, outcomes: seq<Outcome>)
      requires Sound() && start + n <= |log| && n <= |outcomes|
      modifies this`handled, runner.repo
      ensures Sound() && old(runner.repo.trace) <= runner.repo.trace
      ensures forall o :: 0 <= o < |log| && !(start <= o < start + n) ==> handled[o] == old(handled)[o]
      ensures forall o :: start <= o < start + n ==>
        |handled[o]| > 0 && handled[o] == old(handled)[o] + [Latest(o)] && DidAs(Latest(o), o, start, outcomes)
      ensures forall o, p :: start <= o < p < start + n ==>
        Latest(o).Delivered? && Latest(p).Delivered? ==> Latest(o).exec < Latest(p).exec
      ensures old(runner.repo.faults) == [] ==>
        forall o :: start <= o < start + n && log[o].For? ==> Latest(o).Delivered?
    {
      hide Backend.Valid, DeliveryOf, Runner.Decided, Own;
      var i := 0;
      while i < n
        invariant 0 <= i <= n && Sound() && old(runner.repo.trace) <= runner.repo.trace
        invariant forall o :: 0 <= o < |log| && !(start <= o < start + i) ==> handled[o] == old(handled)[o]
        invariant forall o :: start <= o < start + i ==>
          && |handled[o]| > 0 && handled[o] == old(handled)[o] + [Latest(o)]
          && (Latest(o).Delivered? ==> Latest(o).exec < |runner.repo.execs|)
        invariant forall o :: start <= o < start + i ==> DidAs(Latest(o), o, start, outcomes)
        invariant forall o, p :: start <= o < p < start + i ==>
          Latest(o).Delivered? && Latest(p).Delivered? ==> Latest(o).exec < Latest(p).exec
        invariant old(runner.repo.faults) == [] ==>
          && runner.repo.faults == []
          && forall o :: start <= o < start + i && log[o].For? ==> Latest(o).Delivered?
      {
        HandleRecord(start + i, start, outcomes);
        i := i + 1;
      }
    }

    /** One round of Run: fetch up to `most` records, handle them, then commit.  The process may die
        after `lives` of them, and the commit may fail. */
    method Round(most: nat, outcomes: seq<Outcome>, lives: nat, commits: bool)
      requires Valid() && alive && |outcomes| == most
      modifies this`position, this`committed, this`handled, this`alive, runner.repo
      ensures Valid() && old(runner.repo.trace) <= runner.repo.trace
      ensures if most <= |log| - old(position) then position == old(position) + most else position == |log|
      ensures alive == (lives >= position - old(position))
      ensures committed == if alive && commits then position else old(committed)
      ensures var start := old(position);
        var done := if start + lives < position then start + lives else position;
        && (forall o :: 0 <= o < |log| && !(start <= o < done) ==> handled[o] == old(handled)[o])
        && (forall o :: start <= o < done ==>
              |handled[o]| > 0 && handled[o] == old(handled)[o] + [Latest(o)] && DidAs(Latest(o), o, start, outcomes))
        && (forall o, p :: start <= o < p < done ==>
              Latest(o).Delivered? && Latest(p).Delivered? ==> Latest(o).exec < Latest(p).exec)
        && (old(runner.repo.faults) == [] ==> forall o :: start <= o < done && log[o].For? ==> Latest(o).Delivered?)
    {
      hide Backend.Valid, DeliveryOf, Runner.Decided;
      var fetched := Least(most, |log| - position);
      var start := position;
      position := position + fetched;
      HandleRecords(start, Least(lives, fetched), outcomes);
      alive := lives >= fetched;
      if alive && commits { committed := position; }
    }

    /** Another consumer of the group takes over: it begins at the committed offset. */
    method TakeOver()
      requires Valid()
      modifies this`position, this`alive
      ensures Valid() && alive && position == committed
    {
      position, alive := committed, true;
    }
  }
}
