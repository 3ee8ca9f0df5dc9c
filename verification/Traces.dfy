/** Following one process through a run in which every other process keeps taking steps. */
module Traces {
  import opened Types
  import opened Backoff
  import opened Documents
  import opened System
  import opened Safety

  /** The executions and scheduler claims a process is working on: only it takes their steps.  A
      claim handed to a dispatch goroutine may still be published by that goroutine. */
  datatype Actor = Actor(execs: set<nat>, claims: set<nat>)
  {
    predicate Owns(l: Label) {
      || (OfExec(l) && l.exec in execs)
      || (OfClaim(l) && l.claim in claims)
    }
  }

  const NOBODY := Actor({}, {})

  function TheExec(e: nat): Actor { Actor({e}, {}) }

  function TheClaims(ks: seq<nat>): Actor { Actor({}, set k | k in ks) }

  /** The steps of the actor in a trace. */
  function Own(me: Actor, ls: seq<Label>): seq<Label> {
    if ls == [] then []
    else
      var front := Own(me, ls[..|ls| - 1]);
      if me.Owns(ls[|ls| - 1]) then front + [ls[|ls| - 1]] else front
  }

  lemma OwnSnoc(me: Actor, ls: seq<Label>, l: Label)
    ensures Own(me, ls + [l]) == Own(me, ls) + if me.Owns(l) then [l] else []
  {
    assert (ls + [l])[..|ls|] == ls;
  }

  lemma {:induction false} OwnNothing(ls: seq<Label>)
    ensures Own(NOBODY, ls) == [] && TheClaims([]) == NOBODY
  {
    if ls != [] { OwnNothing(ls[..|ls| - 1]); }
  }

  lemma {:induction false} OwnLess(less: Actor, more: Actor, ls: seq<Label>)
    requires less.execs <= more.execs && less.claims <= more.claims && Own(more, ls) == []
    ensures Own(less, ls) == []
  {
    if ls != [] { OwnLess(less, more, ls[..|ls| - 1]); }
  }

  /** No step of a claim or an execution is taken before it exists. */
  ghost predicate Known(ls: seq<Label>, claims: nat, execs: nat) {
    forall i :: 0 <= i < |ls| ==>
      (OfClaim(ls[i]) ==> ls[i].claim < claims) && (OfExec(ls[i]) ==> ls[i].exec < execs)
  }

  /** A claim or an execution that does not exist yet has taken no step. */
  lemma {:induction false} OwnOfNew(me: Actor, more: Actor, ls: seq<Label>, claims: nat, execs: nat)
    requires Known(ls, claims, execs)
    requires me.execs <= more.execs && forall e :: e in more.execs ==> e in me.execs || e >= execs
    requires me.claims <= more.claims && forall k :: k in more.claims ==> k in me.claims || k >= claims
    ensures Own(more, ls) == Own(me, ls)
  {
    if ls != [] {
      OwnOfNew(me, more, ls[..|ls| - 1], claims, execs);
    }
  }

  /** From state a to state b nothing of the actor's has moved. */
  ghost predicate Kept(me: Actor, a: Sys, b: Sys) {
    && Grows(a, b)
    && |a.claims| <= |b.claims| && |a.execs| <= |b.execs| && a.topic <= b.topic
    && (forall e :: e in me.execs && e < |a.execs| ==> b.execs[e] == a.execs[e])
    && (forall k :: k in me.claims && k < |a.claims| ==> b.claims[k] == a.claims[k])
  }

  lemma OthersKeep(c: Config, s: Sys, l: Label, me: Actor)
    requires !me.Owns(l)
    ensures Kept(me, s, Step(c, s, l))
  {
    hide Step;
    var t := Step(c, s, l);
    StepGrows(c, s, l);
    Lengths(c, s, l);
    forall e | e in me.execs && e < |s.execs| ensures t.execs[e] == s.execs[e] { ExecAfter(c, s, l, e); }
    forall k | k in me.claims && k < |s.claims| ensures t.claims[k] == s.claims[k] { ClaimAfter(c, s, l, k); }
  }

  /** What everyone but the actor makes of a schedule: each step of somebody else's that can be taken. */
  function Others(c: Config, s: Sys, me: Actor, ls: seq<Label>): Sys {
    if ls == [] then s
    else
      var r := Others(c, s, me, ls[..|ls| - 1]);
      if me.Owns(ls[|ls| - 1]) then r else Step(c, r, ls[|ls| - 1])
  }

  lemma OthersNext(c: Config, s: Sys, me: Actor, ls: seq<Label>, i: nat)
    requires i < |ls|
    ensures var r := Others(c, s, me, ls[..i]);
      && (me.Owns(ls[i]) || !Enabled(c, r, ls[i]) ==> Others(c, s, me, ls[..i + 1]) == r)
      && (!me.Owns(ls[i]) && Enabled(c, r, ls[i]) ==> Others(c, s, me, ls[..i + 1]) == Step(c, r, ls[i]))
  {
    hide Enabled;
    assert ls[..i + 1][..i] == ls[..i];
    NotEnabled(c, Others(c, s, me, ls[..i]), ls[i]);
  }

  lemma NotEnabled(c: Config, s: Sys, l: Label)
    ensures !Enabled(c, s, l) ==> Step(c, s, l) == s
  {
  }

  lemma Lengths(c: Config, s: Sys, l: Label)
    ensures |s.claims| <= |Step(c, s, l).claims| && |s.execs| <= |Step(c, s, l).execs|
    ensures s.topic <= Step(c, s, l).topic
  {
  }

  lemma KeptTransitive(me: Actor, a: Sys, b: Sys, d: Sys)
    requires Kept(me, a, b) && Kept(me, b, d)
    ensures Kept(me, a, d)
  {
  }

  lemma KnownSnoc(c: Config, s: Sys, ls: seq<Label>, l: Label)
    requires Known(ls, |s.claims|, |s.execs|) && Enabled(c, s, l)
    ensures Known(ls + [l], |Step(c, s, l).claims|, |Step(c, s, l).execs|)
  {
    hide Step;
    Lengths(c, s, l);
  }

  /** Nothing is forgotten from state a to state b: documents, messages, deliveries and claims. */
  ghost predicate Remembers(a: Sys, b: Sys) {
    && Grows(a, b)
    && a.topic <= b.topic
    && |a.execs| <= |b.execs|
    && (forall e :: 0 <= e < |a.execs| ==> b.execs[e].job == a.execs[e].job && b.execs[e].snap == a.execs[e].snap)
    && |a.claims| <= |b.claims|
    && (forall k :: 0 <= k < |a.claims| ==> b.claims[k].id == a.claims[k].id && b.claims[k].job == a.claims[k].job)
  }

  lemma StepRemembers(c: Config, s: Sys, l: Label)
    ensures Remembers(s, Step(c, s, l))
  {
    hide Step;
    var t := Step(c, s, l);
    StepGrows(c, s, l);
    Lengths(c, s, l);
    forall e | 0 <= e < |s.execs| ensures t.execs[e].job == s.execs[e].job && t.execs[e].snap == s.execs[e].snap {
      ExecAfter(c, s, l, e);
    }
    forall k | 0 <= k < |s.claims| ensures t.claims[k].id == s.claims[k].id && t.claims[k].job == s.claims[k].job {
      ClaimAfter(c, s, l, k);
    }
  }

  lemma {:induction false} RunRemembers(c: Config, s0: Sys, ls: seq<Label>, more: seq<Label>)
    requires ls <= more
    ensures Remembers(Run(c, s0, ls), Run(c, s0, more))
  {
    hide Step;
    if ls != more {
      var init := more[..|more| - 1];
      RunRemembers(c, s0, ls, init);
      StepRemembers(c, Run(c, s0, init), more[|more| - 1]);
    } else {
      assert ls == more;
    }
  }

  // ----- what the calls of an execution amount to -----

  lemma DeliverEffect(c: Config, s: Sys, id: nat)
    requires Enabled(c, s, Deliver(id))
    ensures Step(c, s, Deliver(id)) ==
            s.(execs := s.execs + [Exec(id, s.jobs[id].doc, Fetched, s.clock, s.clock, s.clock)])
  {
  }

  lemma WinEffect(c: Config, s: Sys, e: nat, worker: string, now: Time)
    requires Enabled(c, s, Win(e, worker, now))
    ensures Step(c, s, Win(e, worker, now)) ==
            WithWrite(WithExec(s, e, s.execs[e].(phase := Won, at := s.clock, lease := now)),
                      s.execs[e].job, SetClaimed(e, worker, now))
    ensures var d := s.jobs[s.execs[e].job].doc;
      Put(d, SetClaimed(e, worker, now)) ==
      d.(status := Claimed, claimedBy := worker, claimedAt := Some(now), updatedAt := now)
  {
  }

  lemma LoseEffect(c: Config, s: Sys, e: nat)
    requires Enabled(c, s, Lose(e))
    ensures Step(c, s, Lose(e)) == WithExec(s, e, s.execs[e].(phase := Gone, at := s.clock))
  {
  }

  lemma StartEffect(c: Config, s: Sys, e: nat, stamp: Time)
    requires Enabled(c, s, Start(e, stamp))
    ensures Step(c, s, Start(e, stamp)) ==
            WithWrite(WithExec(s, e, s.execs[e].(phase := Started, at := s.clock, lease := stamp)),
                      s.execs[e].job, SetRunning(stamp))
  {
  }

  lemma FinishEffect(c: Config, s: Sys, e: nat, stamp: Time)
    requires Enabled(c, s, Finish(e, stamp))
    ensures Step(c, s, Finish(e, stamp)) ==
            WithWrite(WithExec(s, e, s.execs[e].(phase := Gone, at := s.clock)), s.execs[e].job, SetCompleted(stamp))
  {
  }

  lemma ReadEffect(c: Config, s: Sys, e: nat)
    requires Enabled(c, s, ReadForFail(e))
    ensures Step(c, s, ReadForFail(e)) ==
            WithExec(s, e, s.execs[e].(phase := Failing(s.jobs[s.execs[e].job].doc), at := s.clock))
  {
  }

  lemma FailEffect(c: Config, s: Sys, e: nat, error: string, now: Time)
    requires Enabled(c, s, WriteFail(e, error, now))
    ensures var x := s.execs[e];
      Step(c, s, WriteFail(e, error, now)) ==
      WithWrite(WithExec(s, e, x.(phase := if SnapshotExhausted(x.snap) then Exhausted else Gone, at := s.clock)),
                x.job, SetFailed(x.phase.read, error, ExponentialBackoff(x.snap.attempts), now))
  {
  }

  lemma PublishDlqEffect(c: Config, s: Sys, e: nat)
    requires Enabled(c, s, PublishDlq(e))
    ensures Step(c, s, PublishDlq(e)) ==
            WithExec(s, e, s.execs[e].(phase := Published, at := s.clock)).(dlq := s.dlq + [s.execs[e].job])
  {
  }

  // ----- what the calls of a scheduler amount to -----

  lemma ClaimEffect(c: Config, s: Sys, id: nat, cutoff: Time, stamp: Time)
    requires Enabled(c, s, ClaimOne(id, cutoff, stamp))
    ensures var d := s.jobs[id].doc.(status := Queued, updatedAt := stamp);
      && Step(c, s, ClaimOne(id, cutoff, stamp)) ==
         WithWrite(s, id, SetQueued(|s.claims|, stamp)).(claims := s.claims + [Claim(id, d, Held, s.clock)])
      && Put(s.jobs[id].doc, SetQueued(|s.claims|, stamp)) == d
  {
  }

  lemma SpawnEffect(c: Config, s: Sys, k: nat, now: Time)
    requires Enabled(c, s, Spawn(k, now))
    ensures var id := s.claims[k].id; var g := s.jobs[id].log;
      Step(c, s, Spawn(k, now)) ==
      s.(jobs := s.jobs[id := s.jobs[id].(log := g.(fires := g.fires + [Fire(s.claims[k].job.scheduledAt, now)]))]
                 + [Entry(NewInstance(s.claims[k].job, now), NewLog(Queued, Some(id), s.clock))],
         claims := s.claims[k := s.claims[k].(progress := Spawned(|s.jobs|), at := s.clock)])
  {
  }

  lemma RescheduleEffect(c: Config, s: Sys, k: nat, now: Time, stamp: Time)
    requires Enabled(c, s, Reschedule(k, now, stamp))
    ensures var x := s.claims[k]; var next := c.next(x.job.cron, now);
      && Step(c, s, Reschedule(k, now, stamp)) ==
         WithWrite(s, x.id, SetRescheduled(next, stamp))
           .(claims := s.claims[k := x.(progress := Settled(x.progress.inst), at := s.clock)])
      && Put(s.jobs[x.id].doc, SetRescheduled(next, stamp)) ==
         s.jobs[x.id].doc.(status := Pending, scheduledAt := next, updatedAt := stamp)
  {
  }

  lemma LostEffect(c: Config, s: Sys, k: nat)
    requires Enabled(c, s, RescheduleLost(k))
    ensures var x := s.claims[k];
      Step(c, s, RescheduleLost(k)) ==
      s.(claims := s.claims[k := x.(progress := Settled(x.progress.inst), at := s.clock)])
  {
  }

  lemma DeadLetterEffect(c: Config, s: Sys, k: nat, reason: string, stamp: Time)
    requires Enabled(c, s, DeadLetter(k, reason, stamp))
    ensures var x := s.claims[k];
      && Step(c, s, DeadLetter(k, reason, stamp)) ==
         WithWrite(s, x.id, SetInvalid(reason, stamp))
           .(claims := s.claims[k := x.(progress := Dropped(x.progress.inst), at := s.clock)])
      && Put(s.jobs[x.id].doc, SetInvalid(reason, stamp)) ==
         s.jobs[x.id].doc.(status := Dlq, lastError := reason, updatedAt := stamp)
  {
  }

  lemma PublishEffect(c: Config, s: Sys, k: nat)
    requires Enabled(c, s, Publish(k))
    ensures Step(c, s, Publish(k)) == s.(topic := s.topic + {s.claims[k].Target()})
  {
  }

  // ----- what the remaining calls amount to -----

  lemma CreateEffect(c: Config, s: Sys, req: CreateRequest, now: Time)
    requires Enabled(c, s, Create(req, now))
    ensures Step(c, s, Create(req, now)) ==
            s.(jobs := s.jobs + [Entry(NewJob(req, now), NewLog(Pending, None, s.clock))])
  {
  }
}
