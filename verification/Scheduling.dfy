/** The scheduler loop of internal/scheduler/loop.go. */
module Scheduling {
  import opened Types
  import opened Documents
  import opened System
  import opened Safety
  import opened Traces
  import opened Claiming
  import opened Store

  /** The steps of firing the template of claim k, up to wherever an error stopped it: an instance,
      then the template's next occurrence, or its end if the expression does not parse. */
  predicate Firing(c: Config, k: nat, cron: string, own: seq<Label>) {
    && |own| <= 2
    && (|own| > 0 ==> own[0].Spawn? && own[0].claim == k)
    && (|own| > 1 ==>
          && OfClaim(own[1]) && own[1].claim == k
          && if c.parses(cron) then own[1].Reschedule? || own[1].RescheduleLost? else own[1].DeadLetter?)
  }

  /** Some document has the key of an instance of the template, spawned at one instant or another. */
  ghost predicate KeyTaken(jobs: seq<Entry>, key: string) {
    exists now: Time :: !KeyFree(jobs, InstanceKey(key, now))
  }

  lemma KeyStaysTaken(a: Sys, b: Sys, key: string)
    requires Grows(a, b) && KeyTaken(a.jobs, key)
    ensures KeyTaken(b.jobs, key)
  {
    hide InstanceKey;
    var now: Time :| !KeyFree(a.jobs, InstanceKey(key, now));
    var i: nat :| i < |a.jobs| && a.jobs[i].doc.key == InstanceKey(key, now);
    assert SameJob(a.jobs[i].doc, b.jobs[i].doc);
    assert !KeyFree(b.jobs, InstanceKey(key, now));
  }

  /** `started` holds claims of the batch, each once and in the order of the batch: the a-th of them
      stands at position at[a]. */
  ghost predicate InBatchOrder(batch: seq<nat>, started: seq<nat>, at: seq<nat>) {
    && |at| == |started|
    && (forall a :: 0 <= a < |at| ==> at[a] < |batch| && started[a] == batch[at[a]])
    && (forall a, b :: 0 <= a < b < |at| ==> at[a] < at[b])
  }

  lemma NoneStarted(batch: seq<nat>)
    ensures InBatchOrder(batch, [], []) && InBatchOrder(batch[..0], [], [])
  {
  }

  lemma OrderNext(batch: seq<nat>, started: seq<nat>, at: seq<nat>, i: nat)
    requires i < |batch| && InBatchOrder(batch[..i], started, at)
    ensures InBatchOrder(batch[..i + 1], started, at)
    ensures InBatchOrder(batch[..i + 1], started + [batch[i]], at + [i])
  {
    forall a | 0 <= a < |at| ensures batch[..i + 1][at[a]] == batch[..i][at[a]] {
    }
  }

  lemma OrderIsOnce(batch: seq<nat>, started: seq<nat>, at: seq<nat>)
    requires InBatchOrder(batch, started, at)
    requires forall a, b :: 0 <= a < b < |batch| ==> batch[a] != batch[b]
    ensures forall a, b :: 0 <= a < b < |started| ==> started[a] != started[b]
  {
    forall a, b | 0 <= a < b < |started| ensures started[a] != started[b] {
      assert batch[at[a]] != batch[at[b]];
    }
  }

  /** What a loop dispatches: a one-off job it holds, and a template it has fired and tried to
      reschedule. */
  ghost predicate DispatchMeaning(x: Claim) {
    x.Dispatchable() <==> if x.job.cron == "" then x.progress.Held? else x.progress.Settled?
  }

  lemma DispatchableMeans(x: Claim)
    ensures DispatchMeaning(x)
    ensures x.Dispatchable() ==> x.Target() == if x.job.cron == "" then x.id else x.progress.inst
  {
  }

  /** Nothing was left undone for the claim: a dispatch was started, or its expression does not parse
      and the template is dead-lettered, or the instance could not be inserted because of its key. */
  ghost predicate Served(c: Config, jobs: seq<Entry>, x: Claim) {
    || x.Dispatchable()
    || (x.progress.Dropped? && !c.parses(x.job.cron))
    || (x.job.Template() && x.progress.Held? && KeyTaken(jobs, x.job.key))
  }

  /** What has been done for the first claims of a batch is not undone by the next. */
  lemma ServedStays(c: Config, a: Sys, b: Sys, batch: seq<nat>, i: nat)
    requires Grows(a, b) && |a.claims| <= |b.claims| && i <= |batch|
    requires forall x :: 0 <= x < i ==> batch[x] < |a.claims| && b.claims[batch[x]] == a.claims[batch[x]]
    ensures forall x :: 0 <= x < i && Served(c, a.jobs, a.claims[batch[x]]) ==> Served(c, b.jobs, b.claims[batch[x]])
  {
    hide KeyTaken;
    forall x | 0 <= x < i && Served(c, a.jobs, a.claims[batch[x]]) ensures Served(c, b.jobs, b.claims[batch[x]]) {
      if KeyTaken(a.jobs, b.claims[batch[x]].job.key) {
        KeyStaysTaken(a, b, b.claims[batch[x]].job.key);
      }
    }
  }

  class Loop {
    const repo: Backend
    const batchSize: int

    constructor (repo: Backend, batchSize: int)
      ensures this.repo == repo && this.batchSize == batchSize
    {
      this.repo, this.batchSize := repo, batchSize;
    }

    /** handleCronJob on claim k of the batch `ks`: `started` says that a dispatch was started for
        the instance. */
    method HandleCronJob(ks: seq<nat>, k: nat) returns (started: bool, ghost own: seq<Label>)
      requires repo.Valid() && k in ks && k < |repo.claims|
      requires repo.claims[k].progress.Held? && repo.claims[k].job.Template()
      requires repo.claims[k].id < |repo.jobs| && repo.claims[k].at <= repo.clock
      modifies repo
      ensures repo.Valid() && old(repo.trace) <= repo.trace
      ensures |old(repo.jobs)| <= |repo.jobs| && old(repo.clock) <= repo.clock && repo.RestKept(ks, k)
      ensures Own(TheClaims(ks), repo.trace) == Own(TheClaims(ks), old(repo.trace)) + own
      ensures Firing(repo.c, k, old(repo.claims)[k].job.cron, own)
      ensures k < |repo.claims| && repo.claims[k].job == old(repo.claims)[k].job
      ensures started <==> repo.claims[k].progress.Settled?
      ensures started ==> |own| == 2 && !own[1].DeadLetter?
      ensures repo.claims[k].progress.Spawned? <==> |own| == 1
      ensures repo.claims[k].progress.Held? <==> own == []
      ensures repo.claims[k].progress.Dropped? ==> !repo.c.parses(repo.claims[k].job.cron)
      ensures |own| > 1 && own[1].DeadLetter? ==>
        own[1].reason == "invalid cron expression \"" + old(repo.claims)[k].job.cron + "\""
      ensures old(repo.faults) == [] ==>
        && repo.faults == [] && |own| != 1
        && (own == [] ==> !KeyFree(repo.jobs, InstanceKey(repo.claims[k].job.key, old(repo.clock))))
    {
      hide Own, KeyFree, InstanceKey, NewInstance, Backend.Valid;
      started := false;
      var err;
      err, own := repo.SpawnCronInstance(ks, k);
      if err.Some? { return; }
      var template := repo.claims[k].job;
      var now := repo.clock;
      var next := repo.c.NextOccurrence(template.cron, now);
      ghost var more;
      if next.None? {
        err, more := repo.MarkCronInvalid(ks, k, "invalid cron expression \"" + template.cron + "\"");
        own := own + more;
        return;
      }
      err, more := repo.RescheduleCronTemplate(ks, k, next.value, now);
      own := own + more;
      started := true;
    }

    /** One claim of a batch: `start` says that a dispatch was started for it. */
    method HandleClaim(batch: seq<nat>, i: nat) returns (start: bool)
      requires repo.Valid() && i < |batch| && forall a, b :: 0 <= a < b < |batch| ==> batch[a] != batch[b]
      requires forall a :: 0 <= a <= i ==> batch[a] < |repo.claims|
      requires repo.claims[batch[i]].progress.Held?
      requires repo.claims[batch[i]].id < |repo.jobs| && repo.claims[batch[i]].at <= repo.clock
      modifies repo
      ensures repo.Valid() && old(repo.trace) <= repo.trace
      ensures |old(repo.jobs)| <= |repo.jobs| && old(repo.clock) <= repo.clock && repo.RestKept(batch, batch[i])
      ensures batch[i] < |repo.claims| && (start <==> repo.claims[batch[i]].Dispatchable())
      ensures old(repo.faults) == [] ==> repo.faults == [] && Served(repo.c, repo.jobs, repo.claims[batch[i]])
      ensures forall a :: 0 <= a < i && Served(repo.c, old(repo.jobs), old(repo.claims)[batch[a]]) ==>
        batch[a] < |repo.claims| && Served(repo.c, repo.jobs, repo.claims[batch[a]])
    {
      hide Own, KeyFree, InstanceKey, Firing, Backend.Valid;
      start := true;
      if repo.claims[batch[i]].job.Template() {
        ghost var own;
        start, own := HandleCronJob(batch, batch[i]);
      }
      repo.Remembered();
      ServedStays(repo.c, old(repo.State()), repo.State(), batch, i);
    }

    /** The claims of a batch, in order: one dispatch is started for each of those in `started`. */
    method HandleBatch(batch: seq<nat>) returns (started: seq<nat>, ghost at: seq<nat>)
      requires repo.Valid()
      requires forall a, b :: 0 <= a < b < |batch| ==> batch[a] != batch[b]
      requires forall a :: 0 <= a < |batch| ==>
        && batch[a] < |repo.claims| && repo.claims[batch[a]].progress.Held?
        && repo.claims[batch[a]].at <= repo.clock && repo.claims[batch[a]].id < |repo.jobs|
      modifies repo
      ensures repo.Valid() && old(repo.trace) <= repo.trace && |old(repo.claims)| <= |repo.claims|
      ensures InBatchOrder(batch, started, at)
      ensures forall a, b :: 0 <= a < b < |started| ==> started[a] != started[b]
      ensures forall k :: k in started ==> k in batch
      ensures forall k :: k in batch ==> k < |repo.claims| && (k in started <==> repo.claims[k].Dispatchable())
      ensures forall k :: k in batch ==> repo.claims[k].id == old(repo.claims)[k].id
      ensures old(repo.faults) == [] ==>
        repo.faults == [] && forall k :: k in batch ==> Served(repo.c, repo.jobs, repo.claims[k])
    {
      hide Backend.Valid, Claim.Dispatchable, Served, InBatchOrder;
      NoneStarted(batch);
      started, at := [], [];
      var i := 0;
      while i < |batch|
        invariant 0 <= i <= |batch| && repo.Valid() && old(repo.trace) <= repo.trace
        invariant |old(repo.claims)| <= |repo.claims|
        invariant forall a :: i <= a < |batch| ==>
          && repo.claims[batch[a]].progress.Held? && repo.claims[batch[a]].at <= repo.clock
          && repo.claims[batch[a]].id < |repo.jobs|
        invariant InBatchOrder(batch[..i], started, at) && forall k :: k in started ==> k in batch[..i]
        invariant forall a :: 0 <= a < i ==> (batch[a] in started <==> repo.claims[batch[a]].Dispatchable())
        invariant old(repo.faults) == [] ==>
          && repo.faults == []
          && forall a :: 0 <= a < i ==> Served(repo.c, repo.jobs, repo.claims[batch[a]])
      {
        var start := HandleClaim(batch, i);
        OrderNext(batch, started, at, i);
        if start { started, at := started + [batch[i]], at + [i]; }
        i := i + 1;
      }
      repo.Remembered();
      assert batch[..|batch|] == batch;
      OrderIsOnce(batch, started, at);
    }

    /** runOnce: on an error the batch is dropped, and its jobs are left as they are.  Otherwise a
        dispatch is started for exactly the claims in `started`: every one-off job, and every
        template whose instance was spawned and reschedule called; one each, in order.  Undisturbed, the batch is a
        top-k selection of what was due when it began; `claimed` is the collection after the claims. */
    method RunOnce()
      returns (batch: seq<nat>, started: seq<nat>, err: Option<Error>,
        ghost got: seq<nat>, ghost claimed: seq<Entry>, ghost at: seq<nat>)
      requires repo.Valid()
      modifies repo
      ensures repo.Valid() && old(repo.trace) <= repo.trace
      ensures |batch| <= batchSize || batch == []
      ensures |got| == |batch| && forall a :: 0 <= a < |batch| ==>
        batch[a] < |repo.claims| && repo.claims[batch[a]].id == got[a]
      ensures old(repo.others) == [] && err.None? ==>
        TopK(old(repo.jobs), claimed, old(repo.clock), batchSize, got)
        && BestFirst(old(repo.jobs), claimed, old(repo.clock), got)
      ensures forall k :: k in batch ==> |old(repo.claims)| <= k < |repo.claims|
      ensures forall a, b :: 0 <= a < b < |batch| ==> batch[a] != batch[b]
      ensures InBatchOrder(batch, started, at)
      ensures forall a, b :: 0 <= a < b < |started| ==> started[a] != started[b]
      ensures forall k :: k in started ==> k in batch
      ensures err.Some? ==> started == [] && forall k :: k in batch ==> repo.claims[k].progress.Held?
      ensures err.None? ==> forall k :: k in batch ==> (k in started <==> repo.claims[k].Dispatchable())
      ensures err.None? ==> forall k :: k in batch ==>
        var x := repo.claims[k];
        (k in started <==> if x.job.cron == "" then x.progress.Held? else x.progress.Settled?)
      ensures old(repo.faults) == [] ==>
        && repo.faults == [] && err.None?
        && forall k :: k in batch ==> Served(repo.c, repo.jobs, repo.claims[k])
    {
      hide Own, Step, Throughout, Run, Known, Backend.Valid, Claim.Dispatchable;
      hide TopK, Served, ClaimedAt, NoneDue, BestFirst, InBatchOrder;
      started, at := [], [];
      ghost var steps;
      batch, got, err, steps := repo.ClaimDueJobs(repo.clock, batchSize);
      claimed := repo.jobs;
      NoneStarted(batch);
      if err.Some? { return; }
      started, at := HandleBatch(batch);
      forall k | k in batch ensures DispatchMeaning(repo.claims[k]) { DispatchableMeans(repo.claims[k]); }
    }
  }
}
