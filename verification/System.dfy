/** The whole system as one state machine.  A step is one store call, one message, one delivery or
    a move of the clock; any number of scheduler loops, executors and reapers take steps in any
    order.  A crash is a process that takes no further step, a lost message one that is never
    delivered, and a duplicate one that is delivered again. */
module System {
  import opened Types
  import opened Backoff
  import opened Documents

  /** What one claim made by a scheduler loop has led to. */
  datatype Progress =
    | Held                    // in the loop's batch
    | Spawned(inst: nat)      // a template whose instance is inserted
    | Settled(inst: nat)      // ... and whose reschedule call has returned
    | Dropped(inst: nat)      // ... and whose expression did not parse: nothing is dispatched

  /** A claimed job in a scheduler's hands: the document as findOneAndUpdate returned it. */
  datatype Claim = Claim(id: nat, job: Job, progress: Progress, at: Time)
  {
    /** The document the loop has handed, or will hand, to its dispatch function. */
    predicate Dispatchable() { if job.Template() then progress.Settled? else progress.Held? }

    function Target(): nat
      requires Dispatchable()
    {
      if job.Template() then progress.inst else id
    }
  }

  /** How far one delivery of a message has come in Execute. */
  datatype Phase =
    | Fetched                 // GetByID has returned the snapshot
    | Won                     // MarkClaimed succeeded
    | Started                 // MarkRunning done, handler running
    | Failing(read: Job)      // MarkFailed has read the document, not yet written
    | Exhausted               // failure written, DLQ message due
    | Published               // DLQ message sent
    | Gone

  datatype Exec = Exec(job: nat, snap: Job, phase: Phase, fetched: Time, at: Time, lease: Time)
  {
    predicate Working() { phase.Won? || phase.Started? || phase.Failing? }
  }

  datatype Sys = Sys(
    clock: Time,
    jobs: seq<Entry>,         // the collection, in insertion order
    claims: seq<Claim>,       // every scheduler claim ever made
    topic: set<nat>,          // jobs named by a message on a dispatch topic
    dlq: seq<nat>,            // jobs named by the messages on the DLQ topic
    execs: seq<Exec>)         // every delivery ever made

  function Empty(clock: Time): Sys { Sys(clock, [], [], {}, [], []) }

  datatype Label =
    | Tick(dt: nat)
    | Create(req: CreateRequest, now: Time)
    | ClaimOne(id: nat, cutoff: Time, stamp: Time)
    | Publish(claim: nat)
    | Spawn(claim: nat, now: Time)
    | Reschedule(claim: nat, now: Time, stamp: Time)
    | RescheduleLost(claim: nat)
    | DeadLetter(claim: nat, reason: string, stamp: Time)
    | Deliver(id: nat)
    | Win(exec: nat, worker: string, now: Time)
    | Lose(exec: nat)
    | Start(exec: nat, stamp: Time)
    | Finish(exec: nat, stamp: Time)
    | ReadForFail(exec: nat)
    | WriteFail(exec: nat, error: string, now: Time)
    | PublishDlq(exec: nat)
    | SweepQueued(id: nat, now: Time, stamp: Time)
    | SweepExecution(id: nat, now: Time, stamp: Time)
  {
    /** The step belongs to execution e. */
    predicate ByExec(e: nat) {
      (Win? || Lose? || Start? || Finish? || ReadForFail? || WriteFail? || PublishDlq?) && exec == e
    }

    /** The step belongs to the scheduler claim k. */
    predicate ByClaim(k: nat) {
      (Publish? || Spawn? || Reschedule? || RescheduleLost? || DeadLetter?) && claim == k
    }
  }

  predicate OfExec(l: Label) {
    l.Win? || l.Lose? || l.Start? || l.Finish? || l.ReadForFail? || l.WriteFail? || l.PublishDlq?
  }

  predicate OfClaim(l: Label) { l.Spawn? || l.Reschedule? || l.RescheduleLost? || l.DeadLetter? }

  // ----- queries of the store -----

  predicate Due(d: Job, cutoff: Time) { d.status.Pending? && d.scheduledAt <= cutoff }

  /** The sort of the claim: priority descending, then scheduledAt ascending. */
  predicate Before(a: Job, b: Job) {
    a.priority > b.priority || (a.priority == b.priority && a.scheduledAt < b.scheduledAt)
  }

  /** findOneAndUpdate may return `id`: it is due and no due document is ordered before it. */
  predicate IsTop(jobs: seq<Entry>, id: nat, cutoff: Time) {
    && id < |jobs| && Due(jobs[id].doc, cutoff)
    && forall j :: 0 <= j < |jobs| && Due(jobs[j].doc, cutoff) ==> !Before(jobs[j].doc, jobs[id].doc)
  }

  ghost function DueIn(jobs: seq<Entry>, cutoff: Time): set<nat> {
    set i | 0 <= i < |jobs| && Due(jobs[i].doc, cutoff)
  }

  predicate KeyFree(jobs: seq<Entry>, key: string) {
    forall i :: 0 <= i < |jobs| ==> jobs[i].doc.key != key
  }

  predicate StuckQueued(c: Config, d: Job, now: Time) {
    d.status.Queued? && d.updatedAt <= now - c.queuedTimeout
  }

  predicate StuckExecuting(c: Config, d: Job, now: Time) {
    d.status.Executing() && d.updatedAt <= now - c.claimTimeout
  }

  function NewJob(req: CreateRequest, now: Time): Job {
    Job(req.key, req.tenant, req.jobType, req.payload, req.priority, Pending, req.scheduledAt, req.cron,
        "", None, 0, if req.maxAttempts <= 0 then 3 else req.maxAttempts, "", now, now)
  }

  function NewInstance(t: Job, now: Time): Job {
    Job(InstanceKey(t.key, now), t.tenant, t.jobType, t.payload, t.priority, Queued, now, "",
        "", None, 0, t.maxAttempts, "", now, now)
  }

  function InstanceKey(key: string, now: Time): string { key + "-run-" + Decimal(now) }

  function Decimal(n: int): string
    decreases if n < 0 then 1 else 0, if n < 0 then -n else n
  {
    if n < 0 then "-" + Decimal(-n)
    else if n < 10 then [Digit(n)]
    else Decimal(n / 10) + [Digit(n % 10)]
  }

  function Digit(n: nat): char
    requires n < 10
  {
    ['0', '1', '2', '3', '4', '5', '6', '7', '8', '9'][n]
  }

  // ----- steps -----

  /** When a step can be taken.  A stamp is an instant the caller read off the clock after its own
      previous step and before the call reached the store. */
  predicate Enabled(c: Config, s: Sys, l: Label) {
    match l
    case Tick(_) => true
    case Create(req, now) => KeyFree(s.jobs, req.key) && now <= s.clock
    case ClaimOne(id, cutoff, stamp) => IsTop(s.jobs, id, cutoff) && cutoff <= stamp <= s.clock
    case Publish(k) => k < |s.claims| && s.claims[k].Dispatchable()
    case Spawn(k, now) =>
      && k < |s.claims| && s.claims[k].job.Template() && s.claims[k].progress.Held?
      && KeyFree(s.jobs, InstanceKey(s.claims[k].job.key, now))
      && s.claims[k].at <= now <= s.clock
      && s.claims[k].id < |s.jobs|
    case Reschedule(k, now, stamp) =>
      && k < |s.claims| && s.claims[k].progress.Spawned? && s.claims[k].id < |s.jobs|
      && c.NextOccurrence(s.claims[k].job.cron, now).Some?
      && s.claims[k].at <= now <= stamp <= s.clock
    case RescheduleLost(k) =>
      && k < |s.claims| && s.claims[k].progress.Spawned? && c.parses(s.claims[k].job.cron)
    case DeadLetter(k, _, stamp) =>
      && k < |s.claims| && s.claims[k].progress.Spawned? && s.claims[k].id < |s.jobs|
      && !c.parses(s.claims[k].job.cron) && s.claims[k].at <= stamp <= s.clock
    case Deliver(id) => id in s.topic && id < |s.jobs|
    case Win(e, _, now) =>
      && e < |s.execs| && s.execs[e].phase.Fetched? && s.execs[e].job < |s.jobs|
      && s.jobs[s.execs[e].job].doc.status.Queued?
      && s.execs[e].at <= now <= s.clock
    case Lose(e) =>
      && e < |s.execs| && s.execs[e].phase.Fetched? && s.execs[e].job < |s.jobs|
      && !s.jobs[s.execs[e].job].doc.status.Queued?
    case Start(e, stamp) =>
      && e < |s.execs| && s.execs[e].phase.Won? && s.execs[e].job < |s.jobs|
      && s.execs[e].at <= stamp <= s.clock
    case Finish(e, stamp) =>
      && e < |s.execs| && s.execs[e].phase.Started? && s.execs[e].job < |s.jobs|
      && s.execs[e].at <= stamp <= s.clock
    case ReadForFail(e) =>
      e < |s.execs| && s.execs[e].phase.Started? && s.execs[e].job < |s.jobs|
    case WriteFail(e, _, now) =>
      && e < |s.execs| && s.execs[e].phase.Failing? && s.execs[e].job < |s.jobs|
      && s.execs[e].at <= now <= s.clock
    case PublishDlq(e) => e < |s.execs| && s.execs[e].phase.Exhausted?
    case SweepQueued(id, now, stamp) => id < |s.jobs| && now <= stamp <= s.clock
    case SweepExecution(id, now, stamp) => id < |s.jobs| && now <= stamp <= s.clock
  }

  function WithWrite(s: Sys, id: nat, w: Write): Sys
    requires id < |s.jobs|
  {
    s.(jobs := s.jobs[id := Record(s.jobs[id], w, s.clock)])
  }

  function WithExec(s: Sys, e: nat, x: Exec): Sys
    requires e < |s.execs|
  {
    s.(execs := s.execs[e := x])
  }

  /** Whether the failed job is out of attempts, judged on the snapshot fetched before the claim. */
  predicate SnapshotExhausted(snap: Job) { snap.attempts + 1 >= snap.maxAttempts }

  /** The document a step writes, and the write; None for steps that write no document. */
  function WriteOf(c: Config, s: Sys, l: Label): (r: Option<(nat, Write)>)
    requires Enabled(c, s, l)
    ensures r.Some? ==> r.value.0 < |s.jobs|
  {
    match l
    case ClaimOne(id, _, stamp) => Some((id, SetQueued(|s.claims|, stamp)))
    case Reschedule(k, now, stamp) =>
      Some((s.claims[k].id, SetRescheduled(c.next(s.claims[k].job.cron, now), stamp)))
    case DeadLetter(k, reason, stamp) => Some((s.claims[k].id, SetInvalid(reason, stamp)))
    case Win(e, worker, now) => Some((s.execs[e].job, SetClaimed(e, worker, now)))
    case Start(e, stamp) => Some((s.execs[e].job, SetRunning(stamp)))
    case Finish(e, stamp) => Some((s.execs[e].job, SetCompleted(stamp)))
    case WriteFail(e, error, now) =>
      var x := s.execs[e];
      Some((x.job, SetFailed(x.phase.read, error, ExponentialBackoff(x.snap.attempts), now)))
    case SweepQueued(id, now, stamp) =>
      if StuckQueued(c, s.jobs[id].doc, now) then Some((id, SweptQueued(stamp))) else None
    case SweepExecution(id, now, stamp) =>
      if StuckExecuting(c, s.jobs[id].doc, now) then Some((id, SweptExecution(stamp))) else None
    case _ => None
  }

  /** Inserts append a document; every other store call performs its one write. */
  function JobsAfter(c: Config, s: Sys, l: Label): seq<Entry>
    requires Enabled(c, s, l)
  {
    if l.Create? then
      s.jobs + [Entry(NewJob(l.req, l.now), NewLog(Pending, None, s.clock))]
    else if l.Spawn? then
      var k := s.claims[l.claim];
      var g := s.jobs[k.id].log;
      s.jobs[k.id := s.jobs[k.id].(log := g.(fires := g.fires + [Fire(k.job.scheduledAt, l.now)]))]
      + [Entry(NewInstance(k.job, l.now), NewLog(Queued, Some(k.id), s.clock))]
    else
      var w := WriteOf(c, s, l);
      if w.None? then s.jobs
      else s.jobs[w.value.0 := Record(s.jobs[w.value.0], w.value.1, s.clock)]
  }

  function ClaimsAfter(c: Config, s: Sys, l: Label): seq<Claim>
    requires Enabled(c, s, l)
  {
    match l
    case ClaimOne(id, _, stamp) =>
      s.claims + [Claim(id, Put(s.jobs[id].doc, SetQueued(|s.claims|, stamp)), Held, s.clock)]
    case Spawn(k, _) => s.claims[k := s.claims[k].(progress := Spawned(|s.jobs|), at := s.clock)]
    case Reschedule(k, _, _) =>
      s.claims[k := s.claims[k].(progress := Settled(s.claims[k].progress.inst), at := s.clock)]
    case RescheduleLost(k) =>
      s.claims[k := s.claims[k].(progress := Settled(s.claims[k].progress.inst), at := s.clock)]
    case DeadLetter(k, _, _) =>
      s.claims[k := s.claims[k].(progress := Dropped(s.claims[k].progress.inst), at := s.clock)]
    case _ => s.claims
  }

  function ExecsAfter(c: Config, s: Sys, l: Label): seq<Exec>
    requires Enabled(c, s, l)
  {
    match l
    case Deliver(id) => s.execs + [Exec(id, s.jobs[id].doc, Fetched, s.clock, s.clock, s.clock)]
    case Win(e, _, now) => s.execs[e := s.execs[e].(phase := Won, at := s.clock, lease := now)]
    case Lose(e) => s.execs[e := s.execs[e].(phase := Gone, at := s.clock)]
    case Start(e, stamp) => s.execs[e := s.execs[e].(phase := Started, at := s.clock, lease := stamp)]
    case Finish(e, _) => s.execs[e := s.execs[e].(phase := Gone, at := s.clock)]
    case ReadForFail(e) =>
      s.execs[e := s.execs[e].(phase := Failing(s.jobs[s.execs[e].job].doc), at := s.clock)]
    case WriteFail(e, _, _) =>
      s.execs[e := s.execs[e].(phase := if SnapshotExhausted(s.execs[e].snap) then Exhausted else Gone, at := s.clock)]
    case PublishDlq(e) => s.execs[e := s.execs[e].(phase := Published, at := s.clock)]
    case _ => s.execs
  }

  function Apply(c: Config, s: Sys, l: Label): Sys
    requires Enabled(c, s, l)
  {
    Sys(if l.Tick? then s.clock + l.dt else s.clock,
        JobsAfter(c, s, l),
        ClaimsAfter(c, s, l),
        if l.Publish? then s.topic + {s.claims[l.claim].Target()} else s.topic,
        if l.PublishDlq? then s.dlq + [s.execs[l.exec].job] else s.dlq,
        ExecsAfter(c, s, l))
  }

  /** The step writes document `id`. */
  predicate WritesTo(c: Config, s: Sys, l: Label, id: nat) {
    Enabled(c, s, l) && WriteOf(c, s, l).Some? && WriteOf(c, s, l).value.0 == id
  }

  // ----- what a step does to each part -----

  lemma InsertsWriteNothing(c: Config, s: Sys, l: Label)
    requires Enabled(c, s, l) && (l.Create? || l.Spawn?)
    ensures WriteOf(c, s, l).None?
  {
  }

  /** A step leaves a document and its history alone, performs its one write on it, or notes a
      firing in the history of a template. */
  lemma JobAfter(c: Config, s: Sys, l: Label, id: nat)
    requires id < |s.jobs|
    ensures var t := Step(c, s, l);
      && |s.jobs| <= |t.jobs| && s.clock <= t.clock
      && (if WritesTo(c, s, l, id)
          then t.jobs[id] == Record(s.jobs[id], WriteOf(c, s, l).value.1, s.clock)
          else t.jobs[id].doc == s.jobs[id].doc && t.jobs[id].log == s.jobs[id].log.(fires := t.jobs[id].log.fires))
      && t.jobs[id].log.fires ==
           (if Enabled(c, s, l) && l.Spawn? && s.claims[l.claim].id == id
            then s.jobs[id].log.fires + [Fire(s.claims[l.claim].job.scheduledAt, l.now)]
            else s.jobs[id].log.fires)
  {
    hide Step, WriteOf, Enabled, Put;
    JobsMove(c, s, l);
    if Enabled(c, s, l) && (l.Create? || l.Spawn?) {
      InsertsWriteNothing(c, s, l);
      if l.Spawn? { SpawnHasClaim(c, s, l); }
    }
  }

  lemma JobsMove(c: Config, s: Sys, l: Label)
    ensures Step(c, s, l).jobs == if Enabled(c, s, l) then JobsAfter(c, s, l) else s.jobs
    ensures s.clock <= Step(c, s, l).clock
  {
  }

  lemma SpawnHasClaim(c: Config, s: Sys, l: Label)
    requires Enabled(c, s, l) && l.Spawn?
    ensures l.claim < |s.claims| && s.claims[l.claim].id < |s.jobs|
  {
  }

  /** A document inserted by a step: by a request or by a template. */
  lemma BornAfter(c: Config, s: Sys, l: Label, id: nat)
    requires |s.jobs| <= id < |Step(c, s, l).jobs|
    ensures Enabled(c, s, l) && id == |s.jobs| && (l.Create? || l.Spawn?)
    ensures Step(c, s, l).jobs[id] ==
            (if l.Create? then Entry(NewJob(l.req, l.now), NewLog(Pending, None, s.clock))
             else Entry(NewInstance(s.claims[l.claim].job, l.now), NewLog(Queued, Some(s.claims[l.claim].id), s.clock)))
  {
  }

  /** A claim is changed by its own steps only. */
  lemma ClaimAfter(c: Config, s: Sys, l: Label, k: nat)
    requires k < |s.claims|
    ensures var t := Step(c, s, l);
      && |s.claims| <= |t.claims|
      && t.claims[k].id == s.claims[k].id && t.claims[k].job == s.claims[k].job
      && (!l.ByClaim(k) || l.Publish? || !Enabled(c, s, l) ==> t.claims[k] == s.claims[k])
      && (l.ByClaim(k) && !l.Publish? && Enabled(c, s, l) ==>
            t.claims[k].at == s.clock && t.claims[k].progress ==
              if l.Spawn? then Spawned(|s.jobs|)
              else if l.DeadLetter? then Dropped(s.claims[k].progress.inst)
              else Settled(s.claims[k].progress.inst))
  {
  }

  lemma NewClaimAfter(c: Config, s: Sys, l: Label, k: nat)
    requires |s.claims| <= k < |Step(c, s, l).claims|
    ensures Enabled(c, s, l) && l.ClaimOne? && k == |s.claims|
    ensures var d := s.jobs[l.id].doc.(status := Queued, updatedAt := l.stamp);
            Step(c, s, l).claims[k] == Claim(l.id, d, Held, s.clock)
  {
  }

  /** An execution is changed by its own steps only. */
  lemma ExecAfter(c: Config, s: Sys, l: Label, e: nat)
    requires e < |s.execs|
    ensures var t := Step(c, s, l);
      && |s.execs| <= |t.execs|
      && t.execs[e] == if Enabled(c, s, l) && l.ByExec(e) then ExecsAfter(c, s, l)[e] else s.execs[e]
  {
  }

  lemma NewExecAfter(c: Config, s: Sys, l: Label, e: nat)
    requires |s.execs| <= e < |Step(c, s, l).execs|
    ensures Enabled(c, s, l) && l.Deliver? && e == |s.execs|
    ensures Step(c, s, l).execs[e] == Exec(l.id, s.jobs[l.id].doc, Fetched, s.clock, s.clock, s.clock)
  {
  }

  // ----- runs -----

  /** A run is any sequence of labels; one that is not enabled where it stands does nothing. */
  function Step(c: Config, s: Sys, l: Label): Sys {
    if Enabled(c, s, l) then Apply(c, s, l) else s
  }

  function Run(c: Config, s: Sys, ls: seq<Label>): Sys {
    if ls == [] then s else Step(c, Run(c, s, ls[..|ls| - 1]), ls[|ls| - 1])
  }

  /** The state before the k-th step. */
  function At(c: Config, s: Sys, ls: seq<Label>, k: nat): Sys
    requires k <= |ls|
  {
    Run(c, s, ls[..k])
  }

  /** A state some run of the system leads to, whatever the timing. */
  ghost predicate Reachable(c: Config, s: Sys) {
    exists clock: Time, ls: seq<Label> :: s == Run(c, Empty(clock), ls)
  }

  /** A state some run leads to all of whose steps satisfy p. */
  ghost predicate ReachableBy(c: Config, s: Sys, p: (Config, Sys, Label) -> bool) {
    exists clock: Time, ls: seq<Label> :: Throughout(c, Empty(clock), ls, p) && s == Run(c, Empty(clock), ls)
  }

  /** Every label of the run satisfies what is asked of it where it stands. */
  ghost predicate Throughout(c: Config, s: Sys, ls: seq<Label>, p: (Config, Sys, Label) -> bool) {
    forall k {:trigger At(c, s, ls, k)} :: 0 <= k < |ls| ==> p(c, At(c, s, ls, k), ls[k])
  }

  lemma ThroughoutPrefix(c: Config, s: Sys, ls: seq<Label>, p: (Config, Sys, Label) -> bool, n: nat)
    requires n <= |ls| && Throughout(c, s, ls, p)
    ensures Throughout(c, s, ls[..n], p)
    ensures n < |ls| ==> p(c, Run(c, s, ls[..n]), ls[n])
  {
    forall k | 0 <= k < n ensures p(c, At(c, s, ls[..n], k), ls[..n][k]) {
      AtPrefix(c, s, ls, n, k);
      assert p(c, At(c, s, ls, k), ls[k]);
    }
    if n < |ls| {
      assert p(c, At(c, s, ls, n), ls[n]);
    }
  }

  /** Extending a run by one step. */
  lemma Snoc(c: Config, s: Sys, ls: seq<Label>, l: Label, p: (Config, Sys, Label) -> bool)
    requires Throughout(c, s, ls, p) && p(c, Run(c, s, ls), l)
    ensures Run(c, s, ls + [l]) == Step(c, Run(c, s, ls), l)
    ensures Throughout(c, s, ls + [l], p)
  {
    var more := ls + [l];
    assert more[..|more| - 1] == ls;
    forall k | 0 <= k < |more| ensures p(c, At(c, s, more, k), more[k]) {
      assert more[..k] == ls[..k];
      if k < |ls| { assert p(c, At(c, s, ls, k), ls[k]); } else { AtEnd(c, s, ls); }
    }
  }

  /** Extending a run from state s by one more step, to be chained. */
  lemma Then(c: Config, s0: Sys, ls: seq<Label>, s: Sys, l: Label, p: (Config, Sys, Label) -> bool)
    returns (more: seq<Label>, t: Sys)
    requires Throughout(c, s0, ls, p) && s == Run(c, s0, ls) && p(c, s, l)
    ensures more == ls + [l] && t == Step(c, s, l)
    ensures Throughout(c, s0, more, p) && t == Run(c, s0, more)
  {
    Snoc(c, s0, ls, l, p);
    more, t := ls + [l], Step(c, s, l);
  }

  lemma AtNext(c: Config, s: Sys, ls: seq<Label>, k: nat)
    requires k < |ls|
    ensures At(c, s, ls, k + 1) == Step(c, At(c, s, ls, k), ls[k])
  {
    assert ls[..k + 1][..k] == ls[..k];
  }

  lemma AtPrefix(c: Config, s: Sys, ls: seq<Label>, n: nat, k: nat)
    requires k <= n <= |ls|
    ensures At(c, s, ls[..n], k) == At(c, s, ls, k)
  {
    assert ls[..n][..k] == ls[..k];
  }

  lemma AtEnd(c: Config, s: Sys, ls: seq<Label>)
    ensures At(c, s, ls, |ls|) == Run(c, s, ls)
  {
    assert ls[..|ls|] == ls;
  }

  lemma {:induction false} RunConcat(c: Config, s: Sys, a: seq<Label>, b: seq<Label>)
    ensures Run(c, s, a + b) == Run(c, Run(c, s, a), b)
  {
    hide Step;
    if b == [] {
      assert a + b == a;
    } else {
      var init := b[..|b| - 1];
      assert (a + b)[..|a + b| - 1] == a + init;
      RunConcat(c, s, a, init);
    }
  }

  lemma ThroughoutConcat(c: Config, s: Sys, a: seq<Label>, b: seq<Label>, p: (Config, Sys, Label) -> bool)
    requires Throughout(c, s, a, p) && Throughout(c, Run(c, s, a), b, p)
    ensures Throughout(c, s, a + b, p)
  {
    hide Run;
    forall k | 0 <= k < |a + b| ensures p(c, At(c, s, a + b, k), (a + b)[k]) {
      if k < |a| {
        assert (a + b)[..k] == a[..k];
        assert p(c, At(c, s, a, k), a[k]);
      } else {
        assert (a + b)[..k] == a + b[..k - |a|];
        RunConcat(c, s, a, b[..k - |a|]);
        assert p(c, At(c, Run(c, s, a), b, k - |a|), b[k - |a|]);
      }
    }
  }

  /** A run from a reachable state leads to a reachable one. */
  lemma RunReachable(c: Config, s: Sys, ls: seq<Label>)
    requires Reachable(c, s)
    ensures Reachable(c, Run(c, s, ls))
  {
    hide Run;
    var clock: Time, before: seq<Label> :| s == Run(c, Empty(clock), before);
    RunConcat(c, Empty(clock), before, ls);
  }

  lemma RunReachableBy(c: Config, s: Sys, ls: seq<Label>, p: (Config, Sys, Label) -> bool)
    requires ReachableBy(c, s, p) && Throughout(c, s, ls, p)
    ensures ReachableBy(c, Run(c, s, ls), p)
  {
    hide Run, Throughout;
    var clock: Time, before: seq<Label> :| Throughout(c, Empty(clock), before, p) && s == Run(c, Empty(clock), before);
    RunConcat(c, Empty(clock), before, ls);
    ThroughoutConcat(c, Empty(clock), before, ls, p);
  }
}
