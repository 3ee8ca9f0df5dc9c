/** One document of the `jobs` collection: the `$set` each repository call performs on it, and
    the history of those writes.  Every write touches exactly one document. */
module Documents {
  import opened Types

  /** One cron firing: the occurrence the template was due at, and the instant it was fired. */
  datatype Fire = Fire(due: Time, at: Time)

  /** The write a repository call performs.  None of them but the first two and the two sweeps
      filters on the document's status. */
  datatype Write =
    | SetQueued(claim: nat, stamp: Time)                                      // ClaimDueJobs
    | SetClaimed(exec: nat, worker: string, now: Time)                        // MarkClaimed
    | SetRunning(stamp: Time)                                                 // MarkRunning
    | SetCompleted(stamp: Time)                                               // MarkCompleted
    | SetFailed(read: Job, error: string, backoff: Time, now: Time)           // MarkFailed
    | SweptQueued(stamp: Time)                                                // SweepStuckQueuedJobs
    | SweptExecution(stamp: Time)                                             // SweepStuckJobs
    | SetRescheduled(next: Time, stamp: Time)                                 // RescheduleCronTemplate
    | SetInvalid(reason: string, stamp: Time)                                 // MarkCronInvalid
  {
    predicate Sweep() { SweptQueued? || SweptExecution? }
  }

  /** The document after the write. */
  function Put(d: Job, w: Write): Job {
    match w
    case SetQueued(_, stamp) => d.(status := Queued, updatedAt := stamp)
    case SetClaimed(_, worker, now) =>
      d.(status := Claimed, claimedBy := worker, claimedAt := Some(now), updatedAt := now)
    case SetRunning(stamp) => d.(status := Running, updatedAt := stamp)
    case SetCompleted(stamp) => d.(status := Completed, updatedAt := stamp)
    case SetFailed(read, error, backoff, now) =>
      var attempts := read.attempts + 1;
      var failed := d.(attempts := attempts, lastError := error, updatedAt := now);
      if attempts >= read.maxAttempts then failed.(status := Dlq)
      else failed.(status := Pending, scheduledAt := now + backoff)
    case SweptQueued(stamp) => d.(status := Pending, updatedAt := stamp)
    case SweptExecution(stamp) => d.(status := Pending, updatedAt := stamp)
    case SetRescheduled(next, stamp) => d.(status := Pending, scheduledAt := next, updatedAt := stamp)
    case SetInvalid(reason, stamp) => d.(status := Dlq, lastError := reason, updatedAt := stamp)
  }

  /** How often each kind of write hit the document, and what the last ones were. */
  datatype Log = Log(
    born: Status,               // the status it was inserted with
    parent: Option<nat>,        // the template it was spawned from
    claims: nat,
    wins: nat,
    starts: nat,
    completions: nat,
    failures: nat,
    queuedSweeps: nat,
    execSweeps: nat,
    reschedules: nat,
    deadLetters: nat,
    owner: Option<nat>,         // the execution that won the last MarkClaimed
    holder: Option<nat>,        // the last claim made by a scheduler
    firstFail: Time,            // the instants recorded by the first and the last failure
    lastFail: Time,
    failLanded: Time,           // when the last failure reached the store
    touched: Time,              // when the last write reached the store
    fires: seq<Fire>)
  {
    function Sweeps(): nat { queuedSweeps + execSweeps }

    function Transitions(): nat {
      claims + wins + starts + completions + failures + queuedSweeps + execSweeps
    }
  }

  function NewLog(born: Status, parent: Option<nat>, clock: Time): Log {
    Log(born, parent, 0, 0, 0, 0, 0, 0, 0, 0, 0, None, None, 0, 0, 0, clock, [])
  }

  function Note(g: Log, w: Write, clock: Time): Log {
    var t := g.(touched := clock);
    match w
    case SetQueued(claim, _) => t.(claims := g.claims + 1, holder := Some(claim))
    case SetClaimed(exec, _, _) => t.(wins := g.wins + 1, owner := Some(exec))
    case SetRunning(_) => t.(starts := g.starts + 1)
    case SetCompleted(_) => t.(completions := g.completions + 1)
    case SetFailed(_, _, _, now) =>
      t.(failures := g.failures + 1, firstFail := if g.failures == 0 then now else g.firstFail,
         lastFail := now, failLanded := clock)
    case SweptQueued(_) => t.(queuedSweeps := g.queuedSweeps + 1)
    case SweptExecution(_) => t.(execSweeps := g.execSweeps + 1)
    case SetRescheduled(_, _) => t.(reschedules := g.reschedules + 1)
    case SetInvalid(_, _) => t.(deadLetters := g.deadLetters + 1)
  }

  datatype Entry = Entry(doc: Job, log: Log)

  function Record(en: Entry, w: Write, clock: Time): Entry {
    Entry(Put(en.doc, w), Note(en.log, w, clock))
  }

  // ----- the disciplined life of a one-off job -----

  /** The writes a job is meant to see in each status.  The code does not check this: MarkRunning,
      MarkCompleted and MarkFailed filter on `_id` only. */
  predicate Expected(d: Job, w: Write) {
    match w
    case SetQueued(_, _) => d.status.Pending?
    case SetClaimed(_, _, _) => d.status.Queued?
    case SetRunning(_) => d.status.Claimed?
    case SetCompleted(_) => d.status.Running?
    case SetFailed(read, _, _, _) =>
      d.status.Running? && read.attempts == d.attempts && read.maxAttempts == d.maxAttempts
    case SweptQueued(_) => d.status.Queued?
    case SweptExecution(_) => d.status.Executing()
    case SetRescheduled(_, _) => false
    case SetInvalid(_, _) => false
  }

  /** An expected write never takes attempts back and never reaches a dead-lettered job. */
  lemma ExpectedKeepsAttempts(d: Job, w: Write)
    requires Expected(d, w)
    ensures d.attempts <= Put(d, w).attempts && !d.status.Terminal()
  {
  }
}
