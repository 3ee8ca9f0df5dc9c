/** What a one-off job goes through when every write meets the status it expects: a five-state
    machine, the ledger that counts its moves, and the potential that bounds them. */
module Lifecycle {
  import opened Types
  import opened Documents

  // ----- the abstract machine -----

  datatype Stage = Waiting | InQueue | Executing | Succeeded | DeadLettered

  datatype Life = Life(stage: Stage, attempts: int, maxAttempts: int)

  datatype Action = Stutter | Enqueue | Begin | Succeed | Fail | Requeue | Abandon

  predicate LifeStep(a: Life, act: Action, b: Life) {
    match act
    case Stutter => b == a
    case Enqueue => a.stage.Waiting? && b == a.(stage := InQueue)
    case Begin => a.stage.InQueue? && b == a.(stage := Executing)
    case Succeed => a.stage.Executing? && b == a.(stage := Succeeded)
    case Requeue => a.stage.InQueue? && b == a.(stage := Waiting)
    case Abandon => a.stage.Executing? && b == a.(stage := Waiting)
    case Fail =>
      && a.stage.Executing?
      && b == Life(if a.attempts + 1 >= a.maxAttempts then DeadLettered else Waiting,
                   a.attempts + 1, a.maxAttempts)
  }

  function StageOf(s: Status): Stage {
    match s
    case Pending => Waiting
    case Queued => InQueue
    case Claimed => Executing
    case Running => Executing
    case Completed => Succeeded
    case Failed => DeadLettered   // no call writes this status
    case Dlq => DeadLettered
  }

  function LifeOf(d: Job): Life { Life(StageOf(d.status), d.attempts, d.maxAttempts) }

  function ActionOf(w: Write): Action {
    match w
    case SetQueued(_, _) => Enqueue
    case SetClaimed(_, _, _) => Begin
    case SetRunning(_) => Stutter
    case SetCompleted(_) => Succeed
    case SetFailed(_, _, _, _) => Fail
    case SweptQueued(_) => Requeue
    case SweptExecution(_) => Abandon
    case SetRescheduled(_, _) => Stutter
    case SetInvalid(_, _) => Stutter
  }

  /** An expected write moves the abstract machine by exactly its action; MarkRunning is
      invisible. */
  lemma ExpectedWriteRefines(d: Job, w: Write)
    requires Expected(d, w)
    ensures LifeStep(LifeOf(d), ActionOf(w), LifeOf(Put(d, w)))
  {
  }

  // ----- the ledger -----

  /** The double-entry books of a one-off job. */
  predicate Balanced(en: Entry) {
    var d, g := en.doc, en.log;
    && !d.Template() && !d.status.Failed? && (g.born.Pending? || g.born.Queued?)
    && g.reschedules == g.deadLetters == 0
    // every win of a claim is accounted for by its outcome
    && g.wins == g.failures + g.completions + g.execSweeps + One(d.status.Executing())
    // every entry to "queued" by the way out of it
    && One(g.born.Queued?) + g.claims == g.wins + g.queuedSweeps + One(d.status.Queued?)
    // every entry to "pending" by a scheduler claim
    && One(g.born.Pending?) + g.failures + g.queuedSweeps + g.execSweeps
       == g.claims + One(d.status.Pending?) + One(d.status.Dlq?)
    // the read-then-write of MarkFailed loses no update
    && d.attempts == g.failures
    && g.completions == One(d.status.Completed?)
    // a handler starts at most once per win
    && g.starts + One(d.status.Claimed?) <= g.wins
    && 1 <= d.maxAttempts && 0 <= d.attempts <= d.maxAttempts
    && (d.attempts == d.maxAttempts <==> d.status.Dlq?)
  }

  lemma BornBalanced(d: Job, parent: Option<nat>, clock: Time)
    requires !d.Template() && (d.status.Pending? || d.status.Queued?)
    requires d.attempts == 0 && d.maxAttempts >= 1
    ensures Balanced(Entry(d, NewLog(d.status, parent, clock)))
    ensures Bounded(Entry(d, NewLog(d.status, parent, clock)))
  {
  }

  lemma ExpectedWriteBalances(en: Entry, w: Write, clock: Time)
    requires Balanced(en) && Expected(en.doc, w)
    ensures Balanced(Record(en, w, clock))
  {
  }

  // ----- the potential -----

  function Rank(s: Status): nat {
    match s
    case Pending => 4
    case Queued => 3
    case Claimed => 2
    case Running => 1
    case Completed => 0
    case Failed => 0
    case Dlq => 0
  }

  /** How many more moves the job can make if no sweep and no completion comes. */
  function Potential(d: Job): int {
    if d.status.Terminal() then 0 else 4 * (d.maxAttempts - d.attempts - 1) + Rank(d.status)
  }

  /** Every move but a sweep and a completion costs exactly one unit; a completion costs all that
      is left; a sweep gives back at most three. */
  lemma PotentialStep(en: Entry, w: Write)
    requires Balanced(en) && Expected(en.doc, w)
    ensures !en.doc.status.Terminal() && Potential(en.doc) >= 1
    ensures var p, q := Potential(en.doc), Potential(Put(en.doc, w));
            if w.Sweep() then p < q <= p + 3
            else if w.SetCompleted? then q == 0
            else q == p - 1
  {
  }

  predicate Bounded(en: Entry) {
    en.log.Transitions() + Potential(en.doc) <= 4 * (en.doc.maxAttempts + en.log.Sweeps())
  }

  lemma ExpectedWriteStaysBounded(en: Entry, w: Write, clock: Time)
    requires Balanced(en) && Bounded(en) && Expected(en.doc, w)
    ensures Bounded(Record(en, w, clock))
  {
    PotentialStep(en, w);
  }
}
