/** The entities of the scheduler: job documents, creation requests and the configuration
    every process reads.  Instants are nanoseconds since the Unix epoch. */
module Types {

  datatype Option<+T> = None | Some(value: T)

  type Time = int

  const SECOND: int := 1_000_000_000
  const MINUTE: int := 60 * SECOND

  /** The zero time.Time, 1 January of the year 1. */
  const ZERO_TIME: Time := -62_135_596_800 * SECOND

  datatype Status = Pending | Queued | Claimed | Running | Completed | Failed | Dlq
  {
    /** Statuses no write of a timely run leaves again. */
    predicate Terminal() { Completed? || Dlq? }

    predicate Executing() { Claimed? || Running? }
  }

  /** A document of the `jobs` collection.  Its `_id` is its position in the collection. */
  datatype Job = Job(
    key: string,
    tenant: string,
    jobType: string,
    payload: string,
    priority: int,
    status: Status,
    scheduledAt: Time,
    cron: string,
    claimedBy: string,
    claimedAt: Option<Time>,
    attempts: int,
    maxAttempts: int,
    lastError: string,
    createdAt: Time,
    updatedAt: Time)
  {
    /** A recurring template; every other document is a one-off job. */
    predicate Template() { cron != "" }
  }

  /** The fields no write ever changes. */
  predicate SameJob(a: Job, b: Job) {
    && a.key == b.key && a.tenant == b.tenant && a.jobType == b.jobType && a.payload == b.payload
    && a.priority == b.priority && a.cron == b.cron && a.maxAttempts == b.maxAttempts
    && a.createdAt == b.createdAt
  }

  datatype CreateRequest = CreateRequest(
    key: string,
    tenant: string,
    jobType: string,
    payload: string,
    priority: int,
    scheduledAt: Time,
    cron: string,
    maxAttempts: int)

  /** The two reaper timeouts, and the cron library as two unknown functions: whether an
      expression parses, and its next occurrence after an instant. */
  datatype Config = Config(
    claimTimeout: nat,
    queuedTimeout: nat,
    parses: string -> bool,
    next: (string, Time) -> Time)
  {
    /** Next occurrence of `expr` after `after`, or None when the expression does not parse. */
    function NextOccurrence(expr: string, after: Time): Option<Time> {
      if parses(expr) then Some(next(expr, after)) else None
    }
  }

  function One(b: bool): nat { if b then 1 else 0 }
}
