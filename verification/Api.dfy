/** POST /jobs, from internal/api/handlers/jobs.go. */
module Api {
  import opened Types
  import opened System
  import opened Cron
  import opened Store

  datatype Reply = BadRequest | Conflict | InternalError | Created(id: nat)

  class JobsHandler {
    const repo: Backend

    constructor (repo: Backend)
      ensures this.repo == repo
    {
      this.repo := repo;
    }

    /** A request is turned away at once, refused because its key is taken, or stored as asked under a
        key nobody had, a recurring one due at its first occurrence; and a stored one is of the kind
        that is never dead-lettered for its expression. */
    method CreateJob(req: CreateRequest) returns (r: Reply)
      requires repo.Valid()
      modifies repo
      ensures repo.Valid() && old(repo.trace) <= repo.trace
      ensures r.BadRequest? <==>
        req.key == "" || req.jobType == "" || req.tenant == ""
        || (if req.cron != "" then !repo.c.parses(req.cron)
            else req.scheduledAt == -62_135_596_800_000_000_000)
      ensures r.BadRequest? ==> repo.State() == old(repo.State()) && repo.trace == old(repo.trace)
      ensures r.Conflict? ==> exists i :: 0 <= i < |repo.jobs| && repo.jobs[i].doc.key == req.key
      ensures r.Created? ==>
        && r.id < |repo.jobs|
        && (forall i :: 0 <= i < r.id ==> repo.jobs[i].doc.key != req.key)
        && var d := repo.jobs[r.id].doc;
        && d.key == req.key && d.tenant == req.tenant && d.jobType == req.jobType && d.payload == req.payload
        && d.priority == req.priority && d.cron == req.cron
        && d.scheduledAt == (if req.cron == "" then req.scheduledAt else repo.c.next(req.cron, old(repo.clock)))
        && d.maxAttempts == (if req.maxAttempts <= 0 then 3 else req.maxAttempts)
        && d.status == Pending && d.attempts == 0 && d.lastError == "" && d.claimedBy == "" && d.claimedAt == None
        && d.createdAt == d.updatedAt == old(repo.clock)
      ensures r.Created? ==>
        && |repo.trace| > 0 && repo.trace[|repo.trace| - 1].Create?
        && ViaApi(repo.c, old(repo.State()), repo.trace[|repo.trace| - 1])
      ensures old(repo.faults) == [] ==> !r.InternalError?
      ensures old(repo.others) == [] && old(repo.faults) == [] && !r.BadRequest? ==>
        (r.Conflict? <==> exists i :: 0 <= i < |old(repo.jobs)| && old(repo.jobs)[i].doc.key == req.key)
    {
      hide KeyFree, Step, Throughout, Run, NewJob, Backend.Valid;
      var scheduledAt := req.scheduledAt;
      if req.key == "" || req.jobType == "" || req.tenant == "" { return BadRequest; }
      if req.cron != "" {
        var next := repo.c.NextOccurrence(req.cron, repo.clock);
        if next.None? { return BadRequest; }
        scheduledAt := next.value;
      } else if scheduledAt == ZERO_TIME {
        return BadRequest;
      }
      var err, id := repo.Create(req.(scheduledAt := scheduledAt));
      r := match err
        case None => Created(id)
        case Some(DuplicateKey) => Conflict
        case Some(_) => InternalError;
    }
  }
}
