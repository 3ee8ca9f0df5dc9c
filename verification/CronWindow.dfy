/** How often a template can fire in a stretch of time in which the reaper does not sweep it.  No
    assumption on executions or on the number of scheduler loops. */
module CronWindow {
  import opened Types
  import opened Documents
  import opened System
  import opened Safety

  /** The instant is an occurrence of the expression. */
  ghost predicate Occurrence(c: Config, cron: string, o: Time) {
    exists t: Time :: o == c.next(cron, t)
  }

  /** Every occurrence found is later than the instant the search began at.  The cron library breaks
      this for expressions that never occur again: it then returns the zero time. */
  ghost predicate AlwaysOccursAgain(c: Config, cron: string) {
    forall t: Time :: t < c.next(cron, t)
  }

  ghost predicate IsTemplate(s: Sys, id: nat) {
    id < |s.jobs| && s.jobs[id].doc.Template()
  }

  /** A template the reaper has never swept. */
  ghost predicate Unswept(s: Sys, id: nat) {
    IsTemplate(s, id) && s.jobs[id].log.queuedSweeps == 0
  }

  predicate InFlight(x: Claim) { x.progress.Held? || x.progress.Spawned? }

  /** Claim k of the template is in flight, and its loop is not among those that have crashed. */
  ghost predicate Flying(s: Sys, id: nat, dead: set<nat>, k: nat)
    requires k < |s.claims|
  {
    s.claims[k].id == id && InFlight(s.claims[k]) && k !in dead
  }

  /** But for the claims of crashed loops, at most one claim of the template is in flight, and none
      while it waits to be claimed. */
  ghost predicate SingleFlight(s: Sys, id: nat, dead: set<nat>) {
    && id < |s.jobs|
    && (forall k :: k in dead ==> k < |s.claims|)
    && (forall k :: 0 <= k < |s.claims| && Flying(s, id, dead, k) ==> !s.jobs[id].doc.status.Pending?)
    && (forall j, k :: 0 <= j < k < |s.claims| ==> !Flying(s, id, dead, j) || !Flying(s, id, dead, k))
  }

  /** The loops that hold these claims have crashed: none of them takes a step. */
  ghost predicate Crashed(ls: seq<Label>, dead: set<nat>) {
    forall i :: 0 <= i < |ls| && OfClaim(ls[i]) ==> ls[i].claim !in dead
  }

  /** A step in which the template is not swept. */
  ghost predicate NoSweep(c: Config, s: Sys, l: Label, id: nat) {
    && id < |s.jobs| && id < |Step(c, s, l).jobs|
    && Step(c, s, l).jobs[id].log.queuedSweeps == s.jobs[id].log.queuedSweeps
  }

  /** Steps that touch neither the template nor a claim of it. */
  predicate Concerns(s: Sys, l: Label, id: nat) {
    || (l.ClaimOne? && l.id == id)
    || (OfClaim(l) && l.claim < |s.claims| && s.claims[l.claim].id == id)
  }

  /** Executions never write a template, and this one is not swept. */
  lemma TemplateUntouched(c: Config, s: Sys, l: Label, id: nat)
    requires Inv(c, s) && IsTemplate(s, id) && !Concerns(s, l, id) && NoSweep(c, s, l, id)
    ensures Step(c, s, l).jobs[id] == s.jobs[id]
  {
    hide Step;
    JobAfter(c, s, l, id);
    if WritesTo(c, s, l, id) {
      TemplateWrites(c, s, l, id);
    }
  }

  lemma NobodyHolds(c: Config, s: Sys, l: Label, id: nat)
    requires Inv(c, s) && |s.jobs| <= id < |Step(c, s, l).jobs|
    ensures var t := Step(c, s, l); forall k :: 0 <= k < |t.claims| ==> t.claims[k].id != id
  {
    hide Step;
    var t := Step(c, s, l);
    BornAfter(c, s, l, id);
    forall k | 0 <= k < |t.claims| ensures t.claims[k].id != id {
      if k < |s.claims| {
        ClaimAfter(c, s, l, k);
        assert ClaimOk(s, s.claims[k]);
      } else {
        NewClaimAfter(c, s, l, k);
      }
    }
  }

  // ----- firings and occurrences -----

  /** From the n-th firing on: between two firings lies an occurrence, the one the second was due
      at. */
  ghost predicate Interleaved(c: Config, cron: string, fires: seq<Fire>, n: nat) {
    && (forall i, j :: n <= i < j < |fires| ==> fires[i].at < fires[j].due)
    && (forall i :: n <= i < |fires| ==> fires[i].due <= fires[i].at)
    && (forall i :: n < i < |fires| ==> Occurrence(c, cron, fires[i].due))
  }

  /** `due` may be the next firing's occurrence. */
  ghost predicate MayFire(c: Config, cron: string, fires: seq<Fire>, n: nat, due: Time) {
    && (forall i :: n <= i < |fires| ==> fires[i].at < due)
    && (|fires| > n ==> Occurrence(c, cron, due))
  }

  /** What a claim of the template in flight carries into its next step. */
  ghost predicate FlightOk(c: Config, en: Entry, n: nat, x: Claim) {
    && (x.progress.Held? ==> MayFire(c, en.doc.cron, en.log.fires, n, x.job.scheduledAt))
    && (x.progress.Spawned? ==> forall i :: n <= i < |en.log.fires| ==> en.log.fires[i].at <= x.at)
  }

  ghost predicate FiresOk(c: Config, en: Entry, n: nat) {
    && n <= |en.log.fires| && Interleaved(c, en.doc.cron, en.log.fires, n)
    && (en.doc.status.Pending? ==> MayFire(c, en.doc.cron, en.log.fires, n, en.doc.scheduledAt))
  }

  /** The template fires in step with its expression since its n-th firing. */
  ghost predicate WindowInv(c: Config, s: Sys, id: nat, n: nat, dead: set<nat>) {
    && SingleFlight(s, id, dead)
    && FiresOk(c, s.jobs[id], n)
    && forall k :: 0 <= k < |s.claims| && Flying(s, id, dead, k) ==> FlightOk(c, s.jobs[id], n, s.claims[k])
  }

  /** Any state with a single flight begins a window. */
  lemma WindowOpens(c: Config, s: Sys, id: nat, dead: set<nat>)
    requires SingleFlight(s, id, dead)
    ensures WindowInv(c, s, id, |s.jobs[id].log.fires|, dead)
  {
  }

  /** A template just inserted has not fired and nobody holds it. */
  lemma WindowBorn(c: Config, s: Sys, l: Label, id: nat)
    requires Inv(c, s) && |s.jobs| <= id < |Step(c, s, l).jobs|
    ensures WindowInv(c, Step(c, s, l), id, 0, {})
  {
    hide Step;
    BornAfter(c, s, l, id);
    NobodyHolds(c, s, l, id);
  }

  /** When a template is claimed, every earlier claim of it is over. */
  lemma NoneFlies(c: Config, s: Sys, l: Label, id: nat, dead: set<nat>, k: nat)
    requires SingleFlight(s, id, dead) && Enabled(c, s, l) && l.ClaimOne? && l.id == id && k < |s.claims|
    ensures k < |Step(c, s, l).claims| && !Flying(Step(c, s, l), id, dead, k)
  {
    hide Step;
    ClaimAfter(c, s, l, k);
    assert !Flying(s, id, dead, k);
  }

  /** Claiming: the pending template's due instant passes to the claim. */
  lemma WindowClaim(c: Config, s: Sys, l: Label, id: nat, n: nat, dead: set<nat>)
    requires WindowInv(c, s, id, n, dead) && Enabled(c, s, l) && l.ClaimOne? && l.id == id
    ensures WindowInv(c, Step(c, s, l), id, n, dead)
  {
    hide Step, Interleaved, MayFire;
    var t := Step(c, s, l);
    JobAfter(c, s, l, id);
    OneMoreClaim(c, s, l);
    forall k | 0 <= k < |t.claims| && Flying(t, id, dead, k)
      ensures FlightOk(c, t.jobs[id], n, t.claims[k]) && k == |s.claims|
    {
      if k < |s.claims| { NoneFlies(c, s, l, id, dead, k); } else { NewClaimAfter(c, s, l, k); }
    }
  }

  /** After a step of the claim in flight, every other claim of the template is still over. */
  lemma OthersStayOver(c: Config, s: Sys, l: Label, id: nat, dead: set<nat>, k: nat)
    requires SingleFlight(s, id, dead) && Enabled(c, s, l) && OfClaim(l)
    requires s.claims[l.claim].id == id && l.claim !in dead && k != l.claim && k < |Step(c, s, l).claims|
    ensures !Flying(Step(c, s, l), id, dead, k)
  {
    hide Step;
    if k < |s.claims| {
      ClaimAfter(c, s, l, k);
      assert Flying(s, id, dead, l.claim);
      assert !Flying(s, id, dead, k);
    } else {
      NewClaimAfter(c, s, l, k);
    }
  }

  lemma OthersAreOver(c: Config, s: Sys, l: Label, id: nat, dead: set<nat>)
    requires SingleFlight(s, id, dead) && Enabled(c, s, l) && OfClaim(l)
    requires s.claims[l.claim].id == id && l.claim !in dead
    ensures var t := Step(c, s, l);
      && |s.claims| <= |t.claims|
      && forall k :: 0 <= k < |t.claims| && k != l.claim ==> !Flying(t, id, dead, k)
  {
    hide Step, SingleFlight, Flying;
    ClaimAfter(c, s, l, l.claim);
    forall k | 0 <= k < |Step(c, s, l).claims| && k != l.claim ensures !Flying(Step(c, s, l), id, dead, k) {
      OthersStayOver(c, s, l, id, dead, k);
    }
  }

  /** Firing: the claim's due instant is used up. */
  lemma WindowSpawn(c: Config, s: Sys, l: Label, id: nat, n: nat, dead: set<nat>)
    requires Inv(c, s) && WindowInv(c, s, id, n, dead)
    requires Enabled(c, s, l) && l.Spawn? && s.claims[l.claim].id == id && l.claim !in dead
    ensures WindowInv(c, Step(c, s, l), id, n, dead)
  {
    hide Step;
    JobAfter(c, s, l, id);
    ClaimAfter(c, s, l, l.claim);
    OthersAreOver(c, s, l, id, dead);
    assert Flying(s, id, dead, l.claim);
    assert ClaimOk(s, s.claims[l.claim]) && FlightOk(c, s.jobs[id], n, s.claims[l.claim]);
  }

  /** Rescheduling: the next due instant is an occurrence later than every firing. */
  lemma WindowReschedule(c: Config, s: Sys, l: Label, id: nat, n: nat, dead: set<nat>)
    requires Inv(c, s) && WindowInv(c, s, id, n, dead) && AlwaysOccursAgain(c, s.jobs[id].doc.cron)
    requires Enabled(c, s, l) && l.Reschedule? && s.claims[l.claim].id == id && l.claim !in dead
    ensures WindowInv(c, Step(c, s, l), id, n, dead)
  {
    hide Step;
    JobAfter(c, s, l, id);
    ClaimAfter(c, s, l, l.claim);
    OthersAreOver(c, s, l, id, dead);
    assert Flying(s, id, dead, l.claim);
    assert ClaimOk(s, s.claims[l.claim]) && FlightOk(c, s.jobs[id], n, s.claims[l.claim]);
    assert Occurrence(c, s.jobs[id].doc.cron, c.next(s.jobs[id].doc.cron, l.now));
  }

  /** A lost reschedule or a dead-lettering ends the flight. */
  lemma WindowGivenUp(c: Config, s: Sys, l: Label, id: nat, n: nat, dead: set<nat>)
    requires WindowInv(c, s, id, n, dead)
    requires Enabled(c, s, l) && (l.RescheduleLost? || l.DeadLetter?)
    requires s.claims[l.claim].id == id && l.claim !in dead
    ensures WindowInv(c, Step(c, s, l), id, n, dead)
  {
    hide Step, Interleaved, MayFire;
    JobAfter(c, s, l, id);
    ClaimAfter(c, s, l, l.claim);
    OthersAreOver(c, s, l, id, dead);
    assert Flying(s, id, dead, l.claim);
  }

  lemma ClaimsElsewhere(c: Config, s: Sys, l: Label, id: nat, k: nat)
    requires !Concerns(s, l, id) && k < |Step(c, s, l).claims| && Step(c, s, l).claims[k].id == id
    ensures k < |s.claims| && Step(c, s, l).claims[k] == s.claims[k]
  {
    hide Step;
    if k < |s.claims| { ClaimAfter(c, s, l, k); } else { NewClaimAfter(c, s, l, k); }
  }

  lemma ClaimsGrow(c: Config, s: Sys, l: Label)
    ensures |s.claims| <= |Step(c, s, l).claims|
  {
  }

  lemma WindowElsewhere(c: Config, s: Sys, l: Label, id: nat, n: nat, dead: set<nat>)
    requires Inv(c, s) && IsTemplate(s, id) && WindowInv(c, s, id, n, dead)
    requires !Concerns(s, l, id) && NoSweep(c, s, l, id)
    ensures WindowInv(c, Step(c, s, l), id, n, dead)
  {
    hide Step, FiresOk, FlightOk, Inv;
    var t := Step(c, s, l);
    TemplateUntouched(c, s, l, id);
    ClaimsGrow(c, s, l);
    forall k | 0 <= k < |t.claims| && t.claims[k].id == id ensures k < |s.claims| && t.claims[k] == s.claims[k] {
      ClaimsElsewhere(c, s, l, id, k);
    }
    forall k | 0 <= k < |t.claims| && Flying(t, id, dead, k) ensures k < |s.claims| && Flying(s, id, dead, k) {
    }
  }

  /** A template keeps its kind and its expression. */
  lemma TemplateKept(c: Config, s: Sys, l: Label, id: nat)
    requires IsTemplate(s, id)
    ensures IsTemplate(Step(c, s, l), id) && Step(c, s, l).jobs[id].doc.cron == s.jobs[id].doc.cron
    ensures s.jobs[id].log.queuedSweeps <= Step(c, s, l).jobs[id].log.queuedSweeps
    ensures s.jobs[id].log.fires <= Step(c, s, l).jobs[id].log.fires
  {
    hide Step, WriteOf;
    JobAfter(c, s, l, id);
  }

  lemma WindowStep(c: Config, s: Sys, l: Label, id: nat, n: nat, dead: set<nat>)
    requires Inv(c, s) && IsTemplate(s, id) && WindowInv(c, s, id, n, dead)
    requires AlwaysOccursAgain(c, s.jobs[id].doc.cron) && NoSweep(c, s, l, id)
    requires OfClaim(l) ==> l.claim !in dead
    ensures WindowInv(c, Step(c, s, l), id, n, dead)
  {
    hide Step, Inv, WindowInv, Enabled, NoSweep;
    if !Enabled(c, s, l) {
      NothingHappens(c, s, l);
    } else if !Concerns(s, l, id) {
      WindowElsewhere(c, s, l, id, n, dead);
    } else if l.ClaimOne? {
      WindowClaim(c, s, l, id, n, dead);
    } else if l.Spawn? {
      WindowSpawn(c, s, l, id, n, dead);
    } else if l.Reschedule? {
      WindowReschedule(c, s, l, id, n, dead);
    } else {
      WindowGivenUp(c, s, l, id, n, dead);
    }
  }

  lemma NothingHappens(c: Config, s: Sys, l: Label)
    requires !Enabled(c, s, l)
    ensures Step(c, s, l) == s
  {
  }

  /** From a state with a single flight, as long as nothing sweeps the template and the crashed loops
      stay silent. */
  lemma {:induction false} WindowFrom(c: Config, s: Sys, ls: seq<Label>, id: nat, dead: set<nat>)
    requires Inv(c, s) && IsTemplate(s, id) && SingleFlight(s, id, dead) && Crashed(ls, dead)
    requires AlwaysOccursAgain(c, s.jobs[id].doc.cron)
    ensures var t := Run(c, s, ls);
      && IsTemplate(t, id) && t.jobs[id].doc.cron == s.jobs[id].doc.cron
      && s.jobs[id].log.fires <= t.jobs[id].log.fires
      && s.jobs[id].log.queuedSweeps <= t.jobs[id].log.queuedSweeps
      && (t.jobs[id].log.queuedSweeps == s.jobs[id].log.queuedSweeps ==>
            WindowInv(c, t, id, |s.jobs[id].log.fires|, dead))
  {
    hide Step, Inv, WindowInv, SingleFlight, AlwaysOccursAgain;
    if ls == [] {
      WindowOpens(c, s, id, dead);
    } else {
      var init, l := ls[..|ls| - 1], ls[|ls| - 1];
      var r := Run(c, s, init);
      WindowFrom(c, s, init, id, dead);
      InvRun(c, s, init);
      TemplateKept(c, r, l, id);
      if Step(c, r, l).jobs[id].log.queuedSweeps == s.jobs[id].log.queuedSweeps {
        WindowStep(c, r, l, id, |s.jobs[id].log.fires|, dead);
      }
    }
  }

  /** From the birth of the template on. */
  lemma {:induction false} WindowRun(c: Config, clock: Time, ls: seq<Label>, id: nat)
    ensures var s := Run(c, Empty(clock), ls);
      Unswept(s, id) && AlwaysOccursAgain(c, s.jobs[id].doc.cron) ==> WindowInv(c, s, id, 0, {})
  {
    hide Step, Inv, WindowInv, AlwaysOccursAgain;
    if ls != [] {
      var init, l := ls[..|ls| - 1], ls[|ls| - 1];
      var s := Run(c, Empty(clock), init);
      InvOfRun(c, clock, init);
      WindowRun(c, clock, init, id);
      if Unswept(Step(c, s, l), id) && AlwaysOccursAgain(c, Step(c, s, l).jobs[id].doc.cron) {
        if id < |s.jobs| {
          StaysATemplate(c, s, l, id);
          TemplateKept(c, s, l, id);
          WindowStep(c, s, l, id, 0, {});
        } else {
          WindowBorn(c, s, l, id);
        }
      }
    }
  }

  lemma StaysATemplate(c: Config, s: Sys, l: Label, id: nat)
    requires id < |s.jobs| && IsTemplate(Step(c, s, l), id)
    ensures IsTemplate(s, id)
  {
    hide Step, WriteOf;
    JobAfter(c, s, l, id);
  }

  // ----- who holds the template -----

  /** Of a template that was never swept: a claim in flight is the last one made, knows the due
      instant, and keeps the template queued; and once that claim has fired, the due instant is
      used up. */
  ghost predicate HolderOk(s: Sys, id: nat)
    requires id < |s.jobs|
  {
    var en := s.jobs[id];
    && (forall k :: 0 <= k < |s.claims| && s.claims[k].id == id && InFlight(s.claims[k]) ==>
          en.doc.status.Queued? && en.log.holder == Some(k))
    && (en.doc.status.Queued? ==>
          && en.log.holder.Some? && en.log.holder.value < |s.claims|
          && s.claims[en.log.holder.value].id == id
          && s.claims[en.log.holder.value].job.scheduledAt == en.doc.scheduledAt
          && (!s.claims[en.log.holder.value].progress.Held? ==>
                |en.log.fires| > 0 && en.log.fires[|en.log.fires| - 1].due == en.doc.scheduledAt))
  }

  lemma HolderClaim(c: Config, s: Sys, l: Label, id: nat)
    requires id < |s.jobs| && HolderOk(s, id) && Enabled(c, s, l) && l.ClaimOne? && l.id == id
    ensures id < |Step(c, s, l).jobs| && HolderOk(Step(c, s, l), id)
  {
    hide Step;
    JobAfter(c, s, l, id);
    ClaimsAreOver(c, s, l, id);
    NewClaimAfter(c, s, l, |s.claims|);
  }

  lemma HolderFlight(c: Config, s: Sys, l: Label, id: nat)
    requires Inv(c, s) && IsTemplate(s, id) && HolderOk(s, id) && Enabled(c, s, l)
    requires OfClaim(l) && s.claims[l.claim].id == id
    ensures id < |Step(c, s, l).jobs| && HolderOk(Step(c, s, l), id)
  {
    hide Step, Inv, SingleFlight;
    HolderSingle(s, id);
    OthersAreOver(c, s, l, id, {});
    var t := Step(c, s, l);
    forall k | 0 <= k < |t.claims| && t.claims[k].id == id && k != l.claim ensures !InFlight(t.claims[k]) {
      assert !Flying(t, id, {}, k);
    }
    JobAfter(c, s, l, id);
    ClaimAfter(c, s, l, l.claim);
  }

  lemma HolderSingle(s: Sys, id: nat)
    requires id < |s.jobs| && HolderOk(s, id)
    ensures SingleFlight(s, id, {})
  {
  }

  /** When a template is claimed, every earlier claim of it is over. */
  lemma ClaimsAreOver(c: Config, s: Sys, l: Label, id: nat)
    requires id < |s.jobs| && HolderOk(s, id) && Enabled(c, s, l) && l.ClaimOne? && l.id == id
    ensures var t := Step(c, s, l);
      |t.claims| == |s.claims| + 1
      && forall k :: 0 <= k < |s.claims| && t.claims[k].id == id ==> !InFlight(t.claims[k])
  {
    hide Step;
    var t := Step(c, s, l);
    OneMoreClaim(c, s, l);
    forall k | 0 <= k < |s.claims| && t.claims[k].id == id ensures !InFlight(t.claims[k]) {
      ClaimAfter(c, s, l, k);
    }
  }

  lemma OneMoreClaim(c: Config, s: Sys, l: Label)
    requires Enabled(c, s, l) && l.ClaimOne?
    ensures |Step(c, s, l).claims| == |s.claims| + 1
  {
  }

  lemma HolderConcerned(c: Config, s: Sys, l: Label, id: nat)
    requires Inv(c, s) && IsTemplate(s, id) && HolderOk(s, id) && Enabled(c, s, l) && Concerns(s, l, id)
    ensures id < |Step(c, s, l).jobs| && HolderOk(Step(c, s, l), id)
  {
    hide Step, Inv, HolderOk, Enabled;
    if l.ClaimOne? { HolderClaim(c, s, l, id); } else { HolderFlight(c, s, l, id); }
  }

  lemma HolderElsewhere(c: Config, s: Sys, l: Label, id: nat)
    requires Inv(c, s) && IsTemplate(s, id) && HolderOk(s, id) && !Concerns(s, l, id) && NoSweep(c, s, l, id)
    ensures id < |Step(c, s, l).jobs| && HolderOk(Step(c, s, l), id)
  {
    hide Step, Inv;
    var t := Step(c, s, l);
    TemplateUntouched(c, s, l, id);
    forall k | 0 <= k < |t.claims| && t.claims[k].id == id ensures k < |s.claims| && t.claims[k] == s.claims[k] {
      ClaimsElsewhere(c, s, l, id, k);
    }
    if s.jobs[id].doc.status.Queued? { ClaimAfter(c, s, l, s.jobs[id].log.holder.value); }
  }

  lemma {:induction false} HolderRun(c: Config, clock: Time, ls: seq<Label>, id: nat)
    ensures var s := Run(c, Empty(clock), ls); Unswept(s, id) ==> HolderOk(s, id)
  {
    hide Step, Inv, HolderOk, Concerns, Enabled;
    if ls != [] {
      var init, l := ls[..|ls| - 1], ls[|ls| - 1];
      var s := Run(c, Empty(clock), init);
      InvOfRun(c, clock, init);
      HolderRun(c, clock, init, id);
      if Unswept(Step(c, s, l), id) {
        if id >= |s.jobs| {
          HolderBorn(c, s, l, id);
        } else {
          StaysATemplate(c, s, l, id);
          TemplateKept(c, s, l, id);
          if !Enabled(c, s, l) {
            NothingHappens(c, s, l);
          } else if Concerns(s, l, id) {
            HolderConcerned(c, s, l, id);
          } else {
            HolderElsewhere(c, s, l, id);
          }
        }
      }
    }
  }

  lemma HolderBorn(c: Config, s: Sys, l: Label, id: nat)
    requires Inv(c, s) && |s.jobs| <= id < |Step(c, s, l).jobs| && Step(c, s, l).jobs[id].doc.Template()
    ensures HolderOk(Step(c, s, l), id)
  {
    hide Step;
    BornAfter(c, s, l, id);
    NobodyHolds(c, s, l, id);
  }

  /** What is known of a template the reaper has never swept. */
  lemma ReachableUnswept(c: Config, s: Sys, id: nat)
    requires Reachable(c, s) && Unswept(s, id)
    ensures Inv(c, s) && HolderOk(s, id) && SingleFlight(s, id, {})
    ensures AlwaysOccursAgain(c, s.jobs[id].doc.cron) ==> WindowInv(c, s, id, 0, {})
  {
    hide Run;
    var clock: Time, ls: seq<Label> :| s == Run(c, Empty(clock), ls);
    WindowRun(c, clock, ls, id);
    HolderRun(c, clock, ls, id);
    HolderSingle(s, id);
    ReachableInv(c, s);
  }

  /** Each reschedule of a template that no sweep has touched moves it strictly forward, past the
      instant the next occurrence was searched from. */
  lemma RescheduleMovesForward(c: Config, s: Sys, l: Label)
    requires Reachable(c, s) && Enabled(c, s, l) && l.Reschedule? && Unswept(s, s.claims[l.claim].id)
    requires AlwaysOccursAgain(c, s.jobs[s.claims[l.claim].id].doc.cron)
    ensures var id := s.claims[l.claim].id;
      id < |Step(c, s, l).jobs|
      && s.jobs[id].doc.scheduledAt <= l.now < Step(c, s, l).jobs[id].doc.scheduledAt
  {
    hide Step;
    var id := s.claims[l.claim].id;
    ReachableUnswept(c, s, id);
    JobAfter(c, s, l, id);
    assert ClaimOk(s, s.claims[l.claim]);
  }

  // ----- every occurrence fires once -----

  /** From the n-th on, each firing is of a later occurrence than the one before. */
  ghost predicate EachOnce(fires: seq<Fire>, n: nat) {
    forall i, j :: n <= i < j < |fires| ==> fires[i].due < fires[j].due
  }

  /** A template that was never swept fires no occurrence twice, and its occurrences in order. */
  lemma OccurrencesFireOnce(c: Config, s: Sys, id: nat)
    requires Reachable(c, s) && Unswept(s, id) && AlwaysOccursAgain(c, s.jobs[id].doc.cron)
    ensures EachOnce(s.jobs[id].log.fires, 0)
  {
    ReachableUnswept(c, s, id);
  }

  lemma SweepKeepsDue(c: Config, s: Sys, l: Label, id: nat)
    requires WritesTo(c, s, l, id) && l.SweepQueued?
    ensures id < |s.jobs| && s.jobs[id].doc.status.Queued?
    ensures id < |Step(c, s, l).jobs| && Step(c, s, l).jobs[id].doc.status.Pending?
    ensures Step(c, s, l).jobs[id].doc.scheduledAt == s.jobs[id].doc.scheduledAt
    ensures Step(c, s, l).jobs[id].log.fires == s.jobs[id].log.fires
  {
    hide Step;
    JobAfter(c, s, l, id);
  }

  /** The first sweep of a template makes it due again at an occurrence that has already fired if and
      only if the claim it interrupts had got as far as firing.  If not, that claim may still fire the
      occurrence later, besides the loop that claims the template next. */
  lemma SweepRefiresIff(c: Config, s: Sys, l: Label, id: nat)
    requires Reachable(c, s) && Unswept(s, id) && AlwaysOccursAgain(c, s.jobs[id].doc.cron)
    requires WritesTo(c, s, l, id) && l.SweepQueued?
    ensures var en, t := s.jobs[id], Step(c, s, l);
      && en.log.holder.Some? && en.log.holder.value < |s.claims| && id < |t.jobs| && t.jobs[id].doc.status.Pending?
      && ((exists i :: 0 <= i < |en.log.fires| && en.log.fires[i].due == t.jobs[id].doc.scheduledAt)
          <==> !s.claims[en.log.holder.value].progress.Held?)
  {
    hide Step, WritesTo;
    ReachableUnswept(c, s, id);
    SweepKeepsDue(c, s, l, id);
    var k := s.jobs[id].log.holder.value;
    assert s.claims[k].progress.Held? ==> Flying(s, id, {}, k);
  }

  // ----- counting -----

  /** Of the firings n up to m, those inside the window. */
  ghost function FiredIn(fires: seq<Fire>, n: nat, m: nat, a: Time, b: Time): set<nat>
    requires m <= |fires|
  {
    set i | n <= i < m && a <= fires[i].at <= b
  }

  ghost function OccurrencesIn(c: Config, cron: string, a: Time, b: Time): set<Time> {
    set o: Time | a <= o <= b && Occurrence(c, cron, o)
  }

  lemma SubsetSize<T>(a: set<T>, b: set<T>)
    requires a <= b
    ensures |a| <= |b|
  {
    assert b == a + (b - a);
  }

  /** The occurrence a firing was due at lies after the previous firing. */
  lemma OneMoreOccurrence(c: Config, cron: string, fires: seq<Fire>, n: nat, m: nat, a: Time)
    requires Interleaved(c, cron, fires, n) && n + 2 <= m <= |fires| && a <= fires[m - 2].at
    ensures |OccurrencesIn(c, cron, a, fires[m - 2].at)| < |OccurrencesIn(c, cron, a, fires[m - 1].at)|
  {
    var due := fires[m - 1].due;
    var seen := OccurrencesIn(c, cron, a, fires[m - 2].at);
    assert fires[m - 2].at < due <= fires[m - 1].at && Occurrence(c, cron, due);
    SubsetSize(seen + {due}, OccurrencesIn(c, cron, a, fires[m - 1].at));
  }

  lemma OneMoreFired(fires: seq<Fire>, n: nat, m: nat, a: Time, b: Time)
    requires n < m <= |fires|
    ensures |FiredIn(fires, n, m, a, b)| == |FiredIn(fires, n, m - 1, a, b)| + One(a <= fires[m - 1].at <= b)
  {
    assert FiredIn(fires, n, m, a, b) ==
           FiredIn(fires, n, m - 1, a, b) + if a <= fires[m - 1].at <= b then {m - 1} else {};
  }

  /** If some earlier firing is inside the window, the one just before is not before it. */
  lemma EarlierInWindow(c: Config, cron: string, fires: seq<Fire>, n: nat, m: nat, a: Time, i: nat)
    requires Interleaved(c, cron, fires, n) && n <= i < m - 1 < |fires| && a <= fires[i].at
    ensures a <= fires[m - 2].at < fires[m - 1].due <= fires[m - 1].at
  {
    hide Occurrence;
    assert i < m - 2 ==> fires[i].at < fires[m - 2].due <= fires[m - 2].at;
  }

  /** Up to a firing inside the window, there are at least as many occurrences as firings but one. */
  lemma {:induction false} CountUpTo(c: Config, cron: string, fires: seq<Fire>, n: nat, m: nat, a: Time, b: Time)
    requires Interleaved(c, cron, fires, n) && n < m <= |fires| && a <= fires[m - 1].at <= b
    ensures |FiredIn(fires, n, m, a, b)| <= |OccurrencesIn(c, cron, a, fires[m - 1].at)| + 1
    decreases m
  {
    hide Interleaved, OccurrencesIn;
    OneMoreFired(fires, n, m, a, b);
    var before := FiredIn(fires, n, m - 1, a, b);
    if i :| i in before {
      EarlierInWindow(c, cron, fires, n, m, a, i);
      CountUpTo(c, cron, fires, n, m - 1, a, b);
      OneMoreOccurrence(c, cron, fires, n, m, a);
    }
  }

  /** Firings outside the window do not count. */
  lemma {:induction false} CountAll(c: Config, cron: string, fires: seq<Fire>, n: nat, m: nat, a: Time, b: Time)
    requires Interleaved(c, cron, fires, n) && n <= m <= |fires|
    ensures |FiredIn(fires, n, m, a, b)| <= |OccurrencesIn(c, cron, a, b)| + 1
    decreases m
  {
    if m > n {
      if a <= fires[m - 1].at <= b {
        CountUpTo(c, cron, fires, n, m, a, b);
        SubsetSize(OccurrencesIn(c, cron, a, fires[m - 1].at), OccurrencesIn(c, cron, a, b));
      } else {
        OneMoreFired(fires, n, m, a, b);
        CountAll(c, cron, fires, n, m - 1, a, b);
      }
    }
  }

  /** From any state in which, but for the claims of crashed loops, at most one claim of the template
      is in flight and none while it is pending, as long as the reaper does not sweep it: it fires no
      occurrence twice, and in any window at most once more than its expression occurs there, whatever
      the scheduler loops do and whatever happened before. */
  lemma FiringsInWindow(c: Config, s: Sys, ls: seq<Label>, id: nat, dead: set<nat>, a: Time, b: Time)
    requires Reachable(c, s) && IsTemplate(s, id) && SingleFlight(s, id, dead) && Crashed(ls, dead)
    requires AlwaysOccursAgain(c, s.jobs[id].doc.cron)
    ensures var t := Run(c, s, ls); var n := |s.jobs[id].log.fires|;
      && id < |t.jobs| && s.jobs[id].log.fires <= t.jobs[id].log.fires
      && (t.jobs[id].log.queuedSweeps == s.jobs[id].log.queuedSweeps ==>
            var fires := t.jobs[id].log.fires;
            && EachOnce(fires, n)
            && |FiredIn(fires, n, |fires|, a, b)| <= |OccurrencesIn(c, s.jobs[id].doc.cron, a, b)| + 1)
  {
    hide Run, Inv, AlwaysOccursAgain;
    ReachableInv(c, s);
    WindowFrom(c, s, ls, id, dead);
    var t := Run(c, s, ls);
    if t.jobs[id].log.queuedSweeps == s.jobs[id].log.queuedSweeps {
      CountAll(c, s.jobs[id].doc.cron, t.jobs[id].log.fires, |s.jobs[id].log.fires|, |t.jobs[id].log.fires|, a, b);
    }
  }

  /** The same over the whole life of a template that was never swept. */
  lemma UnsweptFiringsInWindow(c: Config, s: Sys, id: nat, a: Time, b: Time)
    requires Reachable(c, s) && Unswept(s, id) && AlwaysOccursAgain(c, s.jobs[id].doc.cron)
    ensures var fires := s.jobs[id].log.fires;
      |FiredIn(fires, 0, |fires|, a, b)| <= |OccurrencesIn(c, s.jobs[id].doc.cron, a, b)| + 1
  {
    ReachableUnswept(c, s, id);
    CountAll(c, s.jobs[id].doc.cron, s.jobs[id].log.fires, 0, |s.jobs[id].log.fires|, a, b);
  }
}
