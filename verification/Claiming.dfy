/** ClaimDueJobs: what one caller gets, and how any number of concurrent callers share the pool. */
module Claiming {
  import opened Types
  import opened Documents
  import opened System

  // ----- the picks of one caller -----

  ghost predicate NoneDue(jobs: seq<Entry>, cutoff: Time) {
    forall j :: 0 <= j < |jobs| ==> !Due(jobs[j].doc, cutoff)
  }

  lemma NothingPendingDue(jobs: seq<Entry>, cutoff: Time)
    requires NoneDue(jobs, cutoff)
    ensures forall j :: 0 <= j < |jobs| ==> !(jobs[j].doc.status == Pending && jobs[j].doc.scheduledAt <= cutoff)
  {
    forall j | 0 <= j < |jobs| ensures !(jobs[j].doc.status == Pending && jobs[j].doc.scheduledAt <= cutoff) {
      assert !Due(jobs[j].doc, cutoff);
    }
  }

  /** Nothing has been written but claims. */
  ghost predicate OnlyClaimed(before: seq<Entry>, after: seq<Entry>) {
    && |after| == |before|
    && forall i :: 0 <= i < |before| ==>
         var a, b := before[i].doc, after[i].doc;
         b == a || (a.status.Pending? && b == a.(status := Queued, updatedAt := b.updatedAt))
  }

  /** `got` is a list of documents that were due, best first, and nothing due that is left in
      `after` was ordered before any of them. */
  ghost predicate Picked(before: seq<Entry>, after: seq<Entry>, cutoff: Time, got: seq<nat>)
    requires |after| == |before|
  {
    && (forall a :: 0 <= a < |got| ==>
          got[a] < |before| && Due(before[got[a]].doc, cutoff) && after[got[a]].doc.status.Queued?)
    && (forall a, b :: 0 <= a < b < |got| ==>
          got[a] != got[b] && !Before(before[got[b]].doc, before[got[a]].doc))
    && (forall a, j :: 0 <= a < |got| && 0 <= j < |after| && Due(after[j].doc, cutoff) ==>
          !Before(after[j].doc, before[got[a]].doc))
  }

  /** A top-k selection: at most `limit` due documents, best first, none due and left out ordered
      before one returned, fewer than `limit` only if none is left, the rest unchanged. */
  ghost predicate TopK(before: seq<Entry>, after: seq<Entry>, cutoff: Time, limit: int, got: seq<nat>) {
    && |after| == |before|
    && Picked(before, after, cutoff, got)
    && (|got| <= limit || got == [])
    && (|got| < limit ==> NoneDue(after, cutoff))
    && (forall i :: 0 <= i < |before| && i !in got ==> after[i] == before[i])
  }

  /** What the order of the claim means: a higher priority goes first, and at equal priority whatever
      was due no later. */
  predicate GoesFirst(a: Job, b: Job) {
    a.priority > b.priority || (a.priority == b.priority && a.scheduledAt <= b.scheduledAt)
  }

  /** Document `id` is pending and due, and goes first among all that are. */
  ghost predicate BestDue(jobs: seq<Entry>, id: nat, cutoff: Time) {
    && id < |jobs| && jobs[id].doc.status == Pending && jobs[id].doc.scheduledAt <= cutoff
    && forall j :: 0 <= j < |jobs| && jobs[j].doc.status == Pending && jobs[j].doc.scheduledAt <= cutoff ==>
         GoesFirst(jobs[id].doc, jobs[j].doc)
  }

  /** What findOneAndUpdate picks is the best. */
  lemma TopIsBest(jobs: seq<Entry>, id: nat, cutoff: Time)
    ensures IsTop(jobs, id, cutoff) <==> BestDue(jobs, id, cutoff)
  {
    if BestDue(jobs, id, cutoff) {
      forall j | 0 <= j < |jobs| && Due(jobs[j].doc, cutoff) ensures !Before(jobs[j].doc, jobs[id].doc) {
        assert GoesFirst(jobs[id].doc, jobs[j].doc);
      }
    }
  }

  /** A list of documents that were pending and due, each once, highest priority first and earliest due
      first within a priority; and none pending and due that is left goes before one of them. */
  ghost predicate BestFirst(before: seq<Entry>, after: seq<Entry>, cutoff: Time, got: seq<nat>) {
    && |after| == |before|
    && (forall a :: 0 <= a < |got| ==>
          got[a] < |before| && before[got[a]].doc.status == Pending && before[got[a]].doc.scheduledAt <= cutoff)
    && (forall a, b :: 0 <= a < b < |got| ==>
          got[a] != got[b] && GoesFirst(before[got[a]].doc, before[got[b]].doc))
    && (forall a, j :: 0 <= a < |got| && 0 <= j < |after| ==>
          after[j].doc.status == Pending && after[j].doc.scheduledAt <= cutoff ==>
            GoesFirst(before[got[a]].doc, after[j].doc))
  }

  lemma PickedIsBestFirst(before: seq<Entry>, after: seq<Entry>, cutoff: Time, got: seq<nat>)
    requires |after| == |before| && Picked(before, after, cutoff, got)
    ensures BestFirst(before, after, cutoff, got)
  {
    forall a, j | 0 <= a < |got| && 0 <= j < |after|
        && after[j].doc.status == Pending && after[j].doc.scheduledAt <= cutoff
      ensures GoesFirst(before[got[a]].doc, after[j].doc)
    {
      assert Due(after[j].doc, cutoff);
    }
  }

  /** One more claim of a caller whose cutoff is `cutoff`. */
  lemma PickOneMore(before: seq<Entry>, now: seq<Entry>, after: seq<Entry>, cutoff: Time, got: seq<nat>, id: nat)
    requires OnlyClaimed(before, now) && Picked(before, now, cutoff, got)
    requires IsTop(now, id, cutoff)
    requires |after| == |now| && after[id].doc.status.Queued?
    requires forall i :: 0 <= i < |now| && i != id ==> after[i] == now[i]
    ensures Picked(before, after, cutoff, got + [id])
  {
    assert now[id].doc == before[id].doc;
  }

  /** A claim by someone else leaves a caller's list what it was. */
  lemma PickedByAnother(before: seq<Entry>, now: seq<Entry>, after: seq<Entry>, cutoff: Time, got: seq<nat>, id: nat)
    requires |now| == |before| && Picked(before, now, cutoff, got)
    requires id < |now| && now[id].doc.status.Pending?
    requires |after| == |now| && after[id].doc.status.Queued?
    requires forall i :: 0 <= i < |now| && i != id ==> after[i] == now[i]
    ensures Picked(before, after, cutoff, got)
  {
  }

  /** From `before` to `now` one caller has claimed `got`, and nobody has done anything else. */
  ghost predicate Undisturbed(before: seq<Entry>, now: seq<Entry>, cutoff: Time, got: seq<nat>) {
    && OnlyClaimed(before, now) && Picked(before, now, cutoff, got)
    && forall i :: 0 <= i < |now| && i !in got ==> now[i] == before[i]
  }

  lemma UndisturbedClaim(before: seq<Entry>, now: seq<Entry>, after: seq<Entry>, cutoff: Time, got: seq<nat>, id: nat,
      stamp: Time)
    requires Undisturbed(before, now, cutoff, got) && IsTop(now, id, cutoff)
    requires |after| == |now| && after[id].doc == now[id].doc.(status := Queued, updatedAt := stamp)
    requires forall i :: 0 <= i < |now| && i != id ==> after[i] == now[i]
    ensures Undisturbed(before, after, cutoff, got + [id]) && Picked(before, after, cutoff, got)
  {
    assert now[id].doc == before[id].doc;
    PickOneMore(before, now, after, cutoff, got, id);
    PickedByAnother(before, now, after, cutoff, got, id);
  }

  lemma UndisturbedSelects(before: seq<Entry>, now: seq<Entry>, cutoff: Time, limit: int, got: seq<nat>)
    requires Undisturbed(before, now, cutoff, got) && (|got| <= limit || got == [])
    ensures |now| == |before| && Picked(before, now, cutoff, got) && BestFirst(before, now, cutoff, got)
    ensures (|got| < limit ==> NoneDue(now, cutoff)) ==> TopK(before, now, cutoff, limit, got)
  {
    PickedIsBestFirst(before, now, cutoff, got);
  }

  /** In a run where anyone else may do anything: the claims `batch` of the documents `got` were made
      at the steps `at`, in this order, each of a document that was then the best one due. */
  ghost predicate ClaimedAt(c: Config, s0: Sys, ls: seq<Label>, cutoff: Time,
      batch: seq<nat>, got: seq<nat>, at: seq<nat>)
  {
    && |at| == |got| == |batch|
    && (forall a :: 0 <= a < |at| ==> BestThen(c, s0, ls, cutoff, batch[a], got[a], at[a]))
    && (forall a, b :: 0 <= a < b < |at| ==> at[a] < at[b])
  }

  /** Step j of the run is a claim of document `id`, the best one due, and makes claim k. */
  ghost predicate BestThen(c: Config, s0: Sys, ls: seq<Label>, cutoff: Time, k: nat, id: nat, j: nat) {
    && j < |ls| && ls[j].ClaimOne? && ls[j].id == id && ls[j].cutoff == cutoff
    && BestDue(At(c, s0, ls, j).jobs, id, cutoff) && k == |At(c, s0, ls, j).claims|
  }

  lemma ClaimedAtStays(c: Config, s0: Sys, ls: seq<Label>, more: seq<Label>, cutoff: Time,
      batch: seq<nat>, got: seq<nat>, at: seq<nat>)
    requires ls <= more && ClaimedAt(c, s0, ls, cutoff, batch, got, at)
    ensures ClaimedAt(c, s0, more, cutoff, batch, got, at)
  {
    hide Run, BestDue;
    forall a | 0 <= a < |at| ensures BestThen(c, s0, more, cutoff, batch[a], got[a], at[a]) {
      assert more[..at[a]] == ls[..at[a]];
    }
  }

  lemma ClaimedAtNext(c: Config, s0: Sys, ls: seq<Label>, cutoff: Time, batch: seq<nat>, got: seq<nat>, at: seq<nat>,
      id: nat, stamp: Time)
    requires ClaimedAt(c, s0, ls, cutoff, batch, got, at) && IsTop(Run(c, s0, ls).jobs, id, cutoff)
    ensures ClaimedAt(c, s0, ls + [ClaimOne(id, cutoff, stamp)], cutoff,
                      batch + [|Run(c, s0, ls).claims|], got + [id], at + [|ls|])
  {
    hide Run, IsTop, BestDue;
    TopIsBest(Run(c, s0, ls).jobs, id, cutoff);
    var more := ls + [ClaimOne(id, cutoff, stamp)];
    ClaimedAtStays(c, s0, ls, more, cutoff, batch, got, at);
    assert more[..|ls|] == ls;
    forall a | 0 <= a < |at|
      ensures BestThen(c, s0, more, cutoff, (batch + [|Run(c, s0, ls).claims|])[a], (got + [id])[a], (at + [|ls|])[a])
    {
      assert BestThen(c, s0, more, cutoff, batch[a], got[a], at[a]);
    }
  }

  // ----- any number of callers, one findOneAndUpdate at a time -----

  datatype Caller = Caller(cutoff: Time, limit: nat, got: seq<nat>, done: bool)

  /** The whole system, and what each of the callers has been given so far. */
  datatype Pool = Pool(sys: Sys, callers: seq<Caller>)

  datatype Move =
    | Take(caller: nat, id: nat, stamp: Time)   // one findOneAndUpdate that finds a document
    | Stop(caller: nat)                         // the call returns
    | Meanwhile(l: Label)                       // anything else, as long as it writes no document

  /** Time, messages, deliveries, lost claims and reads. */
  predicate NoWriter(l: Label) {
    l.Tick? || l.Publish? || l.Deliver? || l.Lose? || l.ReadForFail? || l.PublishDlq?
  }

  ghost predicate CanMove(c: Config, p: Pool, m: Move) {
    match m
    case Take(i, id, stamp) =>
      && i < |p.callers| && !p.callers[i].done && |p.callers[i].got| < p.callers[i].limit
      && Enabled(c, p.sys, ClaimOne(id, p.callers[i].cutoff, stamp))
    case Stop(i) =>
      && i < |p.callers| && !p.callers[i].done
      && (|p.callers[i].got| == p.callers[i].limit || NoneDue(p.sys.jobs, p.callers[i].cutoff))
    case Meanwhile(l) => NoWriter(l) && Enabled(c, p.sys, l)
  }

  /** The steps of the system a move amounts to. */
  ghost function LabelsOf(c: Config, p: Pool, m: Move): seq<Label>
    requires CanMove(c, p, m)
  {
    match m
    case Take(i, id, stamp) => [ClaimOne(id, p.callers[i].cutoff, stamp)]
    case Stop(_) => []
    case Meanwhile(l) => [l]
  }

  ghost function Moved(c: Config, p: Pool, m: Move): Pool
    requires CanMove(c, p, m)
  {
    match m
    case Take(i, id, stamp) =>
      Pool(Step(c, p.sys, ClaimOne(id, p.callers[i].cutoff, stamp)),
           p.callers[i := p.callers[i].(got := p.callers[i].got + [id])])
    case Stop(i) => p.(callers := p.callers[i := p.callers[i].(done := true)])
    case Meanwhile(l) => p.(sys := Step(c, p.sys, l))
  }

  ghost function Played(c: Config, p: Pool, ms: seq<Move>): Pool {
    if ms == [] then p
    else
      var q := Played(c, p, ms[..|ms| - 1]);
      if CanMove(c, q, ms[|ms| - 1]) then Moved(c, q, ms[|ms| - 1]) else q
  }

  ghost function Labels(c: Config, p: Pool, ms: seq<Move>): seq<Label> {
    if ms == [] then []
    else
      var q, front := Played(c, p, ms[..|ms| - 1]), Labels(c, p, ms[..|ms| - 1]);
      if CanMove(c, q, ms[|ms| - 1]) then front + LabelsOf(c, q, ms[|ms| - 1]) else front
  }

  /** What the callers do is a run of the whole system, every step of it really taken. */
  lemma {:induction false} PlayIsARun(c: Config, p: Pool, ms: seq<Move>)
    ensures Played(c, p, ms).sys == Run(c, p.sys, Labels(c, p, ms))
    ensures Throughout(c, p.sys, Labels(c, p, ms), Enabled)
  {
    hide Step, Enabled;
    if ms != [] {
      var init, m := ms[..|ms| - 1], ms[|ms| - 1];
      PlayIsARun(c, p, init);
      var q, front := Played(c, p, init), Labels(c, p, init);
      if CanMove(c, q, m) {
        if m.Stop? {
          assert front + [] == front;
        } else {
          var l := LabelsOf(c, q, m)[0];
          Snoc(c, p.sys, front, l, Enabled);
          assert LabelsOf(c, q, m) == [l];
        }
      }
    }
  }

  lemma TakeWrites(c: Config, s: Sys, id: nat, cutoff: Time, stamp: Time)
    requires Enabled(c, s, ClaimOne(id, cutoff, stamp))
    ensures var t := Step(c, s, ClaimOne(id, cutoff, stamp));
      && |t.jobs| == |s.jobs| && id < |s.jobs|
      && t.jobs[id].doc == s.jobs[id].doc.(status := Queued, updatedAt := stamp)
      && (forall i :: 0 <= i < |s.jobs| && i != id ==> t.jobs[i] == s.jobs[i])
  {
  }

  lemma IsTopThen(c: Config, s: Sys, id: nat, cutoff: Time, stamp: Time)
    requires Enabled(c, s, ClaimOne(id, cutoff, stamp))
    ensures IsTop(s.jobs, id, cutoff)
  {
  }

  lemma NothingWritten(c: Config, s: Sys, l: Label)
    requires NoWriter(l) && Enabled(c, s, l)
    ensures Step(c, s, l).jobs == s.jobs
  {
  }

  ghost predicate Fresh(p: Pool) {
    forall i :: 0 <= i < |p.callers| ==> p.callers[i].got == [] && !p.callers[i].done
  }

  /** How many documents the first n callers hold. */
  function Total(callers: seq<Caller>, n: nat): nat
    requires n <= |callers|
  {
    if n == 0 then 0 else Total(callers, n - 1) + |callers[n - 1].got|
  }

  ghost function TakenFrom(before: seq<Entry>, after: seq<Entry>): set<nat>
    requires |after| == |before|
  {
    set i | 0 <= i < |before| && after[i].doc.status != before[i].doc.status
  }

  ghost predicate CallerOk(p0: Pool, p: Pool, i: nat)
    requires |p.sys.jobs| == |p0.sys.jobs| && i < |p.callers| == |p0.callers|
  {
    var was, who := p0.callers[i], p.callers[i];
    && who.cutoff == was.cutoff && who.limit == was.limit && |who.got| <= who.limit
    && Picked(p0.sys.jobs, p.sys.jobs, who.cutoff, who.got)
    && (who.done ==> (|who.got| == who.limit || NoneDue(p.sys.jobs, who.cutoff)))
  }

  /** No document is in the lists of two callers. */
  ghost predicate Disjoint(callers: seq<Caller>) {
    forall i, k, a, b ::
      (0 <= i < |callers| && 0 <= k < |callers| && i != k && 0 <= a < |callers[i].got| && 0 <= b < |callers[k].got|) ==>
        callers[i].got[a] != callers[k].got[b]
  }

  ghost predicate Shared(p0: Pool, p: Pool) {
    && OnlyClaimed(p0.sys.jobs, p.sys.jobs)
    && |p.callers| == |p0.callers|
    && (forall i :: 0 <= i < |p.callers| ==> CallerOk(p0, p, i))
    && Disjoint(p.callers)
    && Total(p.callers, |p.callers|) == |TakenFrom(p0.sys.jobs, p.sys.jobs)|
  }

  lemma {:induction false} TotalAfter(callers: seq<Caller>, n: nat, i: nat, x: Caller)
    requires n <= |callers| && i < |callers|
    ensures Total(callers[i := x], n) ==
            Total(callers, n) + if i < n then |x.got| - |callers[i].got| else 0
  {
    if n > 0 { TotalAfter(callers, n - 1, i, x); }
  }

  lemma TakeKeepsCallers(c: Config, p0: Pool, p: Pool, m: Move, i: nat)
    requires Shared(p0, p) && CanMove(c, p, m) && m.Take? && i < |p.callers|
    ensures CallerOk(p0, Moved(c, p, m), i)
  {
    hide Step, Enabled;
    TakeWrites(c, p.sys, m.id, p.callers[m.caller].cutoff, m.stamp);
    IsTopThen(c, p.sys, m.id, p.callers[m.caller].cutoff, m.stamp);
    var q := Moved(c, p, m);
    var who := p.callers[i];
    assert CallerOk(p0, p, i);
    if i == m.caller {
      PickOneMore(p0.sys.jobs, p.sys.jobs, q.sys.jobs, who.cutoff, who.got, m.id);
    } else {
      PickedByAnother(p0.sys.jobs, p.sys.jobs, q.sys.jobs, who.cutoff, who.got, m.id);
    }
  }

  lemma TakeKeepsDisjoint(c: Config, p0: Pool, p: Pool, m: Move)
    requires Shared(p0, p) && CanMove(c, p, m) && m.Take?
    ensures Disjoint(Moved(c, p, m).callers)
  {
    hide Step, Enabled;
    TakeWrites(c, p.sys, m.id, p.callers[m.caller].cutoff, m.stamp);
    IsTopThen(c, p.sys, m.id, p.callers[m.caller].cutoff, m.stamp);
    forall i, a | 0 <= i < |p.callers| && 0 <= a < |p.callers[i].got|
      ensures p.callers[i].got[a] != m.id
    {
      assert CallerOk(p0, p, i);
    }
  }

  lemma TakeKeepsClaimed(c: Config, p0: Pool, p: Pool, m: Move)
    requires OnlyClaimed(p0.sys.jobs, p.sys.jobs) && CanMove(c, p, m) && m.Take?
    ensures OnlyClaimed(p0.sys.jobs, Moved(c, p, m).sys.jobs)
    ensures TakenFrom(p0.sys.jobs, Moved(c, p, m).sys.jobs) == TakenFrom(p0.sys.jobs, p.sys.jobs) + {m.id}
    ensures m.id !in TakenFrom(p0.sys.jobs, p.sys.jobs)
  {
    hide Step, Enabled;
    TakeWrites(c, p.sys, m.id, p.callers[m.caller].cutoff, m.stamp);
    IsTopThen(c, p.sys, m.id, p.callers[m.caller].cutoff, m.stamp);
    assert p.sys.jobs[m.id].doc == p0.sys.jobs[m.id].doc;
  }

  lemma TakeCounts(c: Config, p0: Pool, p: Pool, m: Move)
    requires Shared(p0, p) && CanMove(c, p, m) && m.Take?
    ensures OnlyClaimed(p0.sys.jobs, Moved(c, p, m).sys.jobs)
    ensures var q := Moved(c, p, m); Total(q.callers, |q.callers|) == |TakenFrom(p0.sys.jobs, q.sys.jobs)|
  {
    hide Step, Enabled, TakenFrom, CallerOk, Disjoint, OnlyClaimed;
    TakeKeepsClaimed(c, p0, p, m);
    TotalAfter(p.callers, |p.callers|, m.caller, Moved(c, p, m).callers[m.caller]);
  }

  lemma StopKeepsShared(c: Config, p0: Pool, p: Pool, m: Move)
    requires Shared(p0, p) && CanMove(c, p, m) && m.Stop?
    ensures Shared(p0, Moved(c, p, m))
  {
    var q := Moved(c, p, m);
    forall i | 0 <= i < |q.callers| ensures CallerOk(p0, q, i) { assert CallerOk(p0, p, i); }
    TotalAfter(p.callers, |p.callers|, m.caller, q.callers[m.caller]);
  }

  lemma MeanwhileKeepsShared(c: Config, p0: Pool, p: Pool, m: Move)
    requires Shared(p0, p) && CanMove(c, p, m) && m.Meanwhile?
    ensures Shared(p0, Moved(c, p, m))
  {
    hide Step, Enabled;
    NothingWritten(c, p.sys, m.l);
    forall i | 0 <= i < |p.callers| ensures CallerOk(p0, Moved(c, p, m), i) { assert CallerOk(p0, p, i); }
  }

  lemma SharedStep(c: Config, p0: Pool, p: Pool, m: Move)
    requires Shared(p0, p) && CanMove(c, p, m)
    ensures Shared(p0, Moved(c, p, m))
  {
    hide Step, Enabled;
    match m
    case Stop(_) => StopKeepsShared(c, p0, p, m);
    case Meanwhile(_) => MeanwhileKeepsShared(c, p0, p, m);
    case Take(_, _, _) =>
      var q := Moved(c, p, m);
      TakeCounts(c, p0, p, m);
      forall i | 0 <= i < |q.callers| ensures CallerOk(p0, q, i) { TakeKeepsCallers(c, p0, p, m, i); }
      TakeKeepsDisjoint(c, p0, p, m);
  }

  lemma {:induction false} FreshTotal(callers: seq<Caller>, n: nat)
    requires n <= |callers| && forall i :: 0 <= i < |callers| ==> callers[i].got == []
    ensures Total(callers, n) == 0
  {
    if n > 0 { FreshTotal(callers, n - 1); }
  }

  /** However the callers' calls interleave, each list holds documents that were due, best first,
      with nothing due left that goes before one of them; and no document is in two lists, or twice
      in one. */
  lemma {:induction false} ConcurrentClaims(c: Config, p0: Pool, ms: seq<Move>)
    requires Fresh(p0)
    ensures Shared(p0, Played(c, p0, ms))
  {
    if ms == [] {
      FreshTotal(p0.callers, |p0.callers|);
      assert TakenFrom(p0.sys.jobs, p0.sys.jobs) == {};
    } else {
      ConcurrentClaims(c, p0, ms[..|ms| - 1]);
      var q := Played(c, p0, ms[..|ms| - 1]);
      if CanMove(c, q, ms[|ms| - 1]) {
        SharedStep(c, p0, q, ms[|ms| - 1]);
      }
    }
  }

  /** In terms of the documents alone: each list is best first, whatever the other callers did, and
      nothing pending and due that is left goes before one of its documents. */
  lemma ListsAreBestFirst(c: Config, p0: Pool, ms: seq<Move>, i: nat)
    requires Fresh(p0) && i < |p0.callers|
    ensures var p := Played(c, p0, ms);
      && |p.callers| == |p0.callers|
      && BestFirst(p0.sys.jobs, p.sys.jobs, p0.callers[i].cutoff, p.callers[i].got)
  {
    var p := Played(c, p0, ms);
    ConcurrentClaims(c, p0, ms);
    assert CallerOk(p0, p, i);
    PickedIsBestFirst(p0.sys.jobs, p.sys.jobs, p0.callers[i].cutoff, p.callers[i].got);
  }

  // ----- draining -----

  function Limits(callers: seq<Caller>, n: nat): nat
    requires n <= |callers|
  {
    if n == 0 then 0 else Limits(callers, n - 1) + callers[n - 1].limit
  }

  lemma {:induction false} AllFull(callers: seq<Caller>, n: nat)
    requires n <= |callers| && forall i :: 0 <= i < |callers| ==> |callers[i].got| == callers[i].limit
    ensures Total(callers, n) == Limits(callers, n)
  {
    if n > 0 { AllFull(callers, n - 1); }
  }

  lemma {:induction false} SameLimits(a: seq<Caller>, b: seq<Caller>, n: nat)
    requires n <= |a| == |b| && forall i :: 0 <= i < |a| ==> a[i].limit == b[i].limit
    ensures Limits(a, n) == Limits(b, n)
  {
    if n > 0 { SameLimits(a, b, n - 1); }
  }

  /** The document is in the list of some caller. */
  ghost predicate Returned(p: Pool, id: nat) {
    exists i, a :: 0 <= i < |p.callers| && 0 <= a < |p.callers[i].got| && p.callers[i].got[a] == id
  }

  /** What has been taken from the pool is exactly what is in the lists. */
  ghost predicate TakenIsReturned(p0: Pool, p: Pool) {
    |p.sys.jobs| == |p0.sys.jobs| && forall id :: id in TakenFrom(p0.sys.jobs, p.sys.jobs) ==> Returned(p, id)
  }

  lemma MoveReturnsTaken(c: Config, p0: Pool, q: Pool, m: Move)
    requires Shared(p0, q) && TakenIsReturned(p0, q) && CanMove(c, q, m)
    ensures TakenIsReturned(p0, Moved(c, q, m))
  {
    hide Step, Enabled;
    var r := Moved(c, q, m);
    if m.Take? { TakeWrites(c, q.sys, m.id, q.callers[m.caller].cutoff, m.stamp); }
    if m.Meanwhile? { NothingWritten(c, q.sys, m.l); }
    forall id | id in TakenFrom(p0.sys.jobs, r.sys.jobs) ensures Returned(r, id) {
      if m.Take? && m.id == id {
        assert r.callers[m.caller].got[|q.callers[m.caller].got|] == id;
      } else {
        assert id in TakenFrom(p0.sys.jobs, q.sys.jobs);
        var i, a :| 0 <= i < |q.callers| && 0 <= a < |q.callers[i].got| && q.callers[i].got[a] == id;
        assert r.callers[i].got[a] == id;
      }
    }
  }

  lemma {:induction false} TakenAreReturned(c: Config, p0: Pool, ms: seq<Move>)
    requires Fresh(p0)
    ensures TakenIsReturned(p0, Played(c, p0, ms))
  {
    hide CanMove, Moved, Shared;
    if ms != [] {
      TakenAreReturned(c, p0, ms[..|ms| - 1]);
      ConcurrentClaims(c, p0, ms[..|ms| - 1]);
      var q, m := Played(c, p0, ms[..|ms| - 1]), ms[|ms| - 1];
      if CanMove(c, q, m) { MoveReturnsTaken(c, p0, q, m); }
    }
  }

  lemma SmallerWithout(a: set<nat>, b: set<nat>, x: nat)
    requires a <= b && x in b && x !in a
    ensures |a| < |b|
  {
    assert b == a + (b - a) && x in b - a;
  }

  /** With a common cutoff, once every caller has stopped and the limits together cover the pool,
      exactly the due documents have been returned, each once, since the lists are disjoint. */
  lemma ConcurrentDrain(c: Config, p0: Pool, ms: seq<Move>, cutoff: Time)
    requires Fresh(p0) && forall i :: 0 <= i < |p0.callers| ==> p0.callers[i].cutoff == cutoff
    requires var p := Played(c, p0, ms); forall i :: 0 <= i < |p.callers| ==> p.callers[i].done
    requires Limits(p0.callers, |p0.callers|) >= |DueIn(p0.sys.jobs, cutoff)|
    ensures var p := Played(c, p0, ms);
      && (forall id :: id in DueIn(p0.sys.jobs, cutoff) <==> Returned(p, id))
      && Disjoint(p.callers)
  {
    var p := Played(c, p0, ms);
    ConcurrentClaims(c, p0, ms);
    TakenAreReturned(c, p0, ms);
    var due, taken := DueIn(p0.sys.jobs, cutoff), TakenFrom(p0.sys.jobs, p.sys.jobs);
    forall id | Returned(p, id) ensures id in due {
      var i, a :| 0 <= i < |p.callers| && 0 <= a < |p.callers[i].got| && p.callers[i].got[a] == id;
      assert CallerOk(p0, p, i);
    }
    assert taken <= due;
    if id :| id in due && id !in taken {
      assert Due(p.sys.jobs[id].doc, cutoff);
      forall i | 0 <= i < |p.callers|
        ensures |p.callers[i].got| == p.callers[i].limit == p0.callers[i].limit
      {
        assert CallerOk(p0, p, i);
      }
      SmallerWithout(taken, due, id);
      AllFull(p.callers, |p.callers|);
      SameLimits(p0.callers, p.callers, |p.callers|);
    }
  }
}
