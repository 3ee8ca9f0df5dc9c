/** Idempotency keys, and the key `<template key>-run-<nanoseconds>` of a spawned instance. */
module Keys {
  import opened Types
  import opened System
  import opened Safety

  predicate IsDigit(c: char) { '0' <= c <= '9' }

  ghost predicate AllDigits(s: string) { forall i :: 0 <= i < |s| ==> IsDigit(s[i]) }

  function DigitValue(c: char): nat
    requires IsDigit(c)
  {
    c as int - '0' as int
  }

  function Value(s: string): nat
    requires AllDigits(s)
  {
    if s == [] then 0 else 10 * Value(s[..|s| - 1]) + DigitValue(s[|s| - 1])
  }

  /** The digits a string ends in. */
  function DigitSuffix(s: string): (r: string)
    ensures |r| <= |s| && s[|s| - |r|..] == r && AllDigits(r)
  {
    if s == [] || !IsDigit(s[|s| - 1]) then [] else DigitSuffix(s[..|s| - 1]) + [s[|s| - 1]]
  }

  const MARK := "-run-"

  /** Reads an instance key back into its template key and instant. */
  function ParseInstanceKey(s: string): Option<(string, nat)> {
    var digits := DigitSuffix(s);
    var front := s[..|s| - |digits|];
    if |front| >= |MARK| && front[|front| - |MARK|..] == MARK && Decimal(Value(digits)) == digits
    then Some((front[..|front| - |MARK|], Value(digits)))
    else None
  }

  lemma {:induction false} DecimalReadsBack(n: nat)
    ensures AllDigits(Decimal(n)) && |Decimal(n)| > 0 && Value(Decimal(n)) == n
  {
    if n >= 10 {
      DecimalReadsBack(n / 10);
      var d := Decimal(n);
      assert d[..|d| - 1] == Decimal(n / 10);
    } else {
      assert Decimal(n)[..0] == [];
    }
  }

  /** Digits after a non-digit are the digit suffix. */
  lemma {:induction false} SuffixFound(front: string, digits: string)
    requires |front| > 0 && !IsDigit(front[|front| - 1]) && AllDigits(digits)
    ensures DigitSuffix(front + digits) == digits
  {
    var s := front + digits;
    if digits == [] {
      assert s == front;
    } else {
      assert s[..|s| - 1] == front + digits[..|digits| - 1];
      SuffixFound(front, digits[..|digits| - 1]);
    }
  }

  /** For every string and every non-negative instant: the parse succeeds with (key, now) exactly on
      the instance key of (key, now). */
  lemma InstanceKeyParsesBack(s: string, key: string, now: nat)
    ensures ParseInstanceKey(s) == Some((key, now)) <==> s == InstanceKey(key, now)
  {
    if s == InstanceKey(key, now) {
      DecimalReadsBack(now);
      assert s == (key + MARK) + Decimal(now);
      SuffixFound(key + MARK, Decimal(now));
      assert s[..|s| - |Decimal(now)|] == key + MARK;
    }
    if ParseInstanceKey(s) == Some((key, now)) {
      var digits := DigitSuffix(s);
      assert s == s[..|s| - |digits|] + digits;
      assert s == key + MARK + Decimal(now);
    }
  }

  /** Two instance keys agree only for the same template key and the same nanosecond. */
  lemma InstanceKeysCollideOnlyTogether(a: string, m: nat, b: string, n: nat)
    requires InstanceKey(a, m) == InstanceKey(b, n)
    ensures a == b && m == n
  {
    InstanceKeyParsesBack(InstanceKey(a, m), a, m);
    InstanceKeyParsesBack(InstanceKey(a, m), b, n);
  }

  function Abs(n: int): nat { if n < 0 then -n else n }

  lemma DecimalOfAny(n: Time)
    ensures var d := Decimal(n); |d| > 0 && (IsDigit(d[0]) <==> n >= 0)
    ensures var digits := if n < 0 then Decimal(n)[1..] else Decimal(n); AllDigits(digits) && Value(digits) == Abs(n)
  {
    DecimalReadsBack(Abs(n));
    if n < 0 { assert ("-" + Decimal(-n))[1..] == Decimal(-n); }
  }

  /** Different instants, before the epoch or after it, have different decimals. */
  lemma DecimalsDiffer(m: Time, n: Time)
    requires m != n
    ensures Decimal(m) != Decimal(n)
  {
    DecimalOfAny(m);
    DecimalOfAny(n);
  }

  /** Instances of one template spawned at different instants have different keys. */
  lemma InstantsDiffer(key: string, m: Time, n: Time)
    requires m != n
    ensures InstanceKey(key, m) != InstanceKey(key, n)
  {
    DecimalsDiffer(m, n);
    assert InstanceKey(key, m)[|key| + 5..] == Decimal(m);
    assert InstanceKey(key, n)[|key| + 5..] == Decimal(n);
  }

  // ----- over whole runs -----

  /** A spawned document is named after its template and the instant it was created. */
  ghost predicate NamedOk(s: Sys, i: nat)
    requires i < |s.jobs|
  {
    s.jobs[i].log.parent.Some? ==>
      && s.jobs[i].log.parent.value < |s.jobs|
      && s.jobs[i].doc.key == InstanceKey(s.jobs[s.jobs[i].log.parent.value].doc.key, s.jobs[i].doc.createdAt)
  }

  ghost predicate Named(s: Sys) {
    forall i :: 0 <= i < |s.jobs| ==> NamedOk(s, i)
  }

  lemma StaysNamed(c: Config, s: Sys, l: Label, i: nat)
    requires i < |s.jobs| && NamedOk(s, i)
    ensures i < |Step(c, s, l).jobs| && NamedOk(Step(c, s, l), i)
  {
    hide Step, WriteOf;
    JobAfter(c, s, l, i);
    StepGrows(c, s, l);
    assert SameJob(s.jobs[i].doc, Step(c, s, l).jobs[i].doc);
    if s.jobs[i].log.parent.Some? {
      var p := s.jobs[i].log.parent.value;
      assert SameJob(s.jobs[p].doc, Step(c, s, l).jobs[p].doc);
    }
  }

  lemma BornNamed(c: Config, s: Sys, l: Label, i: nat)
    requires Inv(c, s) && |s.jobs| <= i < |Step(c, s, l).jobs| && Step(c, s, l).jobs[i].log.parent.Some?
    ensures var en := Step(c, s, l).jobs[i];
      && en.log.parent.value < |s.jobs|
      && en.doc.key == InstanceKey(s.jobs[en.log.parent.value].doc.key, en.doc.createdAt)
  {
    hide Step;
    BornAfter(c, s, l, i);
    assert ClaimOk(s, s.claims[l.claim]);
  }

  lemma NamedStep(c: Config, s: Sys, l: Label)
    requires Inv(c, s) && Named(s)
    ensures Named(Step(c, s, l))
  {
    hide Step;
    var t := Step(c, s, l);
    StepGrows(c, s, l);
    forall i | 0 <= i < |t.jobs| ensures NamedOk(t, i) {
      if i < |s.jobs| {
        StaysNamed(c, s, l, i);
      } else if t.jobs[i].log.parent.Some? {
        BornNamed(c, s, l, i);
        var p := t.jobs[i].log.parent.value;
        assert SameJob(s.jobs[p].doc, t.jobs[p].doc);
      }
    }
  }

  lemma {:induction false} NamedRun(c: Config, clock: Time, ls: seq<Label>)
    ensures Named(Run(c, Empty(clock), ls))
  {
    hide Step, Inv;
    if ls != [] {
      NamedRun(c, clock, ls[..|ls| - 1]);
      InvOfRun(c, clock, ls[..|ls| - 1]);
      NamedStep(c, Run(c, Empty(clock), ls[..|ls| - 1]), ls[|ls| - 1]);
    }
  }

  lemma ReachableNamed(c: Config, s: Sys)
    requires Reachable(c, s)
    ensures Inv(c, s) && Named(s)
  {
    hide Run;
    var clock: Time, ls: seq<Label> :| s == Run(c, Empty(clock), ls);
    NamedRun(c, clock, ls);
    ReachableInv(c, s);
  }

  /** In every reachable state all keys differ, and two instances of one template differ in the
      nanosecond they were spawned at. */
  lemma KeysStayDistinct(c: Config, s: Sys)
    requires Reachable(c, s)
    ensures UniqueKeys(s.jobs)
    ensures forall i, j ::
      0 <= i < j < |s.jobs| && s.jobs[i].log.parent.Some? && s.jobs[i].log.parent == s.jobs[j].log.parent ==>
        s.jobs[i].doc.createdAt != s.jobs[j].doc.createdAt
  {
    ReachableNamed(c, s);
    forall i, j | 0 <= i < j < |s.jobs| && s.jobs[i].log.parent.Some? && s.jobs[i].log.parent == s.jobs[j].log.parent
      ensures s.jobs[i].doc.createdAt != s.jobs[j].doc.createdAt
    {
      assert NamedOk(s, i) && NamedOk(s, j);
    }
  }

  /** A spawn that finds its key taken by another instance is of the same template at the same
      nanosecond. */
  lemma SpawnCollision(c: Config, s: Sys, k: nat, now: nat, i: nat)
    requires Reachable(c, s) && k < |s.claims|
    requires i < |s.jobs| && s.jobs[i].log.parent.Some? && s.jobs[i].doc.createdAt >= 0
    requires s.jobs[i].doc.key == InstanceKey(s.claims[k].job.key, now)
    ensures s.jobs[i].log.parent == Some(s.claims[k].id) && s.jobs[i].doc.createdAt == now
  {
    ReachableNamed(c, s);
    var p := s.jobs[i].log.parent.value;
    assert ClaimOk(s, s.claims[k]) && NamedOk(s, i);
    InstanceKeysCollideOnlyTogether(s.jobs[p].doc.key, s.jobs[i].doc.createdAt, s.claims[k].job.key, now);
    assert s.jobs[p].doc.key == s.jobs[s.claims[k].id].doc.key;
  }
}
