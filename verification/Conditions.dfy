/** Status conditions (setPhase and setCondition of internal/controller/wordpresssite_controller.go). */
module Conditions {
  import opened Api

  const READY_KIND := "Ready"

  function SetConditionAt(conds: seq<Condition>, c: Condition, i: nat): seq<Condition>
    requires i <= |conds|
    decreases |conds| - i
  {
    if i == |conds| then conds + [c]
    else if conds[i].kind == c.kind then
      conds[i := if conds[i].status == c.status then c.(lastTransitionTime := conds[i].lastTransitionTime) else c]
    else SetConditionAt(conds, c, i + 1)
  }

  function SetCondition(conds: seq<Condition>, c: Condition): seq<Condition> { SetConditionAt(conds, c, 0) }

  function PhaseCondition(generation: int, phase: Phase, message: string, now: int): Condition {
    Condition(READY_KIND, phase == Ready, phase, message, generation, now)
  }

  function WithPhase(status: Status, generation: int, phase: Phase, message: string, now: int): Status {
    status.(phase := phase,
            conditions := SetCondition(status.conditions, PhaseCondition(generation, phase, message, now)))
  }

  /** The conditions slice of the site being reconciled, updated in place through its pointer. */
  class ConditionList {
    var conds: seq<Condition>

    constructor (initial: seq<Condition>)
      ensures conds == initial
    {
      conds := initial;
    }

    method Set(cond: Condition)
      modifies this
      ensures conds == SetCondition(old(conds), cond)
    {
      var c := cond;
      var i := 0;
      while i < |conds|
        invariant 0 <= i <= |conds| && conds == old(conds) && c == cond
        invariant SetCondition(old(conds), cond) == SetConditionAt(old(conds), cond, i)
      {
        if conds[i].kind == c.kind {
          if conds[i].status == c.status {
            c := c.(lastTransitionTime := conds[i].lastTransitionTime);
          }
          conds := conds[i := c];
          return;
        }
        i := i + 1;
      }
      conds := conds + [c];
    }
  }

  // ---- What setCondition does, without the scan ----

  ghost predicate First(conds: seq<Condition>, kind: string, i: nat) {
    i < |conds| && conds[i].kind == kind && forall j :: 0 <= j < i ==> conds[j].kind != kind
  }

  function Count(conds: seq<Condition>, kind: string): nat {
    if conds == [] then 0 else (if conds[0].kind == kind then 1 else 0) + Count(conds[1..], kind)
  }

  lemma {:induction false} SetAtFirst(conds: seq<Condition>, c: Condition, i: nat, from: nat)
    requires First(conds, c.kind, i) && from <= i
    ensures SetConditionAt(conds, c, from)
            == conds[i := if conds[i].status == c.status then c.(lastTransitionTime := conds[i].lastTransitionTime) else c]
    decreases i - from
  {
    if from < i { SetAtFirst(conds, c, i, from + 1); }
  }

  lemma {:induction false} SetAtEnd(conds: seq<Condition>, c: Condition, from: nat)
    requires from <= |conds| && forall j :: 0 <= j < |conds| ==> conds[j].kind != c.kind
    ensures SetConditionAt(conds, c, from) == conds + [c]
    decreases |conds| - from
  {
    if from < |conds| { SetAtEnd(conds, c, from + 1); }
  }

  lemma {:induction false} CountAppend(a: seq<Condition>, b: seq<Condition>, kind: string)
    ensures Count(a + b, kind) == Count(a, kind) + Count(b, kind)
  {
    if a == [] {
      assert a + b == b;
    } else {
      assert (a + b)[1..] == a[1..] + b;
      CountAppend(a[1..], b, kind);
    }
  }

  lemma {:induction false} CountZero(conds: seq<Condition>, kind: string)
    requires forall j :: 0 <= j < |conds| ==> conds[j].kind != kind
    ensures Count(conds, kind) == 0
  {
    if conds != [] { CountZero(conds[1..], kind); }
  }

  // ---- History of a site's Ready condition ----

  /** One setPhase call. */
  datatype PhaseReport = PhaseReport(generation: int, phase: Phase, message: string, now: int)

  function After(conds: seq<Condition>, reports: seq<PhaseReport>): seq<Condition> {
    if reports == [] then conds
    else
      var last := reports[|reports| - 1];
      SetCondition(After(conds, reports[..|reports| - 1]),
                   PhaseCondition(last.generation, last.phase, last.message, last.now))
  }

  /** The time of the first report of the current run of equal readiness. */
  function RunStart(reports: seq<PhaseReport>): int
    requires reports != []
  {
    var n := |reports|;
    if n >= 2 && (reports[n - 2].phase == Ready) == (reports[n - 1].phase == Ready)
    then RunStart(reports[..n - 1]) else reports[n - 1].now
  }

  /** After any reports on a site that had no Ready condition, there is exactly one; it tells the
      last phase, message and generation, and the time its readiness last changed. Conditions of
      other kinds stay as they were. */
  lemma {:induction false} ConditionHistory(conds: seq<Condition>, reports: seq<PhaseReport>)
    requires reports != [] && forall j :: 0 <= j < |conds| ==> conds[j].kind != READY_KIND
    ensures var last := reports[|reports| - 1];
            After(conds, reports) == conds + [Condition(READY_KIND, last.phase == Ready, last.phase, last.message,
                                                        last.generation, RunStart(reports))]
    ensures Count(After(conds, reports), READY_KIND) == 1
  {
    var n := |reports|;
    var last := reports[n - 1];
    var c := PhaseCondition(last.generation, last.phase, last.message, last.now);
    var ready := c.(lastTransitionTime := RunStart(reports));
    if n == 1 {
      assert reports[..0] == [];
      SetAtEnd(conds, c, 0);
    } else {
      ConditionHistory(conds, reports[..n - 1]);
      assert reports[..n - 1][n - 2] == reports[n - 2];
      var before := After(conds, reports[..n - 1]);
      assert First(before, READY_KIND, |conds|);
      SetAtFirst(before, c, |conds|, 0);
      assert before[|conds| := ready] == conds + [ready];
    }
    CountZero(conds, READY_KIND);
    CountAppend(conds, [ready], READY_KIND);
  }

  /** Reporting the same readiness again, with the same words, changes nothing at any later time. */
  lemma SamePhaseIsStable(status: Status, generation: int, phase: Phase, message: string, now: int, later: int)
    ensures var s := WithPhase(status, generation, phase, message, now);
            WithPhase(s, generation, phase, message, later) == s
  {
    var conds := status.conditions;
    var c := PhaseCondition(generation, phase, message, now);
    var d := PhaseCondition(generation, phase, message, later);
    var out := SetCondition(conds, c);
    if i: nat :| First(conds, READY_KIND, i) {
      SetAtFirst(conds, c, i, 0);
      assert First(out, READY_KIND, i);
      SetAtFirst(out, d, i, 0);
      assert out[i := out[i]] == out;
    } else {
      NoneIsFirst(conds, READY_KIND, 0);
      SetAtEnd(conds, c, 0);
      assert First(out, READY_KIND, |conds|);
      SetAtFirst(out, d, |conds|, 0);
      assert out[|conds| := out[|conds|]] == out;
    }
  }

  lemma {:induction false} NoneIsFirst(conds: seq<Condition>, kind: string, i: nat)
    requires i <= |conds| && (forall j: nat :: !First(conds, kind, j))
    requires forall j :: 0 <= j < i ==> conds[j].kind != kind
    ensures forall j :: 0 <= j < |conds| ==> conds[j].kind != kind
    decreases |conds| - i
  {
    if i < |conds| {
      assert !First(conds, kind, i);
      NoneIsFirst(conds, kind, i + 1);
    }
  }
}
