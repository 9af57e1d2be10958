/** A reconcile among other actors: before each of its effects the world may have moved on. */
module Interference {
  import opened Api
  import opened BaseSafety
  import opened Convergence
  import opened Isolation
  import opened Operator
  import opened Store
  import opened System

  /** What the others have made of the world when the i-th effect happens. */
  type Others = (nat, World) -> World

  /** Drive with the others' doings in between. */
  function Amid(c: Config, w: World, pc: Pc, o: Oracle, others: Others, i: nat): (World, Pc, nat)
    decreases Rank(pc)
  {
    if pc.Stopped? then (w, pc, i)
    else
      EffectAdvances(c, others(i, w), pc, o(i));
      var r := Effect(c, others(i, w), pc, o(i));
      Amid(c, r.0, r.1, o, others, i + 1)
  }

  lemma AmidOne(c: Config, w: World, pc: Pc, o: Oracle, others: Others, i: nat, w': World, pc': Pc)
    requires !pc.Stopped? && Effect(c, others(i, w), pc, o(i)) == (w', pc')
    ensures Amid(c, w, pc, o, others, i) == Amid(c, w', pc', o, others, i + 1)
  { }

  ghost predicate LeftAlone(others: Others) { forall j: nat, x: World :: others(j, x) == x }

  /** Left alone, a reconcile is driven as in Convergence. */
  lemma {:induction false} Alone(c: Config, w: World, pc: Pc, o: Oracle, others: Others, i: nat)
    requires LeftAlone(others)
    ensures Amid(c, w, pc, o, others, i) == Drive(c, w, pc, o, i)
    decreases Rank(pc)
  {
    if !pc.Stopped? {
      var (w', pc') := Effect(c, w, pc, o(i));
      EffectAdvances(c, w, pc, o(i));
      assert others(i, w) == w;
      AmidOne(c, w, pc, o, others, i, w', pc');
      DriveOne(c, w, pc, o, i, w', pc');
      Alone(c, w', pc', o, others, i + 1);
    }
  }

  // ---- Every interleaving of the system is such a reconcile ----

  /** Moves that leave site n's reconcile where it is. */
  ghost predicate Elsewhere(n: string, moves: seq<Move>) {
    forall m :: m in moves ==> m.name != n || !(m.action.Begin? || m.action.Act? || m.action.Crash?)
  }

  lemma StepElsewhere(c: Config, s: System, n: string, m: Move)
    requires AllBase(s) && n in s.ctl && (m.name != n || !(m.action.Begin? || m.action.Act? || m.action.Crash?))
    ensures n in Step(c, s, m).ctl && Step(c, s, m).ctl[n].pc == s.ctl[n].pc
  {
    if m.name != n { StepIsOwn(c, s, m, n); }
  }

  lemma {:induction false} ElsewhereKeepsPc(c: Config, s: System, n: string, moves: seq<Move>)
    requires AllBase(s) && n in s.ctl && Elsewhere(n, moves)
    ensures AllBase(Run(c, s, moves)) && n in Run(c, s, moves).ctl && Run(c, s, moves).ctl[n].pc == s.ctl[n].pc
  {
    if moves != [] {
      var before, m := moves[..|moves| - 1], moves[|moves| - 1];
      ElsewhereKeepsPc(c, s, n, before);
      StepKeepsBase(c, Run(c, s, before), m);
      assert m in moves;
      StepElsewhere(c, Run(c, s, before), n, m);
    }
  }

  /** The others' moves, then one effect of site n's reconcile, which is running and whose cache can show
      what it reads. */
  ghost predicate Round(c: Config, s: System, n: string, k: Tick, moves: seq<Move>, next: System) {
    && n in s.ctl && !s.ctl[n].pc.Stopped? && Elsewhere(n, moves)
    && n in Run(c, s, moves).ctl && Possible(Run(c, s, moves), n, k)
    && next == Step(c, Run(c, s, moves), Move(n, Act(k)))
  }

  /** An interleaving: the states between the rounds. */
  ghost predicate Interleaving(c: Config, states: seq<System>, n: string, o: Oracle, rounds: seq<seq<Move>>, i: nat) {
    |states| == |rounds| + 1 && forall j :: 0 <= j < |rounds| ==> Linked(c, states, n, o, rounds[j], i, j)
  }

  ghost predicate Linked(c: Config, states: seq<System>, n: string, o: Oracle, moves: seq<Move>, i: nat, j: nat) {
    j + 1 < |states| && Round(c, states[j], n, o(i + j), moves, states[j + 1])
  }

  /** What the others do in that interleaving. */
  function Doings(c: Config, states: seq<System>, rounds: seq<seq<Move>>, i: nat): Others
    requires |states| == |rounds| + 1
  {
    (j: nat, w: World) => if i <= j < i + |rounds| then Run(c, states[j - i], rounds[j - i]).w else w
  }

  ghost predicate Doing(c: Config, states: seq<System>, moves: seq<Move>, others: Others, i: nat, j: nat) {
    j < |states| && others(i + j, states[j].w) == Run(c, states[j], moves).w
  }

  lemma RoundKeepsBase(c: Config, s: System, n: string, k: Tick, moves: seq<Move>, next: System)
    requires AllBase(s) && Round(c, s, n, k, moves, next)
    ensures AllBase(next) && n in next.ctl
  {
    ElsewhereKeepsPc(c, s, n, moves);
    StepKeepsBase(c, Run(c, s, moves), Move(n, Act(k)));
  }

  lemma RoundIsAmid(c: Config, s: System, n: string, o: Oracle, moves: seq<Move>, i: nat, others: Others, next: System)
    requires AllBase(s) && Round(c, s, n, o(i), moves, next) && others(i, s.w) == Run(c, s, moves).w
    ensures n in next.ctl
    ensures Amid(c, s.w, s.ctl[n].pc, o, others, i) == Amid(c, next.w, next.ctl[n].pc, o, others, i + 1)
  {
    var mid := Run(c, s, moves);
    ElsewhereKeepsPc(c, s, n, moves);
    StepKeepsBase(c, mid, Move(n, Act(o(i))));
    AmidOne(c, s.w, s.ctl[n].pc, o, others, i, next.w, next.ctl[n].pc);
  }

  ghost predicate AllDoing(c: Config, states: seq<System>, rounds: seq<seq<Move>>, others: Others, i: nat) {
    |states| == |rounds| + 1 && forall j :: 0 <= j < |rounds| ==> Doing(c, states, rounds[j], others, i, j)
  }

  lemma LinkKeepsBase(c: Config, states: seq<System>, n: string, o: Oracle, rounds: seq<seq<Move>>, i: nat, j: nat)
    requires Interleaving(c, states, n, o, rounds, i) && j < |rounds| && AllBase(states[j])
    ensures AllBase(states[j + 1]) && n in states[j].ctl && n in states[j + 1].ctl
  {
    assert Linked(c, states, n, o, rounds[j], i, j);
    RoundKeepsBase(c, states[j], n, o(i + j), rounds[j], states[j + 1]);
  }

  lemma {:induction false} RoundsKeepBase(c: Config, states: seq<System>, n: string, o: Oracle, rounds: seq<seq<Move>>,
                                          i: nat, k: nat)
    requires Interleaving(c, states, n, o, rounds, i) && k <= |rounds| && AllBase(states[0]) && n in states[0].ctl
    ensures AllBase(states[k]) && n in states[k].ctl
    decreases k
  {
    if k != 0 {
      RoundsKeepBase(c, states, n, o, rounds, i, k - 1);
      LinkKeepsBase(c, states, n, o, rounds, i, k - 1);
    }
  }

  /** The reconcile where a state has it. */
  ghost function Onward(c: Config, states: seq<System>, n: string, o: Oracle, others: Others, i: nat, j: nat): (World, Pc, nat)
    requires j < |states| && n in states[j].ctl
  {
    Amid(c, states[j].w, states[j].ctl[n].pc, o, others, i + j)
  }

  ghost predicate SameOnward(c: Config, states: seq<System>, n: string, o: Oracle, others: Others, i: nat, j: nat, k: nat) {
    && j < |states| && k < |states| && n in states[j].ctl && n in states[k].ctl
    && Onward(c, states, n, o, others, i, j) == Onward(c, states, n, o, others, i, k)
  }

  lemma OnwardTwice(c: Config, states: seq<System>, n: string, o: Oracle, others: Others, i: nat, a: nat, b: nat, d: nat)
    requires SameOnward(c, states, n, o, others, i, a, b) && SameOnward(c, states, n, o, others, i, b, d)
    ensures SameOnward(c, states, n, o, others, i, a, d)
  { }

  lemma LinkIsAmid(c: Config, states: seq<System>, n: string, o: Oracle, rounds: seq<seq<Move>>, i: nat, others: Others,
                   j: nat)
    requires Interleaving(c, states, n, o, rounds, i) && AllDoing(c, states, rounds, others, i)
    requires j < |rounds| && AllBase(states[j])
    ensures SameOnward(c, states, n, o, others, i, j, j + 1)
  {
    assert Linked(c, states, n, o, rounds[j], i, j) && Doing(c, states, rounds[j], others, i, j);
    RoundIsAmid(c, states[j], n, o, rounds[j], i + j, others, states[j + 1]);
  }

  lemma {:induction false} RoundsAreAmid(c: Config, states: seq<System>, n: string, o: Oracle, rounds: seq<seq<Move>>,
                                         i: nat, others: Others, k: nat)
    requires Interleaving(c, states, n, o, rounds, i) && AllDoing(c, states, rounds, others, i) && k <= |rounds|
    requires AllBase(states[0]) && n in states[0].ctl
    ensures SameOnward(c, states, n, o, others, i, 0, k)
    decreases k
  {
    if k != 0 {
      var j: nat := k - 1;
      RoundsAreAmid(c, states, n, o, rounds, i, others, j);
      RoundsKeepBase(c, states, n, o, rounds, i, j);
      LinkIsAmid(c, states, n, o, rounds, i, others, j);
      OnwardTwice(c, states, n, o, others, i, 0, j, k);
    }
  }

  lemma DoingsDo(c: Config, states: seq<System>, rounds: seq<seq<Move>>, i: nat)
    requires |states| == |rounds| + 1
    ensures AllDoing(c, states, rounds, Doings(c, states, rounds, i), i)
  { }

  /** However the moves of all other actors, of this and of every other site, are interleaved with
      the effects of a reconcile of site n: it is the reconcile driven among the worlds it met, up to
      the same program counter and the same state of both servers. */
  lemma InterleavingIsAmid(c: Config, states: seq<System>, n: string, o: Oracle, rounds: seq<seq<Move>>, i: nat)
    requires Interleaving(c, states, n, o, rounds, i) && AllBase(states[0]) && n in states[0].ctl
    ensures var others := Doings(c, states, rounds, i);
            SameOnward(c, states, n, o, others, i, 0, |rounds|)
  {
    DoingsDo(c, states, rounds, i);
    RoundsAreAmid(c, states, n, o, rounds, i, Doings(c, states, rounds, i), |rounds|);
  }
}
