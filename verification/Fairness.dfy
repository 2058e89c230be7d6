/**
Systems whose threads take turns.  A schedule is a sequence of choices, each of which names the thread that
moves; a schedule is fair if it can be cut into rounds in which every thread has a turn.
*/
module Fairness {
  /** What a schedule makes of a state. */
  function Fold<S, C>(step: (S, C) -> S, s: S, schedule: seq<C>): S {
    if schedule == [] then s
    else step(Fold(step, s, schedule[..|schedule| - 1]), schedule[|schedule| - 1])
  }

  lemma {:induction false} FoldAppend<S, C>(step: (S, C) -> S, s: S, a: seq<C>, b: seq<C>)
    ensures Fold(step, s, a + b) == Fold(step, Fold(step, s, a), b)
  {
    if b == [] {
      assert a + b == a;
    } else {
      assert (a + b)[..|a + b| - 1] == a + b[..|b| - 1];
      FoldAppend(step, s, a, b[..|b| - 1]);
    }
  }

  function Flatten<C>(rounds: seq<seq<C>>): seq<C> {
    if rounds == [] then [] else rounds[0] + Flatten(rounds[1..])
  }

  predicate HasTurn<C>(tid: C -> nat, round: seq<C>, i: nat) {
    exists k :: 0 <= k < |round| && tid(round[k]) == i
  }

  /** Each of the `n` threads has a turn. */
  predicate Covers<C>(tid: C -> nat, n: nat, round: seq<C>) {
    forall i :: 0 <= i < n ==> HasTurn(tid, round, i)
  }

  /** How a system moves, whose turn a choice is, how many threads there are, which states can be reached, when
      all is done, and how much there is left to do at most. */
  datatype System<!S, !C> =
    System(step: (S, C) -> S, tid: C -> nat, count: S -> nat, inv: S -> bool, done: S -> bool, rank: S -> nat)

  ghost predicate StepOk<S, C>(m: System<S, C>, s: S, c: C) {
    var s' := m.step(s, c);
    m.inv(s) ==> m.inv(s') && m.count(s') == m.count(s) && (s' == s || m.rank(s') < m.rank(s))
  }

  /** Thread `i` can have a turn, and cannot but change the state. */
  ghost predicate MustMove<S, C(!new)>(m: System<S, C>, s: S, i: nat) {
    (exists c :: m.tid(c) == i) && forall c :: m.tid(c) == i ==> m.step(s, c) != s
  }

  /** Every step leaves the state alone or lowers its rank, and until all is done some thread moves. */
  ghost predicate Lively<S(!new), C(!new)>(m: System<S, C>) {
    && (forall s, c :: StepOk(m, s, c))
    && (forall s :: m.inv(s) && !m.done(s) ==> exists i :: 0 <= i < m.count(s) && MustMove(m, s, i))
    && (forall s, c :: m.inv(s) && m.done(s) ==> m.step(s, c) == s)
  }

  /** A schedule leaves the state alone or lowers its rank. */
  lemma {:induction false} RunLowers<S(!new), C(!new)>(m: System<S, C>, s: S, schedule: seq<C>)
    requires Lively(m) && m.inv(s)
    ensures var s' := Fold(m.step, s, schedule);
            && m.inv(s') && m.count(s') == m.count(s)
            && (s' == s || m.rank(s') < m.rank(s)) && (m.done(s) ==> s' == s)
  {
    if schedule != [] {
      var n := |schedule| - 1;
      RunLowers(m, s, schedule[..n]);
      assert StepOk(m, Fold(m.step, s, schedule[..n]), schedule[n]);
    }
  }

  /** A round lowers the rank, until all is done. */
  lemma RoundLowers<S(!new), C(!new)>(m: System<S, C>, s: S, round: seq<C>)
    requires Lively(m) && m.inv(s) && !m.done(s) && Covers(m.tid, m.count(s), round)
    ensures m.rank(Fold(m.step, s, round)) < m.rank(s)
  {
    var i :| 0 <= i < m.count(s) && MustMove(m, s, i);
    assert HasTurn(m.tid, round, i);
    var k :| 0 <= k < |round| && m.tid(round[k]) == i;
    var before := Fold(m.step, s, round[..k]);
    RunLowers(m, s, round[..k]);
    assert StepOk(m, before, round[k]);
    assert round[..k + 1][..k] == round[..k];
    var after := Fold(m.step, s, round[..k + 1]);
    assert after == m.step(before, round[k]);
    RunLowers(m, after, round[k + 1..]);
    FoldAppend(m.step, s, round[..k + 1], round[k + 1..]);
    assert round == round[..k + 1] + round[k + 1..];
  }

  lemma RankAbove<S(!new), C(!new)>(m: System<S, C>, s: S)
    requires Lively(m) && m.inv(s) && !m.done(s)
    ensures m.rank(s) > 0
  {
    var i :| 0 <= i < m.count(s) && MustMove(m, s, i);
    var c :| m.tid(c) == i;
    assert StepOk(m, s, c);
  }

  /** A fair run has done everything after as many rounds as the rank. */
  lemma {:induction false} FairRunFinishes<S(!new), C(!new)>(m: System<S, C>, s: S, rounds: seq<seq<C>>)
    requires Lively(m) && m.inv(s) && m.rank(s) <= |rounds|
    requires forall r :: r in rounds ==> Covers(m.tid, m.count(s), r)
    ensures m.done(Fold(m.step, s, Flatten(rounds)))
  {
    if m.done(s) {
      RunLowers(m, s, Flatten(rounds));
    } else {
      RankAbove(m, s);
      RunLowers(m, s, rounds[0]);
      RoundLowers(m, s, rounds[0]);
      FairRunFinishes(m, Fold(m.step, s, rounds[0]), rounds[1..]);
      FoldAppend(m.step, s, rounds[0], Flatten(rounds[1..]));
    }
  }

  /** From everywhere some schedule, no longer than the rank, does everything. */
  lemma {:induction false} CanFinish<S(!new), C(!new)>(m: System<S, C>, s: S) returns (schedule: seq<C>)
    requires Lively(m) && m.inv(s)
    ensures m.done(Fold(m.step, s, schedule)) && |schedule| <= m.rank(s)
    decreases m.rank(s)
  {
    schedule := [];
    if !m.done(s) {
      var i :| 0 <= i < m.count(s) && MustMove(m, s, i);
      var c :| m.tid(c) == i;
      assert StepOk(m, s, c);
      var rest := CanFinish(m, m.step(s, c));
      assert [c][..0] == [];
      FoldAppend(m.step, s, [c], rest);
      schedule := [c] + rest;
    }
  }
}
