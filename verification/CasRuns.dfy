/**
What holds in every run of the hand-rolled initialisation: one creation and one result, and progress.
*/
module CasRuns {
  import opened Prelude
  import opened Fairness
  import opened CasDefaults

  // ---------------------------------------------------------------- safety

  lemma {:induction false} RunInv(calls: seq<seq<Call>>, schedule: seq<Choice>)
    ensures Inv(Run(Init(NOT_INITIALIZED, calls), schedule))
  {
    if schedule == [] {
      InitInv(calls);
    } else {
      RunInv(calls, schedule[..|schedule| - 1]);
      StepInv(Run(Init(NOT_INITIALIZED, calls), schedule[..|schedule| - 1]), schedule[|schedule| - 1]);
    }
  }

  /** Progress of the word in a run: it only ever moves 1 to 2 to 4. */
  predicate WordAdvances(w: int, w': int) {
    || w' == w
    || (w == NOT_INITIALIZED && w' == BEING_INITIALIZED)
    || (w == BEING_INITIALIZED && w' == INITIALIZED)
  }

  lemma WordMoves(s: State, i: nat, top: Kind, handle: int, error: int, k: Kind)
    requires Inv(s) && i < |s.threads| && Top(s.threads[i]) == top
    ensures WordAdvances(s.slots[k].word, StepActive(s, i, top, handle, error).slots[k].word)
    ensures s.log <= StepActive(s, i, top, handle, error).log
  {
    assert ThreadOk(s, i);
  }

  lemma StepMoves(s: State, c: Choice, k: Kind)
    requires Inv(s)
    ensures WordAdvances(s.slots[k].word, Step(s, c).slots[k].word)
    ensures s.slots[k].word == INITIALIZED ==> Step(s, c).slots[k] == s.slots[k]
    ensures s.log <= Step(s, c).log
  {
    if c.tid < |s.threads| {
      var t := s.threads[c.tid];
      assert ThreadOk(s, c.tid);
      if Top(t) < 2 {
        StepActiveFair(s, c.tid, Top(t), c.handle, c.error);
        WordMoves(s, c.tid, Top(t), c.handle, c.error, k);
      }
    }
  }

  /** Once published, a slot is never written again, whatever is scheduled afterwards. */
  lemma {:induction false} PublishedIsFrozen(calls: seq<seq<Call>>, past: seq<Choice>, future: seq<Choice>, k: Kind)
    ensures var s := Run(Init(NOT_INITIALIZED, calls), past);
            var s' := Run(Init(NOT_INITIALIZED, calls), past + future);
            && (s.slots[k].word == INITIALIZED ==> s'.slots[k] == s.slots[k])
            && s.slots[k].word <= s'.slots[k].word
            && s.log <= s'.log
  {
    if future == [] {
      assert past + future == past;
    } else {
      var n := |future| - 1;
      PublishedIsFrozen(calls, past, future[..n], k);
      assert (past + future)[..|past + future| - 1] == past + future[..n];
      RunInv(calls, past + future[..n]);
      StepMoves(Run(Init(NOT_INITIALIZED, calls), past + future[..n]), future[n], k);
    }
  }

  /** A step in which a thread reads `default_error_` or `default_`. */
  predicate Reads(s: State, i: nat, k: Kind)
    requires i < |s.threads|
  {
    Top(s.threads[i]) == k && (s.threads[i].pcs[k].LoadError? || s.threads[i].pcs[k].LoadValue?)
  }

  /** The safety of the protocol, in every state of every run that starts from NOT_INITIALIZED:
      at most one thread ever enters the creation block and it creates at most one object; whoever
      reads the object or the code does so after both have their final values; and every call that
      ever returns gets one and the same pair, the one the only creation produced. */
  lemma OneCreationOneResult(calls: seq<seq<Call>>, past: seq<Choice>, future: seq<Choice>, k: Kind)
    ensures var s := Run(Init(NOT_INITIALIZED, calls), past);
            var s' := Run(Init(NOT_INITIALIZED, calls), past + future);
            && |s'.slots[k].entered| <= 1 && |s'.slots[k].made| <= 1
            && (forall i :: 0 <= i < |s.threads| && Reads(s, i, k) ==> s'.slots[k] == s.slots[k])
            && (forall r :: r in s.log && r.kind == k ==> r in s'.log && ReturnOk(s', r))
            && (forall r, r' :: r in s.log && r' in s'.log && r.kind == k && r'.kind == k ==>
                 r.value == r'.value && (r.error.Some? && r'.error.Some? ==> r.error == r'.error))
            && (forall r :: r in s'.log && r.kind == k && s'.slots[k].made != [] ==>
                 r.value == s'.slots[k].made[0].handle
                 && (r.error.Some? ==> r.error.value == s'.slots[k].made[0].error))
  {
    RunInv(calls, past);
    RunInv(calls, past + future);
    PublishedIsFrozen(calls, past, future, k);
    var s := Run(Init(NOT_INITIALIZED, calls), past);
    forall i | 0 <= i < |s.threads| && Reads(s, i, k)
      ensures s.slots[k].word == INITIALIZED
    {
      assert ThreadOk(s, i);
    }
  }

  /** The default queue was created from the default context, the one every call to
      Context::getDefault returns then and later, and only when that context had no error. */
  lemma QueueUsesDefaultContext(calls: seq<seq<Call>>, past: seq<Choice>, future: seq<Choice>, r: Return)
    requires var s := Run(Init(NOT_INITIALIZED, calls), past); s.slots[QUEUE].made != []
    requires r in Run(Init(NOT_INITIALIZED, calls), past + future).log && r.kind == CTX
    ensures r.value == Run(Init(NOT_INITIALIZED, calls), past).slots[QUEUE].made[0].from
    ensures r.error.Some? ==> r.error.value == CL_SUCCESS
  {
    RunInv(calls, past);
    RunInv(calls, past + future);
    PublishedIsFrozen(calls, past, future, CTX);
  }

  // ---------------------------------------------------------------- progress

  /** Steps a thread may still take inside one activation, at most. */
  function Weight(k: Kind, pc: Pc): nat {
    match pc
    case Absent => 0
    case LoadValue(_) => 1
    case LoadError => 2
    case Spin => 3
    case StoreWord => 3
    case StoreError(_) => 4
    case MakeQueue(_, _) => 5
    case Await => 6
    case Create => if k == CTX then 5 else 14
    case Cas => if k == CTX then 6 else 15
  }

  function ThreadRank(t: Thread): nat {
    16 * |t.todo| + Weight(CTX, t.pcs[CTX]) + Weight(QUEUE, t.pcs[QUEUE])
  }

  function Rank(s: State): nat {
    SumOf(ThreadRank, s.threads)
  }

  lemma OneLowersRank(s: State, s': State, i: nat)
    requires i < |s.threads| == |s'.threads| && s'.threads == s.threads[i := s'.threads[i]]
    requires ThreadRank(s'.threads[i]) < ThreadRank(s.threads[i])
    ensures Rank(s') < Rank(s)
  {
    SumOfUpdate(ThreadRank, s.threads, i, s'.threads[i]);
  }

  lemma ActiveLowers(s: State, i: nat, k: Kind, handle: int, error: int)
    requires i < |s.threads| && k == Top(s.threads[i])
    ensures var s' := StepActive(s, i, k, handle, error);
            || s' == s
            || (|s'.threads| == |s.threads| && s'.threads == s.threads[i := s'.threads[i]]
                && ThreadRank(s'.threads[i]) < ThreadRank(s.threads[i]))
  {
  }

  lemma ActiveLowersRank(s: State, i: nat, k: Kind, handle: int, error: int)
    requires i < |s.threads| && k == Top(s.threads[i])
    ensures var s' := StepActive(s, i, k, handle, error); s' == s || Rank(s') < Rank(s)
  {
    ActiveLowers(s, i, k, handle, error);
    var s' := StepActive(s, i, k, handle, error);
    if s' != s {
      OneLowersRank(s, s', i);
    }
  }

  /** From any state and with any start value, a step either changes nothing (a spin, or a thread
      with nothing to do) or strictly lowers the rank. */
  lemma StepLowersRank(s: State, c: Choice)
    ensures Step(s, c) == s || Rank(Step(s, c)) < Rank(s)
  {
    if c.tid < |s.threads| && Step(s, c) != s {
      var t := s.threads[c.tid];
      if Top(t) < 2 {
        ActiveLowersRank(s, c.tid, Top(t), c.handle, c.error);
      } else {
        SumOfUpdate(ThreadRank, s.threads, c.tid, Step(s, c).threads[c.tid]);
      }
    }
  }

  /** How many steps of the run changed the state. */
  function Moves(s: State, schedule: seq<Choice>): nat {
    if schedule == [] then 0
    else
      var before := Run(s, schedule[..|schedule| - 1]);
      Moves(s, schedule[..|schedule| - 1]) + if Step(before, schedule[|schedule| - 1]) == before then 0 else 1
  }

  /** However long the run and whatever the start value, only boundedly many steps are not spins. */
  lemma {:induction false} MovesAreBounded(s: State, schedule: seq<Choice>)
    ensures Moves(s, schedule) + Rank(Run(s, schedule)) <= Rank(s)
  {
    if schedule != [] {
      var n := |schedule| - 1;
      MovesAreBounded(s, schedule[..n]);
      StepLowersRank(Run(s, schedule[..n]), schedule[n]);
    }
  }

  predicate Done(t: Thread) {
    t.todo == [] && Top(t) == 2
  }

  ghost predicate AllDone(s: State) {
    forall i :: 0 <= i < |s.threads| ==> Done(s.threads[i])
  }

  /** The thread is unfinished but its next step would change nothing. */
  predicate Spinning(s: State, i: nat)
    requires i < |s.threads|
  {
    !Done(s.threads[i]) && Step(s, Choice(i, 0, 0)) == s
  }

  lemma SpinningWaits(s: State, i: nat)
    requires Inv(s) && i < |s.threads| && Spinning(s, i)
    ensures Top(s.threads[i]) < 2
    ensures s.slots[Top(s.threads[i])].word == BEING_INITIALIZED
    ensures s.threads[i].pcs[Top(s.threads[i])] == Spin
  {
    assert ThreadOk(s, i);
    var t := s.threads[i];
    assert Step(s, Choice(i, 0, 0)).threads[i] == t;
    assert t.todo != [] ==> |t.todo[1..]| < |t.todo|;
  }

  /** Whoever holds the context slot can move: the context block never waits. */
  lemma ContextHolderMoves(s: State) returns (i: nat)
    requires Inv(s) && s.slots[CTX].word == BEING_INITIALIZED
    ensures i < |s.threads| && !Done(s.threads[i]) && !Spinning(s, i)
  {
    i := s.slots[CTX].entered[0];
    assert ThreadOk(s, i);
    if Spinning(s, i) {
      SpinningWaits(s, i);
    }
  }

  lemma SomeThreadMovesFrom(s: State) returns (i: nat)
    requires Inv(s) && !AllDone(s)
    ensures i < |s.threads| && !Done(s.threads[i]) && !Spinning(s, i)
  {
    i :| 0 <= i < |s.threads| && !Done(s.threads[i]);
    if Spinning(s, i) {
      SpinningWaits(s, i);
      if Top(s.threads[i]) == QUEUE {
        i := s.slots[QUEUE].entered[0];
        assert ThreadOk(s, i);
        if Spinning(s, i) {
          SpinningWaits(s, i);
        }
      }
      if Spinning(s, i) {
        i := ContextHolderMoves(s);
      }
    }
  }

  /** No deadlock: while some thread is unfinished, some unfinished thread is not merely spinning,
      although a thread may hold the queue slot while it spins on the context slot. */
  lemma SomeThreadMoves(calls: seq<seq<Call>>, schedule: seq<Choice>) returns (i: nat)
    requires !AllDone(Run(Init(NOT_INITIALIZED, calls), schedule))
    ensures var s := Run(Init(NOT_INITIALIZED, calls), schedule);
            i < |s.threads| && !Done(s.threads[i]) && !Spinning(s, i)
  {
    RunInv(calls, schedule);
    i := SomeThreadMovesFrom(Run(Init(NOT_INITIALIZED, calls), schedule));
  }

  /** A thread that is neither finished nor spinning moves, whatever it gets from the runtime. */
  lemma MovesAnyway(s: State, c: Choice)
    requires Inv(s) && c.tid < |s.threads| && !Done(s.threads[c.tid]) && !Spinning(s, c.tid)
    ensures Step(s, c) != s
  {
    var t := s.threads[c.tid];
    assert ThreadOk(s, c.tid);
    assert t.todo != [] ==> |t.todo[1..]| < |t.todo|;
  }

  function Tid(c: Choice): nat {
    c.tid
  }

  function ThreadCount(s: State): nat {
    |s.threads|
  }

  ghost function Threads(): System<State, Choice> {
    System(Step, Tid, ThreadCount, Inv, AllDone, Rank)
  }

  lemma ThreadsLively()
    ensures Lively(Threads())
  {
    forall s, c
      ensures StepOk(Threads(), s, c)
    {
      if Inv(s) {
        StepInv(s, c);
        StepLowersRank(s, c);
      }
    }
    forall s | Inv(s) && !AllDone(s)
      ensures exists i :: 0 <= i < ThreadCount(s) && MustMove(Threads(), s, i)
    {
      var i := SomeThreadMovesFrom(s);
      assert Tid(Choice(i, 0, 0)) == i;
      forall c | Tid(c) == i
        ensures Step(s, c) != s
      {
        MovesAnyway(s, c);
      }
      assert MustMove(Threads(), s, i);
    }
  }

  /** No run started from NOT_INITIALIZED ever reaches a state from which the remaining calls cannot
      all return; some schedule no longer than the rank lets them. */
  lemma EveryRunCanFinish(calls: seq<seq<Call>>, past: seq<Choice>)
    ensures exists future ::
              && |future| <= Rank(Run(Init(NOT_INITIALIZED, calls), past))
              && AllDone(Run(Init(NOT_INITIALIZED, calls), past + future))
  {
    RunInv(calls, past);
    ThreadsLively();
    var future := CanFinish(Threads(), Run(Init(NOT_INITIALIZED, calls), past));
    FoldAppend(Step, Init(NOT_INITIALIZED, calls), past, future);
  }

  /** Every fair run finishes: whatever happened before, and whatever the runtime answers, all calls have
      returned after as many rounds as the rank if every thread has a turn in every round. */
  lemma EveryFairRunFinishes(calls: seq<seq<Call>>, past: seq<Choice>, rounds: seq<seq<Choice>>)
    requires Rank(Run(Init(NOT_INITIALIZED, calls), past)) <= |rounds|
    requires forall r :: r in rounds ==> Covers(Tid, |calls|, r)
    ensures AllDone(Run(Init(NOT_INITIALIZED, calls), past + Flatten(rounds)))
  {
    var s := Init(NOT_INITIALIZED, calls);
    InitInv(calls);
    RunInv(calls, past);
    ThreadsLively();
    RunLowers(Threads(), s, past);
    FairRunFinishes(Threads(), Run(s, past), rounds);
    FoldAppend(Step, s, past, Flatten(rounds));
  }
}
