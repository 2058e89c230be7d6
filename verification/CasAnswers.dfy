/**
What the callers of the hand-rolled initialisation get is what the runtime answered: every returned object and
code comes from the one choice that drove the creating step, and every call of a program returns once, in
order, with a code if and only if it asked for one.
*/
module CasAnswers {
  import opened Prelude
  import opened Fairness
  import opened CasDefaults
  import opened CasRuns

  // ---------------------------------------------------------------- the runtime's answers

  /** The step asks the runtime for an object: a context in the creation block, or a queue once the nested call
      has returned a context without an error. */
  predicate Asks(s: State, c: Choice, k: Kind) {
    && c.tid < |s.threads| && Top(s.threads[c.tid]) == k
    && var pc := s.threads[c.tid].pcs[k];
       (k == CTX && pc.Create?) || (pc.MakeQueue? && pc.ctxError == CL_SUCCESS)
  }

  /** The choices of a run in which the runtime was asked for an object of kind `k`. */
  function Asked(s: State, schedule: seq<Choice>, k: Kind): seq<Choice> {
    if schedule == [] then []
    else
      var n := |schedule| - 1;
      Asked(s, schedule[..n], k) + if Asks(Run(s, schedule[..n]), schedule[n], k) then [schedule[n]] else []
  }

  /** `made` records the answers. */
  predicate Records(made: seq<Made>, asked: seq<Choice>) {
    |made| == |asked|
    && forall i :: 0 <= i < |made| ==> made[i].handle == asked[i].handle && made[i].error == asked[i].error
  }

  lemma StepRecords(s: State, c: Choice, k: Kind)
    ensures var made, made' := s.slots[k].made, Step(s, c).slots[k].made;
            if Asks(s, c, k) then |made'| == |made| + 1 && made'[..|made|] == made
                                  && made'[|made|].handle == c.handle && made'[|made|].error == c.error
            else made' == made
  {
  }

  lemma {:induction false} MadeIsAnswered(start: int, calls: seq<seq<Call>>, schedule: seq<Choice>, k: Kind)
    ensures Records(Run(Init(start, calls), schedule).slots[k].made, Asked(Init(start, calls), schedule, k))
  {
    if schedule != [] {
      var n := |schedule| - 1;
      MadeIsAnswered(start, calls, schedule[..n], k);
      StepRecords(Run(Init(start, calls), schedule[..n]), schedule[n], k);
    }
  }

  /** What a call returns if the runtime was asked for its kind, and for contexts, by these choices. */
  predicate Answered(r: Return, asked: seq<Choice>, contexts: seq<Choice>) {
    && |asked| <= 1 && |contexts| == 1
    && if asked != [] then r.value == asked[0].handle && (r.error.Some? ==> r.error.value == asked[0].error)
       else
         && r.kind == QUEUE && contexts[0].error != CL_SUCCESS
         && r.value == NULL && (r.error.Some? ==> r.error.value == contexts[0].error)
  }

  lemma InvAnswered(s: State, r: Return, asked: seq<Choice>, contexts: seq<Choice>)
    requires SlotOk(s, CTX) && SlotOk(s, QUEUE) && ReturnOk(s, r)
    requires Records(s.slots[r.kind].made, asked) && Records(s.slots[CTX].made, contexts)
    ensures Answered(r, asked, contexts)
  {
  }

  /** Every returned object and code is what the runtime answered.  It is asked at most once for each kind; a
      queue is not asked for if the context could not be made, and then there is none and the code is the
      context's. */
  lemma ReturnsTheAnswer(calls: seq<seq<Call>>, schedule: seq<Choice>, r: Return)
    requires r in Run(Init(NOT_INITIALIZED, calls), schedule).log
    ensures Answered(r, Asked(Init(NOT_INITIALIZED, calls), schedule, r.kind),
                     Asked(Init(NOT_INITIALIZED, calls), schedule, CTX))
  {
    var s := Init(NOT_INITIALIZED, calls);
    RunInv(calls, schedule);
    MadeIsAnswered(NOT_INITIALIZED, calls, schedule, r.kind);
    MadeIsAnswered(NOT_INITIALIZED, calls, schedule, CTX);
    InvAnswered(Run(s, schedule), r, Asked(s, schedule, r.kind), Asked(s, schedule, CTX));
  }

  // ---------------------------------------------------------------- every call returns

  /** The calls of thread `i` that have returned, and whether with a code. */
  function Returned(log: seq<Return>, i: nat): seq<Call> {
    if log == [] then []
    else
      var n := |log| - 1;
      Returned(log[..n], i) + if log[n].tid == i then [Call(log[n].kind, log[n].error.Some?)] else []
  }

  /** The call a thread is in. */
  function Current(t: Thread): seq<Call> {
    if Top(t) == 2 then [] else [Call(if t.pcs[QUEUE] != Absent then QUEUE else CTX, t.wantErr)]
  }

  /** The code has been read, if it was asked for. */
  predicate CodeOk(pc: Pc, wantErr: bool) {
    match pc
    case LoadError => wantErr
    case LoadValue(seen) => seen.Some? == wantErr
    case _ => true
  }

  predicate FramesOk(t: Thread) {
    && CodeOk(t.pcs[QUEUE], t.wantErr) && CodeOk(t.pcs[CTX], t.wantErr || t.pcs[QUEUE] == Await)
    && (t.pcs[CTX] != Absent && t.pcs[QUEUE] != Absent ==> t.pcs[QUEUE] == Await)
    && (t.pcs[QUEUE] == Await ==> t.pcs[CTX] != Absent) && !t.pcs[CTX].Await? && !t.pcs[CTX].MakeQueue?
  }

  /** What has returned, what is going on and what is still to be done make up the program. */
  predicate OnPlan(s: State, calls: seq<seq<Call>>, i: nat)
    requires i < |s.threads| && i < |calls|
  {
    FramesOk(s.threads[i]) && Returned(s.log, i) + Current(s.threads[i]) + s.threads[i].todo == calls[i]
  }

  lemma ReturnedNext(log: seq<Return>, r: Return, i: nat)
    ensures Returned(log + [r], i) == Returned(log, i) + if r.tid == i then [Call(r.kind, r.error.Some?)] else []
  {
    assert (log + [r])[..|log|] == log;
  }

  /** Thread `i` moves, and returns at most one call. */
  ghost predicate Advances(s: State, s': State, i: nat)
    requires i < |s.threads|
  {
    && |s'.threads| == |s.threads|
    && (forall j :: 0 <= j < |s.threads| && j != i ==> s'.threads[j] == s.threads[j])
    && var before, after := Current(s.threads[i]) + s.threads[i].todo, Current(s'.threads[i]) + s'.threads[i].todo;
       || (s'.log == s.log && after == before)
       || (|s'.log| == |s.log| + 1 && s'.log[..|s.log|] == s.log && s'.log[|s.log|].tid == i
           && [Call(s'.log[|s.log|].kind, s'.log[|s.log|].error.Some?)] + after == before)
  }

  lemma ActiveFrames(s: State, i: nat, handle: int, error: int)
    requires i < |s.threads| && Top(s.threads[i]) < 2 && FramesOk(s.threads[i])
    ensures var s' := StepActive(s, i, Top(s.threads[i]), handle, error);
            |s'.threads| == |s.threads| && FramesOk(s'.threads[i])
  {
  }

  lemma ActiveAdvances(s: State, i: nat, handle: int, error: int)
    requires i < |s.threads| && Top(s.threads[i]) < 2 && FramesOk(s.threads[i])
    ensures Advances(s, StepActive(s, i, Top(s.threads[i]), handle, error), i)
  {
  }

  lemma BeginAdvances(s: State, i: nat)
    requires i < |s.threads| && Top(s.threads[i]) == 2 && FramesOk(s.threads[i]) && s.threads[i].todo != []
    ensures Advances(s, Begin(s, i), i) && FramesOk(Begin(s, i).threads[i])
  {
    var t := s.threads[i];
    assert t.todo == [t.todo[0]] + t.todo[1..];
  }

  lemma StepAdvances(s: State, c: Choice)
    requires c.tid < |s.threads| && FramesOk(s.threads[c.tid])
    ensures Advances(s, Step(s, c), c.tid) && FramesOk(Step(s, c).threads[c.tid])
  {
    var t := s.threads[c.tid];
    if Top(t) < 2 {
      ActiveFrames(s, c.tid, c.handle, c.error);
      ActiveAdvances(s, c.tid, c.handle, c.error);
    } else if t.todo != [] {
      BeginAdvances(s, c.tid);
    }
  }

  lemma StaysOnPlan(s: State, s': State, calls: seq<seq<Call>>, i: nat, j: nat)
    requires i < |s.threads| == |calls| && j < |calls| && Advances(s, s', i) && FramesOk(s'.threads[i])
    requires OnPlan(s, calls, i) && OnPlan(s, calls, j)
    ensures OnPlan(s', calls, j)
  {
    var out: seq<Call> := [];
    if s'.log != s.log {
      var r := s'.log[|s.log|];
      assert s'.log == s.log + [r];
      ReturnedNext(s.log, r, j);
      out := if r.tid == j then [Call(r.kind, r.error.Some?)] else [];
    } else {
      assert Returned(s.log, j) + out == Returned(s.log, j);
    }
    var t, t' := s.threads[j], s'.threads[j];
    assert out == [] ==> out + (Current(t') + t'.todo) == Current(t') + t'.todo;
    PassOn(calls[j], Returned(s.log, j), out, Current(t), t.todo, Current(t'), t'.todo);
  }

  ghost predicate AllOnPlan(s: State, calls: seq<seq<Call>>) {
    |s.threads| == |calls| && forall i :: 0 <= i < |calls| ==> OnPlan(s, calls, i)
  }

  lemma StepOnPlan(s: State, c: Choice, calls: seq<seq<Call>>)
    requires AllOnPlan(s, calls)
    ensures AllOnPlan(Step(s, c), calls)
  {
    if c.tid < |s.threads| {
      assert OnPlan(s, calls, c.tid);
      StepAdvances(s, c);
      forall j | 0 <= j < |calls|
        ensures OnPlan(Step(s, c), calls, j)
      {
        StaysOnPlan(s, Step(s, c), calls, c.tid, j);
      }
    }
  }

  lemma {:induction false} RunOnPlan(start: int, calls: seq<seq<Call>>, schedule: seq<Choice>)
    ensures AllOnPlan(Run(Init(start, calls), schedule), calls)
  {
    if schedule == [] {
      forall i | 0 <= i < |calls|
        ensures OnPlan(Init(start, calls), calls, i)
      {
        assert [] + calls[i] == calls[i];
      }
    } else {
      var n := |schedule| - 1;
      RunOnPlan(start, calls, schedule[..n]);
      StepOnPlan(Run(Init(start, calls), schedule[..n]), schedule[n], calls);
    }
  }

  /** From any start value, the calls of a thread return in the order of its program, each with a code if and
      only if it asked for one; and when the thread is done all have. */
  lemma EveryCallReturns(start: int, calls: seq<seq<Call>>, schedule: seq<Choice>, i: nat)
    requires i < |calls|
    ensures var s := Run(Init(start, calls), schedule);
            && |s.threads| == |calls| && Returned(s.log, i) <= calls[i]
            && (Done(s.threads[i]) ==> Returned(s.log, i) == calls[i])
  {
    RunOnPlan(start, calls, schedule);
    assert OnPlan(Run(Init(start, calls), schedule), calls, i);
  }
}
