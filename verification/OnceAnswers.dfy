/**
What the callers of the once-flags get is what the runtime answered, or what some thread gave: every default
comes from the one choice in which its initialiser decided, and every call of a program returns once, in order.
*/
module OnceAnswers {
  import opened Prelude
  import opened Fairness
  import opened OnceDefaults

  // ---------------------------------------------------------------- the runtime's answers

  /** The step decides on the default of kind `k`: a setDefault that comes first, or the point of an initialiser
      at which all it depends on is known. */
  predicate Decides(s: State, c: Choice, k: Kind) {
    && c.tid < |s.threads| && Top(s.threads[c.tid]) == k
    && var pc := s.threads[c.tid].pcs[k];
       || (pc.Enter? && pc.op.Set? && s.slots[k].flag == Fresh)
       || (pc.Begin? && k == PLATFORM)
       || (pc.Got? && !Calls(k, pc))
       || pc.GotDevice?
  }

  /** The choices of a run in which a default of kind `k` was decided on. */
  function Decided(s: State, schedule: seq<Choice>, k: Kind): seq<Choice> {
    if schedule == [] then []
    else
      var n := |schedule| - 1;
      Decided(s, schedule[..n], k) + if Decides(Run(s, schedule[..n]), schedule[n], k) then [schedule[n]] else []
  }

  /** What was decided on is what the runtime answered in that choice: the object and the code, no object with
      the code of a platform that could not be found, and no object with the context's code if a device or queue
      has to do without a context. */
  predicate Answered(s: State, k: Kind, x: Install, c: Choice) {
    if x.given then x.error == CL_SUCCESS
    else if k == PLATFORM then x.error == c.error && x.value == if c.error == CL_SUCCESS then c.handle else NULL
    else if k == CONTEXT then x.value == c.handle && x.error == c.error
    else
      && s.slots[CONTEXT].flag == Done
      && if s.slots[CONTEXT].error != CL_SUCCESS then x.value == NULL && x.error == s.slots[CONTEXT].error
         else x.value == c.handle && x.error == if k == DEVICE then CL_SUCCESS else c.error
  }

  ghost predicate Records(s: State, k: Kind, decided: seq<Choice>) {
    var installs := s.slots[k].installs;
    |installs| == |decided| && forall i :: 0 <= i < |installs| ==> Answered(s, k, installs[i], decided[i])
  }

  lemma LocalDecides(s: State, c: Choice, k: Kind)
    requires Inv(s) && c.tid < |s.threads| && Top(s.threads[c.tid]) == k
    ensures var installs, s' := s.slots[k].installs, StepActive(s, c.tid, k, c.handle, c.error);
            var installs' := s'.slots[k].installs;
            if Decides(s, c, k) then |installs'| == |installs| + 1 && installs'[..|installs|] == installs
                                     && Answered(s', k, installs'[|installs|], c)
            else installs' == installs
  {
    assert ThreadOk(s, c.tid) && FrameOk(s, c.tid, k);
  }

  lemma StepDecides(s: State, c: Choice, k: Kind)
    requires Inv(s)
    ensures var installs, installs' := s.slots[k].installs, Step(s, c).slots[k].installs;
            if Decides(s, c, k) then |installs'| == |installs| + 1 && installs'[..|installs|] == installs
                                     && Answered(Step(s, c), k, installs'[|installs|], c)
            else installs' == installs
  {
    if c.tid < |s.threads| && Top(s.threads[c.tid]) < 4 {
      LocalDecides(s, c, Top(s.threads[c.tid]));
    }
  }

  lemma StepRecords(s: State, c: Choice, k: Kind, decided: seq<Choice>)
    requires Inv(s) && Records(s, k, decided)
    ensures Records(Step(s, c), k, decided + if Decides(s, c, k) then [c] else [])
  {
    StepDecides(s, c, k);
    StepInv(s, c);
    assert SlotOk(s, k);
  }

  lemma {:induction false} InstalledIsAnswered(calls: seq<seq<Call>>, schedule: seq<Choice>, k: Kind)
    ensures Records(Run(Init(calls), schedule), k, Decided(Init(calls), schedule, k))
  {
    if schedule != [] {
      var n := |schedule| - 1;
      InstalledIsAnswered(calls, schedule[..n], k);
      RunInv(calls, schedule[..n]);
      StepRecords(Run(Init(calls), schedule[..n]), schedule[n], k, Decided(Init(calls), schedule[..n], k));
    }
  }

  /** Every returned pair is what was decided on in the one choice in which that happened, and so what the runtime
      answered then unless a thread gave the default. */
  lemma ReturnsTheAnswer(calls: seq<seq<Call>>, schedule: seq<Choice>, r: Return)
    requires r in Run(Init(calls), schedule).log
    ensures var s, decided := Run(Init(calls), schedule), Decided(Init(calls), schedule, r.kind);
            && |decided| == 1 && |s.slots[r.kind].installs| == 1
            && Answered(s, r.kind, s.slots[r.kind].installs[0], decided[0])
            && r.value == s.slots[r.kind].installs[0].value && r.error == s.slots[r.kind].installs[0].error
  {
    RunInv(calls, schedule);
    InstalledIsAnswered(calls, schedule, r.kind);
    assert ReturnOk(Run(Init(calls), schedule), r);
    assert SlotOk(Run(Init(calls), schedule), r.kind);
  }

  // ---------------------------------------------------------------- every call returns

  /** The kinds of the calls of thread `i` that have returned. */
  function Returned(log: seq<Return>, i: nat): seq<Kind> {
    if log == [] then []
    else
      var n := |log| - 1;
      Returned(log[..n], i) + if log[n].tid == i then [log[n].kind] else []
  }

  function Kinds(calls: seq<Call>): seq<Kind> {
    if calls == [] then [] else [calls[0].kind] + Kinds(calls[1..])
  }

  /** The call a thread is in: the outermost activation. */
  function Current(t: Thread): seq<Kind> {
    if t.pcs[QUEUE] != Absent then [QUEUE] else if t.pcs[DEVICE] != Absent then [DEVICE]
    else if t.pcs[CONTEXT] != Absent then [CONTEXT] else if t.pcs[PLATFORM] != Absent then [PLATFORM] else []
  }

  /** What has returned, what is going on and what is still to be done make up the program. */
  predicate OnPlan(s: State, calls: seq<seq<Call>>, i: nat)
    requires i < |s.threads| && i < |calls|
  {
    Returned(s.log, i) + Current(s.threads[i]) + Kinds(s.threads[i].todo) == Kinds(calls[i])
  }

  lemma ReturnedNext(log: seq<Return>, r: Return, i: nat)
    ensures Returned(log + [r], i) == Returned(log, i) + if r.tid == i then [r.kind] else []
  {
    assert (log + [r])[..|log|] == log;
  }

  /** Thread `i` moves, and returns at most one call. */
  ghost predicate Advances(s: State, s': State, i: nat)
    requires i < |s.threads|
  {
    && |s'.threads| == |s.threads|
    && (forall j :: 0 <= j < |s.threads| && j != i ==> s'.threads[j] == s.threads[j])
    && var before, after := Current(s.threads[i]) + Kinds(s.threads[i].todo),
                            Current(s'.threads[i]) + Kinds(s'.threads[i].todo);
       || (s'.log == s.log && after == before)
       || (|s'.log| == |s.log| + 1 && s'.log[..|s.log|] == s.log && s'.log[|s.log|].tid == i
           && [s'.log[|s.log|].kind] + after == before)
  }

  lemma ActiveAdvances(s: State, i: nat, handle: int, error: int)
    requires i < |s.threads| && Top(s.threads[i]) < 4
    ensures Advances(s, StepActive(s, i, Top(s.threads[i]), handle, error), i)
  {
  }

  lemma StepAdvances(s: State, c: Choice)
    requires c.tid < |s.threads|
    ensures Advances(s, Step(s, c), c.tid)
  {
    if Top(s.threads[c.tid]) < 4 {
      ActiveAdvances(s, c.tid, c.handle, c.error);
    }
  }

  lemma StaysOnPlan(s: State, s': State, calls: seq<seq<Call>>, i: nat, j: nat)
    requires i < |s.threads| == |calls| && j < |calls| && Advances(s, s', i)
    requires OnPlan(s, calls, i) && OnPlan(s, calls, j)
    ensures OnPlan(s', calls, j)
  {
    var out: seq<Kind> := [];
    if s'.log != s.log {
      var r := s'.log[|s.log|];
      assert s'.log == s.log + [r];
      ReturnedNext(s.log, r, j);
      out := if r.tid == j then [r.kind] else [];
    } else {
      assert Returned(s.log, j) + out == Returned(s.log, j);
    }
    var t, t' := s.threads[j], s'.threads[j];
    assert out == [] ==> out + (Current(t') + Kinds(t'.todo)) == Current(t') + Kinds(t'.todo);
    PassOn(Kinds(calls[j]), Returned(s.log, j), out, Current(t), Kinds(t.todo), Current(t'), Kinds(t'.todo));
  }

  ghost predicate AllOnPlan(s: State, calls: seq<seq<Call>>) {
    |s.threads| == |calls| && forall i :: 0 <= i < |calls| ==> OnPlan(s, calls, i)
  }

  lemma StepOnPlan(s: State, c: Choice, calls: seq<seq<Call>>)
    requires AllOnPlan(s, calls)
    ensures AllOnPlan(Step(s, c), calls)
  {
    if c.tid < |s.threads| {
      StepAdvances(s, c);
      assert OnPlan(s, calls, c.tid);
      forall j | 0 <= j < |calls|
        ensures OnPlan(Step(s, c), calls, j)
      {
        StaysOnPlan(s, Step(s, c), calls, c.tid, j);
      }
    }
  }

  lemma {:induction false} RunOnPlan(calls: seq<seq<Call>>, schedule: seq<Choice>)
    ensures AllOnPlan(Run(Init(calls), schedule), calls)
  {
    if schedule == [] {
      forall i | 0 <= i < |calls|
        ensures OnPlan(Init(calls), calls, i)
      {
        assert [] + Kinds(calls[i]) == Kinds(calls[i]);
      }
    } else {
      var n := |schedule| - 1;
      RunOnPlan(calls, schedule[..n]);
      StepOnPlan(Run(Init(calls), schedule[..n]), schedule[n], calls);
    }
  }

  /** The calls of a thread return in the order of its program, and when the thread is done all have. */
  lemma EveryCallReturns(calls: seq<seq<Call>>, schedule: seq<Choice>, i: nat)
    requires i < |calls|
    ensures var s := Run(Init(calls), schedule);
            && |s.threads| == |calls| && Returned(s.log, i) <= Kinds(calls[i])
            && (Finished(s.threads[i]) ==> Returned(s.log, i) == Kinds(calls[i]))
  {
    RunOnPlan(calls, schedule);
    assert OnPlan(Run(Init(calls), schedule), calls, i);
  }
}
