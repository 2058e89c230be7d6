/**
The hand-rolled lazy initialisation of the default context and the default command queue in
CL/cl.hpp, run by any number of threads in any interleaving.

Each step performs at most one access to a shared variable (the control word
`default_initialized_`, the object `default_`, the code `default_error_`).  Accesses are taken
to be sequentially consistent, which makes the fences no-ops.  The outcome of a runtime call
(a handle and an error code) is part of the choice that drives the step, so a statement about
every schedule covers every interleaving and every behaviour of the runtime.
*/
module CasDefaults {
  import opened Prelude
  import opened Fairness

  const NOT_INITIALIZED := 1

  const BEING_INITIALIZED := 2

  const INITIALIZED := 4

  /** The two defaults, as indices into `State.slots` and `Thread.pcs`. */
  const CTX: nat := 0

  const QUEUE: nat := 1

  type Kind = k: nat | k < 2

  datatype Call = Call(kind: Kind, wantErr: bool)

  /** One successful pass through a creation call: what the runtime returned, and for a queue
      the context it was created from. */
  datatype Made = Made(handle: int, error: int, from: int)

  /** `word`, `value` and `error` are the three static members.  `entered` and `made` are history:
      the threads that entered the creation block and what they created.  No step reads them. */
  datatype Slot = Slot(word: int, value: int, error: int, entered: seq<nat>, made: seq<Made>)

  datatype Pc =
    | Absent                                // no activation of this getDefault
    | Cas                                   // about to compare-and-swap the word
    | Spin                                  // waiting for the word to become INITIALIZED
    | LoadError                             // about to read default_error_
    | LoadValue(seen: Option<int>)          // about to copy default_, having read the error
    | Create                                // entering the creation block
    | Await                                 // queue only: inside the nested Context::getDefault
    | MakeQueue(ctx: int, ctxError: int)    // queue only: the nested call has returned
    | StoreError(code: int)                 // default_ is written, default_error_ is not
    | StoreWord                             // about to publish INITIALIZED

  type Pcs = p: seq<Pc> | |p| == 2 witness [Absent, Absent]

  type Slots = s: seq<Slot> | |s| == 2 witness [Slot(0, 0, 0, [], []), Slot(0, 0, 0, [], [])]

  /** `todo` are the calls still to be made; `pcs[k]` is the activation of the k-th getDefault.
      A context activation is always the innermost one. */
  datatype Thread = Thread(todo: seq<Call>, wantErr: bool, pcs: Pcs)

  datatype Return = Return(tid: nat, kind: Kind, value: int, error: Option<int>)

  datatype State = State(slots: Slots, threads: seq<Thread>, log: seq<Return>)

  /** Which thread moves, and what the runtime answers if the step asks it for an object. */
  datatype Choice = Choice(tid: nat, handle: int, error: int)

  // ---------------------------------------------------------------- one step

  /** `x & bit` for a one-bit mask, on two's complement integers of any width. */
  predicate HasBit(x: int, bit: int)
    requires bit > 0
  {
    (x / bit) % 2 == 1
  }

  function AfterInit(wantErr: bool): Pc {
    if wantErr then LoadError else LoadValue(None)
  }

  /** The branch taken on the value the compare-and-swap returned. */
  function Branch(seen: int, wantErr: bool): Pc {
    if HasBit(seen, INITIALIZED) then AfterInit(wantErr)
    else if HasBit(seen, BEING_INITIALIZED) then Spin
    else Create
  }

  function Put(s: State, i: nat, k: Kind, slot: Slot, pc: Pc): State
    requires i < |s.threads|
  {
    var t := s.threads[i];
    s.(slots := s.slots[k := slot], threads := s.threads[i := t.(pcs := t.pcs[k := pc])])
  }

  /** The innermost activation, or 2 when the thread is between calls. */
  function Top(t: Thread): nat {
    if t.pcs[CTX] != Absent then CTX else if t.pcs[QUEUE] != Absent then QUEUE else 2
  }

  function Begin(s: State, i: nat): State
    requires i < |s.threads| && s.threads[i].todo != []
  {
    var t := s.threads[i];
    var call := t.todo[0];
    s.(threads := s.threads[i := Thread(t.todo[1..], call.wantErr, t.pcs[call.kind := Cas])])
  }

  /** A finished activation hands its result to the waiting queue activation or to the caller. */
  function Finish(s: State, i: nat, k: Kind, seen: Option<int>): State
    requires i < |s.threads|
  {
    var t := s.threads[i];
    var value := s.slots[k].value;
    if k == CTX && t.pcs[QUEUE] == Await then
      var code := if seen.Some? then seen.value else CL_SUCCESS;
      s.(threads := s.threads[i := t.(pcs := [Absent, MakeQueue(value, code)])])
    else
      s.(threads := s.threads[i := t.(pcs := t.pcs[k := Absent])],
         log := s.log + [Return(i, k, value, seen)])
  }

  function StepActive(s: State, i: nat, k: Kind, handle: int, error: int): State
    requires i < |s.threads|
  {
    var t := s.threads[i];
    var slot := s.slots[k];
    var wantErr := t.wantErr || (k == CTX && t.pcs[QUEUE] == Await);
    match t.pcs[k]
    case Absent => s
    case Cas =>
      var pc := Branch(slot.word, wantErr);
      var slot' := slot.(word := if slot.word == NOT_INITIALIZED then BEING_INITIALIZED else slot.word,
                         entered := if pc == Create then slot.entered + [i] else slot.entered);
      Put(s, i, k, slot', pc)
    case Spin =>
      if slot.word == INITIALIZED then Put(s, i, k, slot, AfterInit(wantErr)) else s
    case LoadError => Put(s, i, k, slot, LoadValue(Some(slot.error)))
    case LoadValue(seen) => Finish(s, i, k, seen)
    case Create =>
      if k == CTX then
        Put(s, i, k, slot.(value := handle, made := slot.made + [Made(handle, error, NULL)]), StoreError(error))
      else
        s.(threads := s.threads[i := t.(pcs := [Cas, Await])])
    case Await => s
    case MakeQueue(ctx, ctxError) =>
      if ctxError != CL_SUCCESS then Put(s, i, k, slot, StoreError(ctxError))
      else Put(s, i, k, slot.(value := handle, made := slot.made + [Made(handle, error, ctx)]), StoreError(error))
    case StoreError(code) => Put(s, i, k, slot.(error := code), StoreWord)
    case StoreWord => Put(s, i, k, slot.(word := INITIALIZED), AfterInit(wantErr))
  }

  function Step(s: State, c: Choice): State {
    if c.tid >= |s.threads| then s
    else
      var t := s.threads[c.tid];
      if Top(t) < 2 then StepActive(s, c.tid, Top(t), c.handle, c.error)
      else if t.todo != [] then Begin(s, c.tid)
      else s
  }

  function Run(s: State, schedule: seq<Choice>): State {
    Fold(Step, s, schedule)
  }

  function Init(start: int, calls: seq<seq<Call>>): State {
    State([Slot(start, NULL, CL_SUCCESS, [], []), Slot(start, NULL, CL_SUCCESS, [], [])],
          seq(|calls|, i requires 0 <= i < |calls| => Thread(calls[i], false, [Absent, Absent])),
          [])
  }

  // ---------------------------------------------------------------- the invariant

  predicate InCreation(pc: Pc) {
    pc.Create? || pc.Await? || pc.MakeQueue? || pc.StoreError? || pc.StoreWord?
  }

  /** The pair that will be published is what the only creation returned; or, for a queue whose
      context could not be made, nothing was created and the code is the context's. */
  predicate Resolved(s: State, k: Kind, code: int) {
    var slot := s.slots[k];
    if slot.made == [] then
      k == QUEUE && s.slots[CTX].word == INITIALIZED && code == s.slots[CTX].error != CL_SUCCESS
    else
      slot.made[0].error == code
  }

  predicate SlotOk(s: State, k: Kind) {
    var slot := s.slots[k];
    && slot.value == (if slot.made == [] then NULL else slot.made[0].handle)
    && |slot.made| <= 1
    && (slot.word == NOT_INITIALIZED || slot.word == BEING_INITIALIZED || slot.word == INITIALIZED)
    && (slot.word == NOT_INITIALIZED ==> slot.entered == [] && slot.made == [] && slot.error == CL_SUCCESS)
    && (slot.word != NOT_INITIALIZED ==> |slot.entered| == 1 && slot.entered[0] < |s.threads|)
    && (slot.word == BEING_INITIALIZED ==> InCreation(s.threads[slot.entered[0]].pcs[k]))
    && (slot.word == INITIALIZED ==> Resolved(s, k, slot.error))
    && (k == QUEUE && slot.made != [] ==>
          s.slots[CTX].word == INITIALIZED && s.slots[CTX].error == CL_SUCCESS
          && slot.made[0].from == s.slots[CTX].value)
  }

  predicate Held(slot: Slot, i: nat) {
    slot.word == BEING_INITIALIZED && slot.entered == [i]
  }

  predicate FrameOk(s: State, i: nat, k: Kind)
    requires i < |s.threads|
  {
    var slot := s.slots[k];
    var t := s.threads[i];
    match t.pcs[k]
    case Absent => true
    case Cas => true
    case Spin => slot.word != NOT_INITIALIZED
    case LoadError => slot.word == INITIALIZED
    case LoadValue(seen) => slot.word == INITIALIZED && (seen.Some? ==> seen.value == slot.error)
    case Create => Held(slot, i) && slot.made == []
    case Await => Held(slot, i) && slot.made == [] && k == QUEUE && t.pcs[CTX] != Absent
    case MakeQueue(ctx, ctxError) =>
      && Held(slot, i) && slot.made == [] && k == QUEUE
      && s.slots[CTX].word == INITIALIZED && s.slots[CTX].value == ctx && s.slots[CTX].error == ctxError
    case StoreError(code) => Held(slot, i) && Resolved(s, k, code)
    case StoreWord => Held(slot, i) && Resolved(s, k, slot.error)
  }

  predicate ThreadOk(s: State, i: nat)
    requires i < |s.threads|
  {
    var pcs := s.threads[i].pcs;
    && FrameOk(s, i, CTX) && FrameOk(s, i, QUEUE)
    && (pcs[CTX] != Absent && pcs[QUEUE] != Absent ==> pcs[QUEUE] == Await)
    && (pcs[QUEUE] == Await && pcs[CTX].LoadValue? ==> pcs[CTX].seen.Some?)
  }

  /** A returned pair is the pair stored in the slot. */
  predicate ReturnOk(s: State, r: Return) {
    var slot := s.slots[r.kind];
    slot.word == INITIALIZED && r.value == slot.value && (r.error.Some? ==> r.error.value == slot.error)
  }

  ghost predicate Inv(s: State) {
    && SlotOk(s, CTX) && SlotOk(s, QUEUE)
    && (forall i :: 0 <= i < |s.threads| ==> ThreadOk(s, i))
    && (forall r :: r in s.log ==> ReturnOk(s, r))
  }

  lemma InitInv(calls: seq<seq<Call>>)
    ensures Inv(Init(NOT_INITIALIZED, calls))
  {
  }

  lemma BeginInv(s: State, i: nat)
    requires Inv(s) && i < |s.threads| && Top(s.threads[i]) == 2 && s.threads[i].todo != []
    ensures Inv(Begin(s, i))
  {
    var s' := Begin(s, i);
    assert ThreadOk(s, i);
    forall j | 0 <= j < |s'.threads|
      ensures ThreadOk(s', j)
    {
      assert ThreadOk(s, j);
    }
  }

  predicate SlotMove(old': Slot, new': Slot, i: nat) {
    || new' == old'
    || (old'.word == NOT_INITIALIZED && Held(new', i))
    || (Held(old', i) && (Held(new', i) || new'.word == INITIALIZED))
  }

  /** What one active step may do to the shared state: leave a published slot alone, and change an
      unpublished one only on behalf of the thread that holds it or is just acquiring it. */
  predicate Fair(s: State, s': State, i: nat) {
    && |s'.threads| == |s.threads|
    && (forall j :: 0 <= j < |s.threads| && j != i ==> s'.threads[j] == s.threads[j])
    && SlotMove(s.slots[CTX], s'.slots[CTX], i) && SlotMove(s.slots[QUEUE], s'.slots[QUEUE], i)
  }

  lemma StepActiveFair(s: State, i: nat, k: Kind, handle: int, error: int)
    requires Inv(s) && i < |s.threads| && Top(s.threads[i]) == k
    ensures Fair(s, StepActive(s, i, k, handle, error), i)
  {
    assert ThreadOk(s, i);
  }

  lemma FairKeepsLog(s: State, s': State, i: nat, r: Return)
    requires Fair(s, s', i) && ReturnOk(s, r)
    ensures ReturnOk(s', r)
  {
  }

  lemma StepLog(s: State, i: nat, k: Kind, handle: int, error: int)
    requires Inv(s) && i < |s.threads| && Top(s.threads[i]) == k
    ensures forall r :: r in StepActive(s, i, k, handle, error).log
              ==> ReturnOk(StepActive(s, i, k, handle, error), r)
  {
    var s' := StepActive(s, i, k, handle, error);
    StepActiveFair(s, i, k, handle, error);
    assert ThreadOk(s, i);
    forall r | r in s'.log
      ensures ReturnOk(s', r)
    {
      if r in s.log {
        FairKeepsLog(s, s', i, r);
      }
    }
  }

  lemma FairKeepsFrame(s: State, s': State, i: nat, j: nat, k: Kind)
    requires Inv(s) && Fair(s, s', i) && j < |s.threads| && j != i
    ensures FrameOk(s', j, k)
  {
    assert ThreadOk(s, j);
    assert FrameOk(s, j, k);
  }

  lemma FairKeepsOthers(s: State, s': State, i: nat, j: nat)
    requires Inv(s) && Fair(s, s', i) && j < |s.threads| && j != i
    ensures ThreadOk(s', j)
  {
    assert ThreadOk(s, j);
    FairKeepsFrame(s, s', i, j, CTX);
    FairKeepsFrame(s, s', i, j, QUEUE);
  }

  lemma StepOwnFrame(s: State, i: nat, k: Kind, handle: int, error: int, f: Kind)
    requires i < |s.threads| && Top(s.threads[i]) == k && ThreadOk(s, i)
    requires SlotOk(s, CTX) && SlotOk(s, QUEUE)
    ensures FrameOk(StepActive(s, i, k, handle, error), i, f)
  {
    assert FrameOk(s, i, k) && FrameOk(s, i, f);
  }

  lemma StepOwn(s: State, i: nat, k: Kind, handle: int, error: int)
    requires Inv(s) && i < |s.threads| && Top(s.threads[i]) == k
    ensures ThreadOk(StepActive(s, i, k, handle, error), i)
  {
    assert ThreadOk(s, i) && SlotOk(s, CTX) && SlotOk(s, QUEUE);
    StepOwnFrame(s, i, k, handle, error, CTX);
    StepOwnFrame(s, i, k, handle, error, QUEUE);
  }

  lemma StepOwnSlot(s: State, i: nat, k: Kind, handle: int, error: int)
    requires i < |s.threads| && Top(s.threads[i]) == k && ThreadOk(s, i)
    requires SlotOk(s, CTX) && SlotOk(s, QUEUE)
    ensures SlotOk(StepActive(s, i, k, handle, error), k)
  {
    assert FrameOk(s, i, k) && SlotOk(s, k);
  }

  lemma StepOtherSlot(s: State, i: nat, k: Kind, handle: int, error: int)
    requires Inv(s) && i < |s.threads| && Top(s.threads[i]) == k
    ensures SlotOk(StepActive(s, i, k, handle, error), 1 - k)
  {
    assert ThreadOk(s, i);
    StepActiveFair(s, i, k, handle, error);
    var s' := StepActive(s, i, k, handle, error);
    assert s'.slots[1 - k] == s.slots[1 - k];
    assert SlotOk(s, 1 - k);
  }

  lemma FairKeepsInv(s: State, s': State, i: nat)
    requires Inv(s) && i < |s.threads| && Fair(s, s', i) && ThreadOk(s', i) && SlotOk(s', CTX) && SlotOk(s', QUEUE)
    requires forall r :: r in s'.log ==> ReturnOk(s', r)
    ensures Inv(s')
  {
    forall j | 0 <= j < |s'.threads|
      ensures ThreadOk(s', j)
    {
      if j != i {
        FairKeepsOthers(s, s', i, j);
      }
    }
  }

  lemma StepActiveInv(s: State, i: nat, k: Kind, handle: int, error: int)
    requires Inv(s) && i < |s.threads| && Top(s.threads[i]) == k
    ensures Inv(StepActive(s, i, k, handle, error))
  {
    StepActiveFair(s, i, k, handle, error);
    StepOwn(s, i, k, handle, error);
    assert ThreadOk(s, i) && SlotOk(s, CTX) && SlotOk(s, QUEUE);
    StepOwnSlot(s, i, k, handle, error);
    StepOtherSlot(s, i, k, handle, error);
    StepLog(s, i, k, handle, error);
    FairKeepsInv(s, StepActive(s, i, k, handle, error), i);
  }

  lemma StepInv(s: State, c: Choice)
    requires Inv(s)
    ensures Inv(Step(s, c))
  {
    if c.tid < |s.threads| {
      var t := s.threads[c.tid];
      assert ThreadOk(s, c.tid);
      if Top(t) < 2 {
        StepActiveInv(s, c.tid, Top(t), c.handle, c.error);
      } else if t.todo != [] {
        BeginInv(s, c.tid);
      }
    }
  }
}
