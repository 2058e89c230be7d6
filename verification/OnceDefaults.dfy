/**
The four defaults of CL/cl2.hpp (platform, context, device, command queue), each guarded by a
`std::once_flag`, under any interleaving of `getDefault` and `setDefault` by any number of threads.

`std::call_once` is taken at its word: the first caller of a flag runs its initialiser, callers
that arrive meanwhile block, and later callers pass.  Each step performs at most one access to a
flag, a `default_` or a `default_error_`; the answers of the runtime are part of the choice that
drives the step.  Exceptions are disabled.
*/
module OnceDefaults {
  import opened Prelude
  import opened Fairness

  const PLATFORM: nat := 0

  const CONTEXT: nat := 1

  const DEVICE: nat := 2

  const QUEUE: nat := 3

  /** The rank of a default in the nesting order of the initialisers. */
  type Kind = k: nat | k < 4

  datatype Op = Get | Set(given: int)

  datatype Call = Call(kind: Kind, op: Op)

  datatype Flag = Fresh | Running(owner: nat) | Done

  /** What the one initialiser that ran decided to store, and from which objects it was built. */
  datatype Install = Install(value: int, error: int, given: bool, parent: int, device: int)

  /** `flag`, `value` and `error` are the static members; `entered` and `installs` are history. */
  datatype Slot = Slot(flag: Flag, value: int, error: int, entered: seq<nat>, installs: seq<Install>)

  datatype Store = StoreValue(v: int) | StoreError(e: int)

  datatype Pc =
    | Absent                          // no activation
    | Enter(op: Op)                   // at call_once
    | Begin                           // first statement of makeDefault
    | Await                           // inside the first nested getDefault
    | Got(value: int, error: int)     // the first nested getDefault has returned
    | AwaitDevice(ctx: int)           // queue only: inside Device::getDefault
    | GotDevice(ctx: int, dev: int)   // queue only: Device::getDefault has returned
    | Store2(first: Store, last: Store) // two writes left before call_once completes
    | Store1(last: Store)             // one write left
    | Publish                         // call_once is about to complete
    | LoadError
    | LoadValue(seen: int)

  type Pcs = p: seq<Pc> | |p| == 4 witness [Absent, Absent, Absent, Absent]

  type Slots = s: seq<Slot> | |s| == 4 witness seq(4, i => Slot(Fresh, 0, 0, [], []))

  datatype Thread = Thread(todo: seq<Call>, pcs: Pcs)

  datatype Return = Return(tid: nat, kind: Kind, value: int, error: int)

  datatype State = State(slots: Slots, threads: seq<Thread>, log: seq<Return>)

  datatype Choice = Choice(tid: nat, handle: int, error: int)

  // ---------------------------------------------------------------- one step

  /** The innermost activation: nested calls only go to lower kinds. */
  function Top(t: Thread): nat {
    if t.pcs[0] != Absent then 0 else if t.pcs[1] != Absent then 1
    else if t.pcs[2] != Absent then 2 else if t.pcs[3] != Absent then 3 else 4
  }

  /** The activation that called activation `k`, or 4 when the program itself did. */
  function Caller(t: Thread, k: Kind): nat {
    if k < 1 && t.pcs[1] != Absent then 1 else if k < 2 && t.pcs[2] != Absent then 2
    else if k < 3 && t.pcs[3] != Absent then 3 else 4
  }

  function Put(s: State, i: nat, k: Kind, slot: Slot, pc: Pc): State
    requires i < |s.threads|
  {
    var t := s.threads[i];
    s.(slots := s.slots[k := slot], threads := s.threads[i := t.(pcs := t.pcs[k := pc])])
  }

  /** Suspends activation `k` at `pc` and calls getDefault of the lower kind `callee`. */
  function Nest(s: State, i: nat, k: Kind, pc: Pc, callee: Kind): State
    requires i < |s.threads|
  {
    var t := s.threads[i];
    s.(threads := s.threads[i := t.(pcs := t.pcs[k := pc][callee := Enter(Get)])])
  }

  function Apply(slot: Slot, w: Store): Slot {
    match w
    case StoreValue(v) => slot.(value := v)
    case StoreError(e) => slot.(error := e)
  }

  function Finish(s: State, i: nat, k: Kind, seen: int): State
    requires i < |s.threads|
  {
    var t := s.threads[i];
    var value := s.slots[k].value;
    var caller := Caller(t, k);
    if caller < 4 then
      var pc := match t.pcs[caller]
                case AwaitDevice(ctx) => GotDevice(ctx, value)
                case _ => Got(value, seen);
      s.(threads := s.threads[i := t.(pcs := t.pcs[k := Absent][caller := pc])])
    else
      s.(threads := s.threads[i := t.(pcs := t.pcs[k := Absent])], log := s.log + [Return(i, k, value, seen)])
  }

  /** The activation is about to call the getDefault of another kind. */
  predicate Calls(k: Kind, pc: Pc) {
    (pc.Begin? && k != PLATFORM) || (pc.Got? && k == QUEUE && pc.error == CL_SUCCESS)
  }

  function Decide(slot: Slot, what: Install, writes: Pc): (Slot, Pc) {
    (slot.(installs := slot.installs + [what]), writes)
  }

  /** A step that touches only its own slot: the slot and program counter after it.  A blocked
      caller of call_once changes neither. */
  function Local(slot: Slot, pc: Pc, i: nat, k: Kind, handle: int, error: int): (Slot, Pc)
    requires !Calls(k, pc)
  {
    match pc
    case Enter(op) =>
      (match slot.flag
       case Done => (slot, LoadError)
       case Running(_) => (slot, pc)
       case Fresh =>
         var held := slot.(flag := Running(i), entered := slot.entered + [i]);
         match op
         case Get => (held, Begin)
         case Set(v) => Decide(held, Install(v, CL_SUCCESS, true, NULL, NULL), Store1(StoreValue(v))))
    case Begin =>
      if error != CL_SUCCESS then Decide(slot, Install(NULL, error, false, NULL, NULL), Store1(StoreError(error)))
      else Decide(slot, Install(handle, CL_SUCCESS, false, NULL, NULL), Store1(StoreValue(handle)))
    case Got(v, e) =>
      // A context is created whatever the platform's error code is.
      if k == CONTEXT then
        Decide(slot, Install(handle, error, false, v, NULL), Store2(StoreError(error), StoreValue(handle)))
      else if e != CL_SUCCESS then Decide(slot, Install(NULL, e, false, v, NULL), Store1(StoreError(e)))
      else Decide(slot, Install(handle, CL_SUCCESS, false, v, NULL), Store2(StoreValue(handle), StoreError(CL_SUCCESS)))
    case GotDevice(ctx, dev) =>
      // A queue is created whatever the device's error code is.
      Decide(slot, Install(handle, error, false, ctx, dev), Store2(StoreError(error), StoreValue(handle)))
    case Store2(first, last) => (Apply(slot, first), Store1(last))
    case Store1(last) => (Apply(slot, last), Publish)
    case Publish => (slot.(flag := Done), LoadError)
    case LoadError => (slot, LoadValue(slot.error))
    case _ => (slot, pc)
  }

  /** The default whose getDefault an activation of `k` stopped at `pc` is waiting for. */
  function Callee(k: Kind, pc: Pc): Kind {
    if pc.AwaitDevice? then DEVICE else if k == CONTEXT then PLATFORM else CONTEXT
  }

  function StepActive(s: State, i: nat, k: Kind, handle: int, error: int): State
    requires i < |s.threads|
  {
    var pc := s.threads[i].pcs[k];
    if pc.LoadValue? then Finish(s, i, k, pc.seen)
    else if pc.Begin? && k != PLATFORM then Nest(s, i, k, Await, Callee(k, Await))
    else if Calls(k, pc) then Nest(s, i, k, AwaitDevice(pc.value), DEVICE)
    else
      var (slot', pc') := Local(s.slots[k], pc, i, k, handle, error);
      Put(s, i, k, slot', pc')
  }

  function Step(s: State, c: Choice): State {
    if c.tid >= |s.threads| then s
    else
      var t := s.threads[c.tid];
      if Top(t) < 4 then StepActive(s, c.tid, Top(t), c.handle, c.error)
      else if t.todo != [] then
        s.(threads := s.threads[c.tid := Thread(t.todo[1..], t.pcs[t.todo[0].kind := Enter(t.todo[0].op)])])
      else s
  }

  function Run(s: State, schedule: seq<Choice>): State {
    Fold(Step, s, schedule)
  }

  function Init(calls: seq<seq<Call>>): State {
    var empty := Slot(Fresh, NULL, CL_SUCCESS, [], []);
    State([empty, empty, empty, empty],
          seq(|calls|, i requires 0 <= i < |calls| => Thread(calls[i], [Absent, Absent, Absent, Absent])),
          [])
  }

  // ---------------------------------------------------------------- the invariant

  predicate Waiting(pc: Pc) {
    pc.Await? || pc.AwaitDevice?
  }

  predicate InInitialiser(pc: Pc) {
    pc.Begin? || pc.Got? || pc.GotDevice? || pc.Store2? || pc.Store1? || pc.Publish? || Waiting(pc)
  }

  predicate IsFinal(s: State, k: Kind, value: int, error: int) {
    s.slots[k].flag == Done && s.slots[k].value == value && s.slots[k].error == error
  }

  /** Where a stored default came from, checked against the current values of the other defaults. */
  predicate Provenance(s: State, k: Kind, what: Install) {
    if what.given then what.error == CL_SUCCESS
    else if k == CONTEXT then s.slots[PLATFORM].flag == Done && what.parent == s.slots[PLATFORM].value
    else if k == DEVICE then IsFinal(s, CONTEXT, what.parent, what.error)
    else if k == QUEUE then
      && s.slots[CONTEXT].flag == Done && what.parent == s.slots[CONTEXT].value
      && (if s.slots[CONTEXT].error != CL_SUCCESS then
            what.value == NULL && what.error == s.slots[CONTEXT].error
          else IsFinal(s, DEVICE, what.device, CL_SUCCESS))
    else what.error != CL_SUCCESS ==> what.value == NULL
  }

  predicate SlotOk(s: State, k: Kind) {
    var slot := s.slots[k];
    && |slot.installs| <= 1
    && (slot.installs == [] ==> slot.value == NULL && slot.error == CL_SUCCESS)
    && (slot.installs != [] ==> Provenance(s, k, slot.installs[0]))
    && (match slot.flag
        case Fresh => slot.entered == [] && slot.installs == []
        case Running(o) => slot.entered == [o] && o < |s.threads| && InInitialiser(s.threads[o].pcs[k])
        case Done =>
          && |slot.entered| == 1 && slot.entered[0] < |s.threads|
          && slot.installs != []
          && slot.value == slot.installs[0].value && slot.error == slot.installs[0].error)
  }

  predicate Held(slot: Slot, i: nat) {
    slot.flag == Running(i)
  }

  /** `then'` holds the pair its initialiser decided on. */
  predicate Settles(slot: Slot, then': Slot) {
    slot.installs != [] && then'.value == slot.installs[0].value && then'.error == slot.installs[0].error
  }

  predicate FrameOk(s: State, i: nat, k: Kind)
    requires i < |s.threads|
  {
    var slot := s.slots[k];
    var pcs := s.threads[i].pcs;
    match pcs[k]
    case Absent => true
    case Enter(_) => true
    case Begin => Held(slot, i) && slot.installs == []
    case Await => Held(slot, i) && slot.installs == [] && k != PLATFORM
    case Got(v, e) => Held(slot, i) && slot.installs == [] && k != PLATFORM && IsFinal(s, Callee(k, Await), v, e)
    case AwaitDevice(ctx) =>
      Held(slot, i) && slot.installs == [] && k == QUEUE && IsFinal(s, CONTEXT, ctx, CL_SUCCESS)
    case GotDevice(ctx, dev) =>
      && Held(slot, i) && slot.installs == [] && k == QUEUE
      && IsFinal(s, CONTEXT, ctx, CL_SUCCESS) && IsFinal(s, DEVICE, dev, CL_SUCCESS)
    case Store2(first, last) => Held(slot, i) && Settles(slot, Apply(Apply(slot, first), last))
    case Store1(last) => Held(slot, i) && Settles(slot, Apply(slot, last))
    case Publish => Held(slot, i) && Settles(slot, slot)
    case LoadError => slot.flag == Done
    case LoadValue(seen) => slot.flag == Done && seen == slot.error
  }

  /** A suspended activation waits for exactly the next active one below it. */
  predicate Nested(pcs: Pcs, k: Kind) {
    && (Waiting(pcs[k]) ==> Callee(k, pcs[k]) < k && pcs[Callee(k, pcs[k])] != Absent
                            && (forall m :: Callee(k, pcs[k]) < m < k ==> pcs[m] == Absent))
    && (pcs[k] != Absent && (exists m :: 0 <= m < k && pcs[m] != Absent) ==> Waiting(pcs[k]))
  }

  predicate ThreadOk(s: State, i: nat)
    requires i < |s.threads|
  {
    forall k: Kind :: FrameOk(s, i, k) && Nested(s.threads[i].pcs, k)
  }

  predicate ReturnOk(s: State, r: Return) {
    IsFinal(s, r.kind, r.value, r.error)
  }

  ghost predicate Inv(s: State) {
    && (forall k: Kind :: SlotOk(s, k))
    && (forall i :: 0 <= i < |s.threads| ==> ThreadOk(s, i))
    && (forall r :: r in s.log ==> ReturnOk(s, r))
  }

  lemma InitInv(calls: seq<seq<Call>>)
    ensures Inv(Init(calls))
  {
  }

  predicate SlotMove(old': Slot, new': Slot, i: nat) {
    || new' == old'
    || (old'.flag == Fresh && Held(new', i))
    || (Held(old', i) && (Held(new', i) || new'.flag == Done))
  }

  /** One step of thread `i` writes a slot only while it holds or is acquiring its flag. */
  ghost predicate Fair(s: State, s': State, i: nat) {
    && |s'.threads| == |s.threads|
    && (forall j :: 0 <= j < |s.threads| && j != i ==> s'.threads[j] == s.threads[j])
    && (forall k: Kind :: SlotMove(s.slots[k], s'.slots[k], i))
  }

  lemma FairKeepsProvenance(s: State, s': State, i: nat, k: Kind, what: Install)
    requires Fair(s, s', i) && Provenance(s, k, what)
    ensures Provenance(s', k, what)
  {
  }

  lemma FairKeepsSlot(s: State, s': State, i: nat, k: Kind)
    requires Fair(s, s', i) && SlotOk(s, k) && s'.slots[k] == s.slots[k] && i < |s.threads|
    requires s'.threads[i].pcs[k] == s.threads[i].pcs[k] || InInitialiser(s'.threads[i].pcs[k])
    ensures SlotOk(s', k)
  {
    if s.slots[k].installs != [] {
      FairKeepsProvenance(s, s', i, k, s.slots[k].installs[0]);
    }
  }

  /** A frame that did not move stays good, unless it is the mover's own frame on a changed slot. */
  lemma FairKeepsFrame(s: State, s': State, i: nat, j: nat, k: Kind)
    requires Fair(s, s', i) && j < |s.threads| && FrameOk(s, j, k)
    requires s'.threads[j].pcs[k] == s.threads[j].pcs[k]
    requires j != i || s'.slots[k] == s.slots[k]
    ensures FrameOk(s', j, k)
  {
  }

  lemma FairKeepsLog(s: State, s': State, i: nat)
    requires Fair(s, s', i) && Inv(s) && s'.log == s.log
    ensures forall r :: r in s'.log ==> ReturnOk(s', r)
  {
    forall r | r in s'.log
      ensures ReturnOk(s', r)
    {
      assert ReturnOk(s, r);
    }
  }

  lemma FairKeepsOthers(s: State, s': State, i: nat)
    requires Fair(s, s', i) && Inv(s)
    ensures forall j :: 0 <= j < |s'.threads| && j != i ==> ThreadOk(s', j)
  {
    forall j, k: Kind | 0 <= j < |s'.threads| && j != i
      ensures FrameOk(s', j, k) && Nested(s'.threads[j].pcs, k)
    {
      assert ThreadOk(s, j) && FrameOk(s, j, k) && Nested(s.threads[j].pcs, k);
      FairKeepsFrame(s, s', i, j, k);
    }
  }

  predicate IsLocal(k: Kind, pc: Pc) {
    !Calls(k, pc) && !pc.LoadValue? && !Waiting(pc)
  }

  lemma LocalFrame(s: State, i: nat, k: Kind, handle: int, error: int)
    requires i < |s.threads| && FrameOk(s, i, k) && SlotOk(s, k) && IsLocal(k, s.threads[i].pcs[k])
    ensures FrameOk(StepActive(s, i, k, handle, error), i, k)
    ensures SlotMove(s.slots[k], StepActive(s, i, k, handle, error).slots[k], i)
  {
  }

  lemma LocalSlot(s: State, i: nat, k: Kind, handle: int, error: int)
    requires i < |s.threads| && FrameOk(s, i, k) && SlotOk(s, k) && IsLocal(k, s.threads[i].pcs[k])
    ensures SlotOk(StepActive(s, i, k, handle, error), k)
  {
    match s.threads[i].pcs[k]
    case Got(v, e) =>
    case GotDevice(_, _) =>
    case Begin =>
    case _ =>
  }

  lemma LocalPc(s: State, i: nat, k: Kind, handle: int, error: int)
    requires i < |s.threads| && s.threads[i].pcs[k] != Absent && IsLocal(k, s.threads[i].pcs[k])
    ensures var s' := StepActive(s, i, k, handle, error);
            && s'.threads[i].pcs[k] != Absent && !Waiting(s'.threads[i].pcs[k])
            && s'.threads[i].pcs == s.threads[i].pcs[k := s'.threads[i].pcs[k]]
            && s'.log == s.log
  {
  }

  lemma LocalNested(pcs: Pcs, k: Kind, pc: Pc, f: Kind)
    requires Nested(pcs, f) && pcs[k] != Absent && pc != Absent && !Waiting(pc)
    requires forall m :: 0 <= m < k ==> pcs[m] == Absent
    ensures Nested(pcs[k := pc], f)
  {
  }

  lemma LocalInv(s: State, i: nat, k: Kind, handle: int, error: int)
    requires Inv(s) && i < |s.threads| && Top(s.threads[i]) == k && IsLocal(k, s.threads[i].pcs[k])
    ensures Inv(StepActive(s, i, k, handle, error)) && Fair(s, StepActive(s, i, k, handle, error), i)
  {
    var s' := StepActive(s, i, k, handle, error);
    assert ThreadOk(s, i) && FrameOk(s, i, k) && SlotOk(s, k);
    LocalFrame(s, i, k, handle, error);
    LocalSlot(s, i, k, handle, error);
    LocalPc(s, i, k, handle, error);
    assert Fair(s, s', i);
    forall f: Kind
      ensures SlotOk(s', f) && FrameOk(s', i, f) && Nested(s'.threads[i].pcs, f)
    {
      assert SlotOk(s, f) && FrameOk(s, i, f) && Nested(s.threads[i].pcs, f);
      if f != k {
        FairKeepsSlot(s, s', i, f);
        FairKeepsFrame(s, s', i, i, f);
      }
      LocalNested(s.threads[i].pcs, k, s'.threads[i].pcs[k], f);
    }
    assert ThreadOk(s', i);
    FairKeepsOthers(s, s', i);
    FairKeepsLog(s, s', i);
  }

  /** The callee was not active, so it is not the owner's initialiser of its slot. */
  lemma NestSlot(s: State, i: nat, k: Kind, handle: int, error: int, f: Kind)
    requires Inv(s) && i < |s.threads| && Top(s.threads[i]) == k && Calls(k, s.threads[i].pcs[k])
    ensures SlotOk(StepActive(s, i, k, handle, error), f)
  {
    var s' := StepActive(s, i, k, handle, error);
    assert SlotOk(s, f) && Fair(s, s', i);
    if s.slots[f].installs != [] {
      FairKeepsProvenance(s, s', i, f, s.slots[f].installs[0]);
    }
  }

  lemma NestInv(s: State, i: nat, k: Kind, handle: int, error: int)
    requires Inv(s) && i < |s.threads| && Top(s.threads[i]) == k && Calls(k, s.threads[i].pcs[k])
    ensures Inv(StepActive(s, i, k, handle, error)) && Fair(s, StepActive(s, i, k, handle, error), i)
  {
    var s' := StepActive(s, i, k, handle, error);
    assert ThreadOk(s, i) && FrameOk(s, i, k) && SlotOk(s, k);
    assert Fair(s, s', i);
    forall f: Kind
      ensures SlotOk(s', f) && FrameOk(s', i, f) && Nested(s'.threads[i].pcs, f)
    {
      assert SlotOk(s, f) && FrameOk(s, i, f) && Nested(s.threads[i].pcs, f);
      assert Top(s.threads[i]) <= f || s.threads[i].pcs[f] == Absent;
      NestSlot(s, i, k, handle, error, f);
      if s'.threads[i].pcs[f] == s.threads[i].pcs[f] {
        FairKeepsFrame(s, s', i, i, f);
      }
    }
    assert ThreadOk(s', i);
    FairKeepsOthers(s, s', i);
    FairKeepsLog(s, s', i);
  }

  /** The activation resumed by a return was waiting for exactly this default. */
  lemma FinishCaller(s: State, i: nat, k: Kind, f: Kind)
    requires Inv(s) && i < |s.threads| && Top(s.threads[i]) == k && s.threads[i].pcs[k].LoadValue?
    ensures var s' := StepActive(s, i, k, 0, 0);
            s'.threads[i].pcs[f] != s.threads[i].pcs[f] ==>
              FrameOk(s', i, f) && (f != k ==> InInitialiser(s'.threads[i].pcs[f]))
  {
    var t := s.threads[i];
    assert ThreadOk(s, i) && FrameOk(s, i, k) && FrameOk(s, i, f) && Nested(t.pcs, f) && Nested(t.pcs, k);
    if f == Caller(t, k) {
      assert Waiting(t.pcs[f]) && Callee(f, t.pcs[f]) == k;
      if t.pcs[f].AwaitDevice? {
        assert SlotOk(s, DEVICE) && SlotOk(s, CONTEXT);
      }
    }
  }

  lemma FinishNested(s: State, i: nat, k: Kind, f: Kind)
    requires Inv(s) && i < |s.threads| && Top(s.threads[i]) == k && s.threads[i].pcs[k].LoadValue?
    ensures Nested(StepActive(s, i, k, 0, 0).threads[i].pcs, f)
  {
    var t := s.threads[i];
    assert ThreadOk(s, i) && Nested(t.pcs, f) && Nested(t.pcs, k);
    if Caller(t, k) < 4 {
      assert Nested(t.pcs, Caller(t, k));
    }
  }

  lemma FinishInv(s: State, i: nat, k: Kind)
    requires Inv(s) && i < |s.threads| && Top(s.threads[i]) == k && s.threads[i].pcs[k].LoadValue?
    ensures Inv(StepActive(s, i, k, 0, 0)) && Fair(s, StepActive(s, i, k, 0, 0), i)
  {
    var s' := StepActive(s, i, k, 0, 0);
    assert ThreadOk(s, i) && FrameOk(s, i, k) && SlotOk(s, k);
    assert Fair(s, s', i);
    forall f: Kind
      ensures SlotOk(s', f) && FrameOk(s', i, f) && Nested(s'.threads[i].pcs, f)
    {
      assert SlotOk(s, f) && FrameOk(s, i, f) && Nested(s.threads[i].pcs, f);
      FinishCaller(s, i, k, f);
      if s'.threads[i].pcs[f] == s.threads[i].pcs[f] {
        FairKeepsFrame(s, s', i, i, f);
      }
      if f != k {
        FairKeepsSlot(s, s', i, f);
      }
      FinishNested(s, i, k, f);
    }
    assert ThreadOk(s', i);
    FairKeepsOthers(s, s', i);
    forall r | r in s'.log
      ensures ReturnOk(s', r)
    {
      if r in s.log {
        assert ReturnOk(s, r);
      }
    }
  }

  lemma StepActiveInv(s: State, i: nat, k: Kind, handle: int, error: int)
    requires Inv(s) && i < |s.threads| && Top(s.threads[i]) == k
    ensures Inv(StepActive(s, i, k, handle, error)) && Fair(s, StepActive(s, i, k, handle, error), i)
    ensures s.log <= StepActive(s, i, k, handle, error).log
  {
    var pc := s.threads[i].pcs[k];
    assert ThreadOk(s, i) && FrameOk(s, i, k) && Nested(s.threads[i].pcs, k);
    if pc.LoadValue? {
      FinishInv(s, i, k);
    } else if Calls(k, pc) {
      NestInv(s, i, k, handle, error);
    } else {
      LocalInv(s, i, k, handle, error);
    }
  }

  lemma CallInv(s: State, c: Choice)
    requires Inv(s) && c.tid < |s.threads| && Top(s.threads[c.tid]) == 4 && s.threads[c.tid].todo != []
    ensures Inv(Step(s, c))
  {
    var s' := Step(s, c);
    assert Fair(s, s', c.tid);
    assert ThreadOk(s, c.tid);
    forall f: Kind
      ensures SlotOk(s', f) && FrameOk(s', c.tid, f) && Nested(s'.threads[c.tid].pcs, f)
    {
      assert SlotOk(s, f) && FrameOk(s, c.tid, f) && Nested(s.threads[c.tid].pcs, f);
    }
    assert ThreadOk(s', c.tid);
    FairKeepsOthers(s, s', c.tid);
    FairKeepsLog(s, s', c.tid);
  }

  lemma StepInv(s: State, c: Choice)
    requires Inv(s)
    ensures Inv(Step(s, c))
    ensures forall k: Kind :: s.slots[k].flag == Done ==> Step(s, c).slots[k] == s.slots[k]
    ensures s.log <= Step(s, c).log
  {
    if c.tid < |s.threads| {
      var t := s.threads[c.tid];
      if Top(t) < 4 {
        StepActiveInv(s, c.tid, Top(t), c.handle, c.error);
      } else if t.todo != [] {
        CallInv(s, c);
      }
    }
  }

  // ---------------------------------------------------------------- safety of every run

  lemma {:induction false} RunInv(calls: seq<seq<Call>>, schedule: seq<Choice>)
    ensures Inv(Run(Init(calls), schedule))
  {
    if schedule == [] {
      InitInv(calls);
    } else {
      RunInv(calls, schedule[..|schedule| - 1]);
      StepInv(Run(Init(calls), schedule[..|schedule| - 1]), schedule[|schedule| - 1]);
    }
  }

  /** Once call_once has completed, that default never changes again. */
  lemma {:induction false} DoneIsFrozen(calls: seq<seq<Call>>, past: seq<Choice>, future: seq<Choice>, k: Kind)
    ensures var s := Run(Init(calls), past);
            var s' := Run(Init(calls), past + future);
            (s.slots[k].flag == Done ==> s'.slots[k] == s.slots[k]) && s.log <= s'.log
  {
    if future == [] {
      assert past + future == past;
    } else {
      var n := |future| - 1;
      DoneIsFrozen(calls, past, future[..n], k);
      assert (past + future)[..|past + future| - 1] == past + future[..n];
      RunInv(calls, past + future[..n]);
      StepInv(Run(Init(calls), past + future[..n]), future[n]);
    }
  }

  /** The first installer wins.  In every run, for each of the four defaults, one thread at most runs
      an initialiser; all calls, getDefault or setDefault, made then or later, return one and the same
      pair; it is the pair that initialiser decided on, so if it was a setDefault, its argument with
      no error.  A later setDefault therefore learns from the returned value that it came too late. */
  lemma FirstInstallerWins(calls: seq<seq<Call>>, past: seq<Choice>, future: seq<Choice>, k: Kind)
    ensures var s := Run(Init(calls), past);
            var s' := Run(Init(calls), past + future);
            && |s'.slots[k].entered| <= 1 && |s'.slots[k].installs| <= 1
            && (forall r :: r in s.log ==> r in s'.log)
            && (forall r :: r in s'.log && r.kind == k ==>
                  s'.slots[k].installs != [] && r.value == s'.slots[k].installs[0].value
                  && r.error == s'.slots[k].installs[0].error)
            && (s.slots[k].flag == Done ==> s'.slots[k] == s.slots[k])
            && (s'.slots[k].installs != [] && s'.slots[k].installs[0].given ==>
                  s'.slots[k].installs[0].error == CL_SUCCESS)
  {
    RunInv(calls, past);
    RunInv(calls, past + future);
    DoneIsFrozen(calls, past, future, k);
    assert SlotOk(Run(Init(calls), past + future), k);
    forall r | r in Run(Init(calls), past + future).log
      ensures ReturnOk(Run(Init(calls), past + future), r)
    {
    }
  }

  /** A default queue that was built, not given, was built from exactly the context and the device
      that every call to Context::getDefault and Device::getDefault returns from then on; and if it
      was built at all both carried no error, although the device's code is never examined. */
  lemma QueueUsesDefaults(calls: seq<seq<Call>>, past: seq<Choice>, future: seq<Choice>, r: Return)
    requires var q := Run(Init(calls), past).slots[QUEUE]; q.installs != [] && !q.installs[0].given
    requires r in Run(Init(calls), past + future).log && (r.kind == CONTEXT || r.kind == DEVICE)
    ensures var q := Run(Init(calls), past).slots[QUEUE].installs[0];
            if r.kind == CONTEXT then
              r.value == q.parent && (r.error != CL_SUCCESS ==> q.value == NULL && q.error == r.error)
            else
              Run(Init(calls), past).slots[CONTEXT].error == CL_SUCCESS ==>
                r.value == q.device && r.error == CL_SUCCESS
  {
    var s := Run(Init(calls), past);
    RunInv(calls, past);
    RunInv(calls, past + future);
    DoneIsFrozen(calls, past, future, r.kind);
    DoneIsFrozen(calls, past, future, CONTEXT);
    assert SlotOk(s, QUEUE) && Provenance(s, QUEUE, s.slots[QUEUE].installs[0]);
    assert ReturnOk(Run(Init(calls), past + future), r);
  }

  /** A device error can only be a context error handed on. */
  lemma DeviceErrorIsContextError(calls: seq<seq<Call>>, schedule: seq<Choice>)
    ensures var s := Run(Init(calls), schedule);
            s.slots[DEVICE].flag == Done && s.slots[DEVICE].error != CL_SUCCESS ==>
              s.slots[CONTEXT].flag == Done && s.slots[CONTEXT].error == s.slots[DEVICE].error
  {
    RunInv(calls, schedule);
    assert SlotOk(Run(Init(calls), schedule), DEVICE);
  }

  // ---------------------------------------------------------------- what was given was asked for

  /** Some thread's program contains this setDefault. */
  ghost predicate Asked(calls: seq<seq<Call>>, k: Kind, v: int) {
    exists i :: 0 <= i < |calls| && Call(k, Set(v)) in calls[i]
  }

  /** A setDefault that is pending in the thread comes from its program. */
  predicate ThreadTraced(t: Thread, program: seq<Call>) {
    && (forall c :: c in t.todo ==> c in program)
    && (forall k: Kind :: t.pcs[k].Enter? && t.pcs[k].op.Set? ==> Call(k, t.pcs[k].op) in program)
  }

  ghost predicate InstallsTraced(slot: Slot, k: Kind, calls: seq<seq<Call>>) {
    forall w :: w in slot.installs && w.given ==> Asked(calls, k, w.value)
  }

  ghost predicate Traced(s: State, calls: seq<seq<Call>>) {
    && |s.threads| == |calls|
    && (forall i :: 0 <= i < |calls| ==> ThreadTraced(s.threads[i], calls[i]))
    && (forall k: Kind :: InstallsTraced(s.slots[k], k, calls))
  }

  lemma ActiveThreadTraced(s: State, i: nat, k: Kind, handle: int, error: int, program: seq<Call>)
    requires i < |s.threads| && ThreadTraced(s.threads[i], program)
    ensures var s' := StepActive(s, i, k, handle, error);
            && ThreadTraced(s'.threads[i], program) && |s'.threads| == |s.threads|
            && (forall j :: 0 <= j < |s.threads| && j != i ==> s'.threads[j] == s.threads[j])
  {
  }

  lemma ActiveSlotTraced(s: State, i: nat, k: Kind, handle: int, error: int, calls: seq<seq<Call>>)
    requires i < |s.threads| && Traced(s, calls)
    ensures var s' := StepActive(s, i, k, handle, error);
            forall f: Kind :: InstallsTraced(s'.slots[f], f, calls)
  {
    var s' := StepActive(s, i, k, handle, error);
    var pc := s.threads[i].pcs[k];
    assert ThreadTraced(s.threads[i], calls[i]);
    assert forall f: Kind :: f != k ==> s'.slots[f] == s.slots[f];
    forall w | w in s'.slots[k].installs && w.given
      ensures Asked(calls, k, w.value)
    {
      if w !in s.slots[k].installs {
        assert pc == Enter(Set(w.value));
        assert Call(k, Set(w.value)) in calls[i];
      } else {
        assert InstallsTraced(s.slots[k], k, calls);
      }
    }
  }

  lemma StepTraced(s: State, c: Choice, calls: seq<seq<Call>>)
    requires Traced(s, calls)
    ensures Traced(Step(s, c), calls)
  {
    if c.tid < |s.threads| {
      var t := s.threads[c.tid];
      assert ThreadTraced(t, calls[c.tid]);
      if Top(t) < 4 {
        ActiveThreadTraced(s, c.tid, Top(t), c.handle, c.error, calls[c.tid]);
        ActiveSlotTraced(s, c.tid, Top(t), c.handle, c.error, calls);
      }
    }
  }

  /** A default that was given is an argument some thread passed to setDefault of that kind. */
  lemma {:induction false} GivenWasAsked(calls: seq<seq<Call>>, schedule: seq<Choice>)
    ensures Traced(Run(Init(calls), schedule), calls)
    ensures forall k: Kind, w :: w in Run(Init(calls), schedule).slots[k].installs && w.given ==>
              Asked(calls, k, w.value)
  {
    if schedule != [] {
      var n := |schedule| - 1;
      GivenWasAsked(calls, schedule[..n]);
      StepTraced(Run(Init(calls), schedule[..n]), schedule[n], calls);
    }
  }

  // ---------------------------------------------------------------- progress

  function EnterWeight(k: Kind): nat {
    if k == PLATFORM then 7 else if k == CONTEXT then 16 else if k == DEVICE then 25 else 52
  }

  /** Steps a thread may still take inside one activation, not counting the nested ones in progress. */
  function Weight(k: Kind, pc: Pc): nat {
    match pc
    case Absent => 0
    case LoadValue(_) => 1
    case LoadError => 2
    case Publish => 3
    case Store1(_) => 4
    case Store2(_, _) => 5
    case GotDevice(_, _) => 6
    case AwaitDevice(_) => 7
    case Got(_, _) => if k == QUEUE then 33 else 6
    case Await => if k == QUEUE then 34 else 7
    case Begin => EnterWeight(k) - 1
    case Enter(_) => EnterWeight(k)
  }

  function ThreadRank(t: Thread): nat {
    53 * |t.todo| + Weight(0, t.pcs[0]) + Weight(1, t.pcs[1]) + Weight(2, t.pcs[2]) + Weight(3, t.pcs[3])
  }

  function Rank(s: State): nat {
    SumOf(ThreadRank, s.threads)
  }

  predicate Finished(t: Thread) {
    t.todo == [] && Top(t) == 4
  }

  /** The thread sits at a call_once that another thread is executing. */
  predicate Blocked(s: State, i: nat)
    requires i < |s.threads|
  {
    var k := Top(s.threads[i]);
    k < 4 && s.threads[i].pcs[k].Enter? && s.slots[k].flag.Running?
  }

  lemma FinishLowersRank(s: State, i: nat, k: Kind)
    requires Inv(s) && i < |s.threads| && k == Top(s.threads[i]) && s.threads[i].pcs[k].LoadValue?
    ensures ThreadRank(Finish(s, i, k, s.threads[i].pcs[k].seen).threads[i]) < ThreadRank(s.threads[i])
  {
    var t := s.threads[i];
    assert ThreadOk(s, i) && FrameOk(s, i, k) && Nested(t.pcs, k);
    if Caller(t, k) < 4 {
      assert Nested(t.pcs, Caller(t, k)) && FrameOk(s, i, Caller(t, k));
    }
  }

  lemma ActiveLowersRank(s: State, i: nat, k: Kind, handle: int, error: int)
    requires Inv(s) && i < |s.threads| && k == Top(s.threads[i]) && !Blocked(s, i)
    ensures ThreadRank(StepActive(s, i, k, handle, error).threads[i]) < ThreadRank(s.threads[i])
  {
    var t := s.threads[i];
    assert ThreadOk(s, i) && FrameOk(s, i, k) && Nested(t.pcs, k);
    if t.pcs[k].LoadValue? {
      FinishLowersRank(s, i, k);
    }
  }

  /** In a reachable state every step of a thread that is neither finished nor blocked lowers the rank. */
  lemma StepLowersRank(s: State, c: Choice)
    requires Inv(s) && c.tid < |s.threads| && !Finished(s.threads[c.tid]) && !Blocked(s, c.tid)
    ensures Rank(Step(s, c)) < Rank(s)
  {
    var i := c.tid;
    var t := s.threads[i];
    var t' := Step(s, c).threads[i];
    assert ThreadOk(s, i);
    if Top(t) < 4 {
      ActiveLowersRank(s, i, Top(t), c.handle, c.error);
    }
    SumOfUpdate(ThreadRank, s.threads, i, t');
  }

  ghost predicate AllFinished(s: State) {
    forall i :: 0 <= i < |s.threads| ==> Finished(s.threads[i])
  }

  /** The strict order of the kinds at work: whoever runs the initialiser of `k` is either able to
      move or blocked at a lower kind, whose owner is in the same position. */
  lemma {:induction false} OwnerChain(s: State, k: Kind) returns (i: nat)
    requires Inv(s) && s.slots[k].flag.Running?
    ensures i < |s.threads| && !Finished(s.threads[i]) && !Blocked(s, i)
    decreases k
  {
    assert SlotOk(s, k);
    i := s.slots[k].flag.owner;
    var t := s.threads[i];
    assert ThreadOk(s, i) && Nested(t.pcs, k) && FrameOk(s, i, k);
    if Blocked(s, i) {
      assert Top(t) < k;
      i := OwnerChain(s, Top(t));
    }
  }

  /** No deadlock: in every reachable state with an unfinished thread some thread can move. */
  lemma SomeThreadMoves(s: State) returns (i: nat)
    requires Inv(s) && !AllFinished(s)
    ensures i < |s.threads| && !Finished(s.threads[i]) && !Blocked(s, i)
  {
    i :| 0 <= i < |s.threads| && !Finished(s.threads[i]);
    if Blocked(s, i) {
      i := OwnerChain(s, Top(s.threads[i]));
    }
  }

  /** A finished or blocked thread changes nothing. */
  lemma StaysPut(s: State, c: Choice)
    requires c.tid < |s.threads| ==> Finished(s.threads[c.tid]) || Blocked(s, c.tid)
    ensures Step(s, c) == s
  {
    if c.tid < |s.threads| && Blocked(s, c.tid) {
      var t := s.threads[c.tid];
      var k := Top(t);
      assert s.slots[k := s.slots[k]] == s.slots && t.pcs[k := t.pcs[k]] == t.pcs;
      assert s.threads[c.tid := t] == s.threads;
    }
  }

  function Tid(c: Choice): nat {
    c.tid
  }

  function ThreadCount(s: State): nat {
    |s.threads|
  }

  ghost function Threads(): System<State, Choice> {
    System(Step, Tid, ThreadCount, Inv, AllFinished, Rank)
  }

  lemma ThreadsLively()
    ensures Lively(Threads())
  {
    forall s, c
      ensures StepOk(Threads(), s, c)
    {
      if Inv(s) {
        StepInv(s, c);
        if c.tid < |s.threads| && !Finished(s.threads[c.tid]) && !Blocked(s, c.tid) {
          StepLowersRank(s, c);
        } else {
          StaysPut(s, c);
        }
      }
    }
    forall s | Inv(s) && !AllFinished(s)
      ensures exists i :: 0 <= i < ThreadCount(s) && MustMove(Threads(), s, i)
    {
      var i := SomeThreadMoves(s);
      assert Tid(Choice(i, 0, 0)) == i;
      forall c | Tid(c) == i
        ensures Step(s, c) != s
      {
        StepLowersRank(s, c);
      }
      assert MustMove(Threads(), s, i);
    }
  }

  /** Nested initialisation cannot get stuck: no run of any program ever reaches a state from which the
      remaining calls cannot all return; some schedule no longer than the rank lets them. */
  lemma EveryRunCanFinish(calls: seq<seq<Call>>, past: seq<Choice>)
    ensures exists future ::
              && |future| <= Rank(Run(Init(calls), past))
              && AllFinished(Run(Init(calls), past + future))
  {
    RunInv(calls, past);
    ThreadsLively();
    var future := CanFinish(Threads(), Run(Init(calls), past));
    FoldAppend(Step, Init(calls), past, future);
  }

  /** Every fair run finishes: whatever happened before, and whatever the runtime answers, all calls have
      returned after as many rounds as the rank if every thread has a turn in every round. */
  lemma EveryFairRunFinishes(calls: seq<seq<Call>>, past: seq<Choice>, rounds: seq<seq<Choice>>)
    requires Rank(Run(Init(calls), past)) <= |rounds|
    requires forall r :: r in rounds ==> Covers(Tid, |calls|, r)
    ensures AllFinished(Run(Init(calls), past + Flatten(rounds)))
  {
    var s := Init(calls);
    InitInv(calls);
    RunInv(calls, past);
    ThreadsLively();
    RunLowers(Threads(), s, past);
    FairRunFinishes(Threads(), Run(s, past), rounds);
    FoldAppend(Step, s, past, Flatten(rounds));
  }
}
