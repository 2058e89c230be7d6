/**
How the initial value of the control words decides whether the protocol of CL/cl.hpp is correct.
The builds without C++11 atomics start them at NOT_INITIALIZED; the builds with them define the
atomics with no initialiser, so static storage makes them 0.
*/
module CasStart {
  import opened Prelude
  import opened Fairness
  import opened CasDefaults
  import opened CasRuns

  /** The first compare-and-swap either succeeds, or shows a bit that keeps every caller out of
      the creation block. */
  predicate Latched(start: int) {
    start == NOT_INITIALIZED || HasBit(start, INITIALIZED) || HasBit(start, BEING_INITIALIZED)
  }

  /** The branches by the low three bits of the word: with the bit of value 4 the object is there, else with the
      bit of value 2 it is awaited, else it is created. */
  lemma BranchByBits(seen: int, wantErr: bool)
    ensures Branch(seen, wantErr)
         == if seen % 8 >= 4 then AfterInit(wantErr) else if seen % 8 >= 2 then Spin else Create
    ensures Latched(seen) <==> seen == 1 || seen % 8 >= 2
  {
    assert seen / 4 % 2 == seen % 8 / 4;
    assert seen / 2 % 2 == seen % 4 / 2 && seen % 4 == seen % 8 % 4;
  }

  /** No creation block is entered twice. */
  ghost predicate EnteredOnce(s: State) {
    forall k: Kind :: |s.slots[k].entered| <= 1
  }

  /** Any two returned objects of one kind are the same object. */
  ghost predicate Agree(s: State) {
    forall r, r' :: r in s.log && r' in s.log && r.kind == r'.kind ==> r.value == r'.value
  }

  // ---------------------------------------------------------------- the words

  /** Started anywhere but at NOT_INITIALIZED, a compare-and-swap never succeeds: each word keeps
      its start value until it is overwritten by INITIALIZED. */
  lemma {:induction false} CasNeverSucceeds(start: int, calls: seq<seq<Call>>, schedule: seq<Choice>, k: Kind)
    requires start != NOT_INITIALIZED
    ensures Run(Init(start, calls), schedule).slots[k].word in {start, INITIALIZED}
  {
    if schedule != [] {
      CasNeverSucceeds(start, calls, schedule[..|schedule| - 1], k);
    }
  }

  // ---------------------------------------------------------------- latched but not startable

  /** Nothing is ever created: callers read the empty slot, or spin for ever. */
  ghost predicate Barren(s: State, start: int) {
    && (forall k: Kind :: s.slots[k] == Slot(start, NULL, CL_SUCCESS, [], []))
    && (forall i, k: Kind :: 0 <= i < |s.threads| ==> !InCreation(s.threads[i].pcs[k]))
    && (forall r :: r in s.log ==> r.value == NULL)
  }

  lemma StepBarren(s: State, c: Choice, start: int)
    requires start != NOT_INITIALIZED && Latched(start) && Barren(s, start)
    ensures Barren(Step(s, c), start)
  {
  }

  lemma {:induction false} RunBarren(start: int, calls: seq<seq<Call>>, schedule: seq<Choice>)
    requires start != NOT_INITIALIZED && Latched(start)
    ensures Barren(Run(Init(start, calls), schedule), start)
  {
    if schedule != [] {
      RunBarren(start, calls, schedule[..|schedule| - 1]);
      StepBarren(Run(Init(start, calls), schedule[..|schedule| - 1]), schedule[|schedule| - 1], start);
    }
  }

  // ---------------------------------------------------------------- two contexts from one default

  /** Two threads, one call each. */
  function TwoCalls(): seq<seq<Call>> {
    [[Call(CTX, false)], [Call(CTX, false)]]
  }

  /** One thread creates a context, stores error and word, and returns. */
  function Solo(i: nat, h: int): seq<Choice> {
    [Choice(i, h, 0), Choice(i, h, 0), Choice(i, h, 0), Choice(i, h, 0)]
  }

  /** Both threads compare-and-swap before either creates; the runtime hands out `a`, then `b`. */
  function Race(a: int, b: int): seq<Choice> {
    [Choice(0, 0, 0), Choice(1, 0, 0), Choice(0, 0, 0), Choice(1, 0, 0)]
    + Solo(0, a) + Solo(1, b)
  }

  lemma RunFour(s: State, c: seq<Choice>)
    requires |c| == 4
    ensures Run(s, c) == Step(Step(Step(Step(s, c[0]), c[1]), c[2]), c[3])
  {
    assert c[..3][..2] == c[..2] && c[..2][..1] == c[..1] && c[..1][..0] == [];
    assert Run(s, []) == s;
    assert Run(s, c[..1]) == Step(Run(s, c[..1][..0]), c[0]);
    assert Run(s, c[..2]) == Step(Run(s, c[..1]), c[1]);
    assert Run(s, c[..3]) == Step(Run(s, c[..2]), c[2]);
  }

  lemma RaceEntry(start: int)
    requires !Latched(start)
    ensures var s := Run(Init(start, TwoCalls()), Race(0, 0)[..4]);
            && |s.threads| == 2 && s.log == []
            && s.slots[CTX] == Slot(start, NULL, CL_SUCCESS, [0, 1], [])
            && s.threads[0] == Thread([], false, [Create, Absent])
            && s.threads[1] == Thread([], false, [Create, Absent])
  {
    var c := Race(0, 0)[..4];
    RunFour(Init(start, TwoCalls()), c);
    var s1 := Step(Init(start, TwoCalls()), c[0]);
    assert s1.threads[0] == Thread([], false, [Cas, Absent]);
    var s2 := Step(s1, c[1]);
    assert s2.threads[1] == Thread([], false, [Cas, Absent]);
    var s3 := Step(s2, c[2]);
    assert s3.threads[0] == Thread([], false, [Create, Absent]) && s3.slots[CTX].entered == [0];
    var s4 := Step(s3, c[3]);
    assert s4.slots[CTX].entered == [0, 1];
  }

  /** The first two steps of a thread that runs alone from its Create on. */
  lemma SoloStores(s: State, i: nat, h: int)
    requires i < |s.threads| && s.threads[i] == Thread([], false, [Create, Absent])
    ensures var s2 := Step(Step(s, Choice(i, h, 0)), Choice(i, h, 0));
            && |s2.threads| == |s.threads| && s2.log == s.log
            && s2.threads[i] == Thread([], false, [StoreWord, Absent])
            && s2.slots[CTX].value == h && s2.slots[CTX].entered == s.slots[CTX].entered
            && (forall j :: 0 <= j < |s.threads| && j != i ==> s2.threads[j] == s.threads[j])
  {
    var c := Choice(i, h, 0);
    var s1 := Step(s, c);
    assert s1.threads[i].pcs == [StoreError(0), Absent] && s1.slots[CTX].value == h;
  }

  /** The last two. */
  lemma SoloEnds(s: State, i: nat, h: int)
    requires i < |s.threads| && s.threads[i] == Thread([], false, [StoreWord, Absent]) && s.slots[CTX].value == h
    ensures var s' := Step(Step(s, Choice(i, h, 0)), Choice(i, h, 0));
            && |s'.threads| == |s.threads| && s'.log == s.log + [Return(i, CTX, h, None)]
            && s'.slots[CTX].entered == s.slots[CTX].entered
            && (forall j :: 0 <= j < |s.threads| && j != i ==> s'.threads[j] == s.threads[j])
  {
    var s3 := Step(s, Choice(i, h, 0));
    assert s3.threads[i].pcs == [LoadValue(None), Absent] && s3.slots[CTX].value == h;
  }

  lemma SoloReturns(s: State, i: nat, h: int)
    requires i < |s.threads| && s.threads[i] == Thread([], false, [Create, Absent])
    ensures var s' := Run(s, Solo(i, h));
            && |s'.threads| == |s.threads|
            && s'.log == s.log + [Return(i, CTX, h, None)]
            && s'.slots[CTX].entered == s.slots[CTX].entered
            && (forall j :: 0 <= j < |s.threads| && j != i ==> s'.threads[j] == s.threads[j])
  {
    RunFour(s, Solo(i, h));
    SoloStores(s, i, h);
    var c := Choice(i, h, 0);
    SoloEnds(Step(Step(s, c), c), i, h);
  }

  /** From any start value that is not latched (0 among them), two racing callers create two
      contexts and return them both. */
  lemma TwoContexts(start: int, a: int, b: int)
    requires !Latched(start)
    ensures var s := Run(Init(start, TwoCalls()), Race(a, b));
            s.slots[CTX].entered == [0, 1] && s.log == [Return(0, CTX, a, None), Return(1, CTX, b, None)]
  {
    var s0 := Init(start, TwoCalls());
    var entry := Race(a, b)[..4];
    assert entry == Race(0, 0)[..4];
    RaceEntry(start);
    FoldAppend(Step, s0, entry, Solo(0, a));
    SoloReturns(Run(s0, entry), 0, a);
    FoldAppend(Step, s0, entry + Solo(0, a), Solo(1, b));
    SoloReturns(Run(s0, entry + Solo(0, a)), 1, b);
    assert Race(a, b) == entry + Solo(0, a) + Solo(1, b);
  }

  // ---------------------------------------------------------------- the start value decides

  /** "All calls return the same object, created once" holds in every run exactly when the start
      value is latched. */
  lemma SafeIffLatched(start: int)
    ensures Latched(start) <==>
            (forall calls, schedule :: EnteredOnce(Run(Init(start, calls), schedule))
                                       && Agree(Run(Init(start, calls), schedule)))
  {
    if start == NOT_INITIALIZED {
      forall calls, schedule
        ensures EnteredOnce(Run(Init(start, calls), schedule)) && Agree(Run(Init(start, calls), schedule))
      {
        RunInv(calls, schedule);
      }
    } else if Latched(start) {
      forall calls, schedule
        ensures EnteredOnce(Run(Init(start, calls), schedule)) && Agree(Run(Init(start, calls), schedule))
      {
        RunBarren(start, calls, schedule);
      }
    } else {
      TwoContexts(start, 1, 2);
      assert !EnteredOnce(Run(Init(start, TwoCalls()), Race(1, 2)));
    }
  }

  lemma OneContext()
    ensures exists calls, schedule :: Run(Init(NOT_INITIALIZED, calls), schedule).slots[CTX].made != []
  {
    var calls := [[Call(CTX, false)]];
    var c := Choice(0, 7, 0);
    var s1 := Step(Init(NOT_INITIALIZED, calls), c);
    assert s1.threads[0].pcs == [Cas, Absent];
    var s2 := Step(s1, c);
    assert s2.threads[0].pcs == [Create, Absent];
    var s3 := Step(s2, c);
    RunFour(Init(NOT_INITIALIZED, calls), [c, c, c, c]);
    assert Run(Init(NOT_INITIALIZED, calls), [c, c, c, c]).slots[CTX].made != [];
  }

  /** Among the start values that are safe, only NOT_INITIALIZED lets a context be created at all;
      so the promise, of one context and no more, is met from NOT_INITIALIZED and from no other value. */
  lemma UsefulIffNotInitialized(start: int)
    ensures start == NOT_INITIALIZED <==>
            && (forall calls, schedule :: EnteredOnce(Run(Init(start, calls), schedule)))
            && (exists calls, schedule :: Run(Init(start, calls), schedule).slots[CTX].made != [])
  {
    SafeIffLatched(start);
    if start == NOT_INITIALIZED {
      OneContext();
    } else if Latched(start) {
      forall calls, schedule
        ensures Run(Init(start, calls), schedule).slots[CTX].made == []
      {
        RunBarren(start, calls, schedule);
      }
    } else {
      TwoContexts(start, 1, 2);
      assert !EnteredOnce(Run(Init(start, TwoCalls()), Race(1, 2)));
    }
  }

  // ---------------------------------------------------------------- one thread cannot tell

  predicate LoneFrame(word: int, pc: Pc, start: int) {
    && (word == start || word == INITIALIZED)
    && (InCreation(pc) ==> word == start)
    && (pc.LoadError? || pc.LoadValue? ==> word == INITIALIZED)
    && pc != Spin
  }

  /** Reachable with a single thread from an unlatched start value. */
  predicate Lone(s: State, start: int) {
    && |s.threads| == 1
    && LoneFrame(s.slots[CTX].word, s.threads[0].pcs[CTX], start)
    && LoneFrame(s.slots[QUEUE].word, s.threads[0].pcs[QUEUE], start)
  }

  function RelabelSlot(slot: Slot, pc: Pc): Slot {
    slot.(word := if slot.word == INITIALIZED then INITIALIZED
                  else if InCreation(pc) then BEING_INITIALIZED else NOT_INITIALIZED)
  }

  /** The same state as it would be had the words started at NOT_INITIALIZED. */
  function Relabel(s: State): State
    requires |s.threads| == 1
  {
    var pcs := s.threads[0].pcs;
    s.(slots := [RelabelSlot(s.slots[CTX], pcs[CTX]), RelabelSlot(s.slots[QUEUE], pcs[QUEUE])])
  }

  lemma StepLone(s: State, k: Kind, handle: int, error: int, start: int)
    requires !Latched(start) && Lone(s, start) && Top(s.threads[0]) == k
    ensures Lone(StepActive(s, 0, k, handle, error), start)
  {
    assert HasBit(INITIALIZED, INITIALIZED);
  }

  lemma ActiveRelabel(s: State, k: Kind, handle: int, error: int, start: int)
    requires !Latched(start) && Lone(s, start) && Top(s.threads[0]) == k
    ensures Relabel(StepActive(s, 0, k, handle, error)) == StepActive(Relabel(s), 0, k, handle, error)
  {
    assert HasBit(INITIALIZED, INITIALIZED);
    var l, r := Relabel(StepActive(s, 0, k, handle, error)), StepActive(Relabel(s), 0, k, handle, error);
    if k == CTX {
      assert l.threads == r.threads && l.log == r.log;
      assert l.slots[CTX] == r.slots[CTX] && l.slots[QUEUE] == r.slots[QUEUE];
    } else {
      assert l.threads == r.threads && l.log == r.log;
      assert l.slots[CTX] == r.slots[CTX] && l.slots[QUEUE] == r.slots[QUEUE];
    }
    assert l.slots == r.slots;
  }

  lemma StepRelabel(s: State, c: Choice, start: int)
    requires !Latched(start) && Lone(s, start)
    ensures Lone(Step(s, c), start)
    ensures Relabel(Step(s, c)) == Step(Relabel(s), c)
  {
    if c.tid == 0 && Top(s.threads[0]) < 2 {
      StepLone(s, Top(s.threads[0]), c.handle, c.error, start);
      ActiveRelabel(s, Top(s.threads[0]), c.handle, c.error, start);
    } else {
      assert Relabel(Step(s, c)).slots == Step(Relabel(s), c).slots;
    }
  }

  /** Under every schedule and every behaviour of the runtime, a program with one thread makes the
      same calls, creates the same objects and gets the same results from an unlatched start value
      as from NOT_INITIALIZED: only a second thread reveals the missing initialiser. */
  lemma {:induction false} OneThreadCannotTell(start: int, calls: seq<Call>, schedule: seq<Choice>)
    requires !Latched(start)
    ensures var s := Run(Init(start, [calls]), schedule);
            var s' := Run(Init(NOT_INITIALIZED, [calls]), schedule);
            && Lone(s, start) && Relabel(s) == s'
            && s.log == s'.log && s.threads == s'.threads
            && (forall k: Kind :: s.slots[k].(word := 0) == s'.slots[k].(word := 0))
  {
    if schedule == [] {
      assert Relabel(Init(start, [calls])).threads == Init(NOT_INITIALIZED, [calls]).threads;
    } else {
      var n := |schedule| - 1;
      OneThreadCannotTell(start, calls, schedule[..n]);
      StepRelabel(Run(Init(start, [calls]), schedule[..n]), schedule[n], start);
    }
  }
}
