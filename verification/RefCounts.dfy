/**
Ownership of OpenCL reference counts by the wrapper objects of CL/cl.hpp and CL/cl2.hpp.

The four wrapper classes (generic and device, 1.2 and 2.0) are one design that differs in where the
null handle is checked and in whether a `referenceCountable_` flag is consulted; `Binding` selects
one of them.  The OpenCL runtime is a ledger of counts: retain and release change the count of a
live object by one (sections 4.3 and 4.4 of the OpenCL 1.2 specification).  A retain may be refused,
and one of a dead object always is; a release of a dead object misses.  The wrappers drop the codes.
*/
module RefCounts {
  import opened Prelude

  /** `test` is the platform-version test of a device; `nullTest` is what `isReferenceCountable`
      answers for the null device (the 2.0 header answers true when 1.2 is the minimum version). */
  datatype Binding = Binding(v20: bool, device: bool, test: int -> bool, nullTest: bool)

  /** A wrapper object: destroyed, or holding a handle with its `referenceCountable_` flag.
      The generic wrapper has no flag; its copy here is never consulted. */
  datatype Wrapped = Dead | Live(handle: int, flag: bool)

  /** `count` is the reference count of every object; the rest is history: what was created, retained and
      released, which retains were refused and which releases missed. */
  datatype Ledger = Ledger(count: multiset<int>, created: multiset<int>, retains: multiset<int>,
                           releases: multiset<int>, refused: multiset<int>, missed: multiset<int>)

  // ---------------------------------------------------------------- the runtime

  /** `granted` is the runtime's answer for a live object. */
  function RtRetain(l: Ledger, h: int, granted: bool): Ledger {
    if granted && h in l.count then l.(count := l.count + multiset{h}, retains := l.retains + multiset{h})
    else l.(refused := l.refused + multiset{h})
  }

  function RtRelease(l: Ledger, h: int): Ledger {
    if h !in l.count then l.(missed := l.missed + multiset{h})
    else l.(count := l.count - multiset{h}, releases := l.releases + multiset{h})
  }

  function RtCreate(l: Ledger, h: int): Ledger {
    l.(count := l.count + multiset{h}, created := l.created + multiset{h})
  }

  // ---------------------------------------------------------------- the wrapper's members

  predicate IsReferenceCountable(b: Binding, h: int) {
    if h == NULL then b.nullTest else b.test(h)
  }

  /** The member function `retain()`. */
  function Retain(b: Binding, l: Ledger, w: Wrapped, granted: bool): Ledger
    requires w.Live?
  {
    if b.v20 && w.handle == NULL then l
    else if b.device && !w.flag then l
    else RtRetain(l, w.handle, granted)
  }

  /** The member function `release()`. */
  function Release(b: Binding, l: Ledger, w: Wrapped): Ledger
    requires w.Live?
  {
    if b.v20 && w.handle == NULL then l
    else if b.device && !w.flag then l
    else RtRelease(l, w.handle)
  }

  /** Calls of `retain()` and `release()`: the 1.2 header guards them, the 2.0 header does not. */
  function GuardedRetain(b: Binding, l: Ledger, w: Wrapped, granted: bool): Ledger
    requires w.Live?
  {
    if !b.v20 && w.handle == NULL then l else Retain(b, l, w, granted)
  }

  function GuardedRelease(b: Binding, l: Ledger, w: Wrapped): Ledger
    requires w.Live?
  {
    if !b.v20 && w.handle == NULL then l else Release(b, l, w)
  }

  const EMPTY := Live(NULL, false)

  function FromRaw(b: Binding, h: int): Wrapped {
    Live(h, IsReferenceCountable(b, h))
  }

  function CopyConstruct(b: Binding, l: Ledger, rhs: Wrapped, granted: bool): (Ledger, Wrapped)
    requires rhs.Live?
  {
    var w := Live(rhs.handle, IsReferenceCountable(b, rhs.handle));
    (GuardedRetain(b, l, w, granted), w)
  }

  /** Assignment from a distinct wrapper: the old handle is released before the new one is retained. */
  function CopyAssign(b: Binding, l: Ledger, w: Wrapped, rhs: Wrapped, granted: bool): (Ledger, Wrapped)
    requires w.Live? && rhs.Live?
  {
    (GuardedRetain(b, GuardedRelease(b, l, w), rhs, granted), rhs)
  }

  /** The destructor: only the 2.0 device wrapper calls `release()` without a null check. */
  function Destruct(b: Binding, l: Ledger, w: Wrapped): Ledger
    requires w.Live?
  {
    if (b.v20 && b.device) || w.handle != NULL then Release(b, l, w) else l
  }

  // ---------------------------------------------------------------- programs

  /** All wrapper objects of a program, the ledger, the counts the program owns as raw handles, and
      the counts the runtime itself holds on objects it still needs. */
  datatype World = World(slots: seq<Wrapped>, ledger: Ledger, raw: multiset<int>, pinned: multiset<int>)

  datatype Op =
    | NewEmpty
    | NewFromRaw(h: int)                // takes over a count the program owns
    | NewRetained(h: int, granted: bool) // 2.0 only: retainObject is true
    | NewCopy(j: nat, granted: bool)
    | NewMove(j: nat)
    | AssignCopy(i: nat, j: nat, granted: bool)
    | AssignMove(i: nat, j: nat)
    | AssignRaw(i: nat, h: int)         // takes over a count the program owns
    | Destroy(i: nat)
    | RuntimeCreate(h: int)             // the program receives a new object
    | UserRetain(h: int, granted: bool)  // a program looks at the code
    | UserRelease(h: int)
    | Pin(h: int)
    | Unpin(h: int)

  /** A wrapper holding `h` owns one count of it. */
  predicate Owns(b: Binding, h: int) {
    h != NULL && (b.device ==> b.test(h))
  }

  predicate IsLive(w: World, i: nat) {
    i < |w.slots| && w.slots[i].Live?
  }

  /** What the headers demand of their users: wrappers are used while alive, a raw handle given to a
      constructor or assignment carries a count with it, and the program releases what it owns. */
  predicate Legal(b: Binding, w: World, op: Op) {
    match op
    case NewEmpty => true
    case NewFromRaw(h) => Owns(b, h) ==> h in w.raw
    case NewRetained(h, _) => b.v20 && (Owns(b, h) ==> h in w.ledger.count)
    case NewCopy(j, _) => IsLive(w, j)
    case NewMove(j) => IsLive(w, j)
    case AssignCopy(i, j, _) => IsLive(w, i) && IsLive(w, j)
    case AssignMove(i, j) => IsLive(w, i) && IsLive(w, j)
    case AssignRaw(i, h) => IsLive(w, i) && (Owns(b, h) ==> h in w.raw)
    case Destroy(i) => IsLive(w, i)
    case RuntimeCreate(h) => h != NULL && h !in w.ledger.count
    case UserRetain(h, _) => h in w.ledger.count
    case UserRelease(h) => h in w.raw
    case Pin(h) => h in w.ledger.count
    case Unpin(h) => h in w.pinned
  }

  /** The program gives up its count of a raw handle, if the handle carries one. */
  function Spend(b: Binding, raw: multiset<int>, h: int): multiset<int> {
    if Owns(b, h) then raw - multiset{h} else raw
  }

  function Do(b: Binding, w: World, op: Op): World
    requires Legal(b, w, op)
  {
    match op
    case NewEmpty => w.(slots := w.slots + [EMPTY])
    case NewFromRaw(h) => w.(slots := w.slots + [FromRaw(b, h)], raw := Spend(b, w.raw, h))
    case NewRetained(h, granted) =>
      w.(slots := w.slots + [FromRaw(b, h)], ledger := Retain(b, w.ledger, FromRaw(b, h), granted))
    case NewCopy(j, granted) =>
      var (l, x) := CopyConstruct(b, w.ledger, w.slots[j], granted);
      w.(slots := w.slots + [x], ledger := l)
    case NewMove(j) => w.(slots := w.slots[j := EMPTY] + [w.slots[j]])
    case AssignCopy(i, j, granted) =>
      if i == j then w
      else
        var (l, x) := CopyAssign(b, w.ledger, w.slots[i], w.slots[j], granted);
        w.(slots := w.slots[i := x], ledger := l)
    case AssignMove(i, j) =>
      if i == j then w
      else w.(slots := w.slots[i := w.slots[j]][j := EMPTY], ledger := GuardedRelease(b, w.ledger, w.slots[i]))
    case AssignRaw(i, h) =>
      w.(slots := w.slots[i := FromRaw(b, h)], ledger := GuardedRelease(b, w.ledger, w.slots[i]),
         raw := Spend(b, w.raw, h))
    case Destroy(i) => w.(slots := w.slots[i := Dead], ledger := Destruct(b, w.ledger, w.slots[i]))
    case RuntimeCreate(h) => w.(ledger := RtCreate(w.ledger, h), raw := w.raw + multiset{h})
    case UserRetain(h, granted) =>
      if granted then w.(ledger := RtRetain(w.ledger, h, true), raw := w.raw + multiset{h}) else w
    case UserRelease(h) => w.(ledger := RtRelease(w.ledger, h), raw := w.raw - multiset{h})
    case Pin(h) => w.(ledger := RtRetain(w.ledger, h, true), pinned := w.pinned + multiset{h})
    case Unpin(h) => w.(ledger := RtRelease(w.ledger, h), pinned := w.pinned - multiset{h})
  }

  /** Runs the legal operations of a program in order and skips the others. */
  function Run(b: Binding, w: World, ops: seq<Op>): World {
    if ops == [] then w
    else
      var before := Run(b, w, ops[..|ops| - 1]);
      var op := ops[|ops| - 1];
      if Legal(b, before, op) then Do(b, before, op) else before
  }

  const NO_COUNTS := Ledger(multiset{}, multiset{}, multiset{}, multiset{}, multiset{}, multiset{})

  const START := World([], NO_COUNTS, multiset{}, multiset{})

  // ---------------------------------------------------------------- conservation

  /** How many live wrappers hold `h`. */
  function Holders(slots: seq<Wrapped>, h: int): nat {
    multiset(slots)[Live(h, true)] + multiset(slots)[Live(h, false)]
  }

  function Owned(b: Binding, slots: seq<Wrapped>, h: int): nat {
    if Owns(b, h) then Holders(slots, h) else 0
  }

  /** The counts of `h` that were asked for and not given back. */
  function Net(l: Ledger, h: int): int {
    (l.count[h] + l.refused[h]) as int - l.missed[h]
  }

  /** Every count asked for is accounted for by a live wrapper, a raw handle of the program or the runtime;
      and no release of `h` missed but on account of a refused retain of it. */
  ghost predicate BalancedAt(b: Binding, w: World, h: int) {
    && Net(w.ledger, h) == Owned(b, w.slots, h) + w.raw[h] + w.pinned[h]
    && w.ledger.missed[h] <= w.ledger.refused[h]
  }

  ghost predicate Balanced(b: Binding, w: World) {
    forall h :: BalancedAt(b, w, h)
  }

  /** A flag is what the platform test says, however it got there. */
  ghost predicate FlagsAgree(b: Binding, w: World) {
    b.device ==> forall i :: 0 <= i < |w.slots| && w.slots[i].Live? && w.slots[i].handle != NULL ==>
                   w.slots[i].flag == b.test(w.slots[i].handle)
  }

  /** Counts are creations plus retains minus releases. */
  ghost predicate Books(l: Ledger) {
    forall h :: l.count[h] + l.releases[h] == l.created[h] + l.retains[h]
  }

  ghost predicate Inv(b: Binding, w: World) {
    && Balanced(b, w) && FlagsAgree(b, w)
    && Books(w.ledger)
    && NULL !in w.raw && NULL !in w.pinned
  }

  /** Nothing has gone wrong so far: no retain was refused and no release missed. */
  predicate Clean(l: Ledger) {
    l.refused == multiset{} && l.missed == multiset{}
  }

  lemma HoldersUpdate(slots: seq<Wrapped>, i: nat, x: Wrapped, h: int)
    requires i < |slots|
    ensures Holders(slots[i := x], h) + (if slots[i].Live? && slots[i].handle == h then 1 else 0)
         == Holders(slots, h) + (if x.Live? && x.handle == h then 1 else 0)
  {
    assert multiset(slots[i := x]) == multiset(slots) - multiset{slots[i]} + multiset{x};
    assert slots[i] in multiset(slots);
  }

  lemma HoldersAppend(slots: seq<Wrapped>, x: Wrapped, h: int)
    ensures Holders(slots + [x], h) == Holders(slots, h) + (if x.Live? && x.handle == h then 1 else 0)
  {
  }

  predicate FlagOk(b: Binding, w: Wrapped) {
    b.device && w.Live? && w.handle != NULL ==> w.flag == b.test(w.handle)
  }

  /** With the right flag, all four wrappers' guards come to the same thing: the runtime is called
      exactly when the wrapper owns a count of its handle. */
  lemma GuardsAgree(b: Binding, l: Ledger, w: Wrapped, granted: bool)
    requires w.Live? && FlagOk(b, w)
    ensures GuardedRetain(b, l, w, granted) == (if Owns(b, w.handle) then RtRetain(l, w.handle, granted) else l)
    ensures GuardedRelease(b, l, w) == (if Owns(b, w.handle) then RtRelease(l, w.handle) else l)
    ensures b.v20 ==> Retain(b, l, w, granted) == GuardedRetain(b, l, w, granted)
    ensures Destruct(b, l, w) == GuardedRelease(b, l, w)
  {
  }

  /** The old handle is released before the new one is retained: assigning between two wrappers of one object of
      which only one count is left, as after a refused copy, kills the object, and the retain is refused. */
  lemma ReleaseComesFirst(b: Binding, l: Ledger, w: Wrapped, rhs: Wrapped)
    requires w.Live? && rhs.Live? && w.handle == rhs.handle && FlagOk(b, w) && FlagOk(b, rhs)
    requires Owns(b, w.handle) && l.count[w.handle] == 1
    ensures var l' := CopyAssign(b, l, w, rhs, true).0;
            w.handle !in l'.count && l'.releases == l.releases + multiset{w.handle}
            && l'.refused == l.refused + multiset{w.handle}
  {
    GuardsAgree(b, l, w, true);
    GuardsAgree(b, RtRelease(l, w.handle), rhs, true);
  }

  /** A live wrapper of a balanced world stands for a count of its object. */
  lemma HolderCounts(b: Binding, w: World, i: nat)
    requires Inv(b, w) && IsLive(w, i) && Owns(b, w.slots[i].handle)
    ensures Net(w.ledger, w.slots[i].handle) >= 1 + w.raw[w.slots[i].handle]
  {
    var x := w.slots[i];
    assert x in multiset(w.slots);
    assert x == Live(x.handle, x.flag);
    assert Holders(w.slots, x.handle) >= 1;
    assert BalancedAt(b, w, x.handle);
  }

  lemma TwoHoldersCount(b: Binding, w: World, i: nat, j: nat)
    requires Inv(b, w) && IsLive(w, i) && IsLive(w, j) && i != j
    requires w.slots[i].handle == w.slots[j].handle && Owns(b, w.slots[i].handle)
    ensures Net(w.ledger, w.slots[i].handle) >= 2
  {
    var h := w.slots[i].handle;
    HoldersUpdate(w.slots, i, Dead, h);
    var rest := w.slots[i := Dead];
    assert rest[j] in multiset(rest);
    assert rest[j] == Live(h, rest[j].flag);
    assert Holders(rest, h) >= 1;
    assert BalancedAt(b, w, h);
  }

  /** Pointwise change of the counts by a wrapper that is alive and rightly flagged. */
  function Share(b: Binding, x: Wrapped, h: int): nat {
    if x.Live? && x.handle == h && Owns(b, h) then 1 else 0
  }

  /** Misses are covered by refusals. */
  ghost predicate Covered(l: Ledger) {
    forall h :: l.missed[h] <= l.refused[h]
  }

  lemma RtReleaseAt(l: Ledger, h: int, k: int)
    requires l.missed[k] <= l.refused[k] && (k == h ==> Net(l, h) >= 1)
    ensures var l' := RtRelease(l, h);
            Net(l', k) == Net(l, k) - (if k == h then 1 else 0) && l'.missed[k] <= l'.refused[k]
  {
  }

  lemma RtRetainAt(l: Ledger, h: int, granted: bool, k: int)
    requires l.missed[k] <= l.refused[k]
    ensures var l' := RtRetain(l, h, granted);
            Net(l', k) == Net(l, k) + (if k == h then 1 else 0) && l'.missed[k] <= l'.refused[k]
  {
  }

  lemma BooksKept(l: Ledger, h: int, granted: bool)
    requires Books(l)
    ensures Books(RtRetain(l, h, granted)) && Books(RtRelease(l, h))
  {
  }

  lemma ReleaseEffect(b: Binding, l: Ledger, x: Wrapped)
    requires x.Live? && FlagOk(b, x) && Books(l) && Covered(l) && (Owns(b, x.handle) ==> Net(l, x.handle) >= 1)
    ensures var l' := GuardedRelease(b, l, x);
            && Books(l') && Covered(l') && l'.refused == l.refused
            && forall h :: Net(l', h) == Net(l, h) - Share(b, x, h)
  {
    GuardsAgree(b, l, x, true);
    if Owns(b, x.handle) {
      BooksKept(l, x.handle, true);
      forall h
        ensures var l' := RtRelease(l, x.handle);
                Net(l', h) == Net(l, h) - Share(b, x, h) && l'.missed[h] <= l'.refused[h]
      {
        RtReleaseAt(l, x.handle, h);
      }
    }
  }

  lemma RetainEffect(b: Binding, l: Ledger, x: Wrapped, granted: bool)
    requires x.Live? && FlagOk(b, x) && Books(l) && Covered(l)
    ensures var l' := GuardedRetain(b, l, x, granted);
            && Books(l') && Covered(l') && l'.missed == l.missed
            && forall h :: Net(l', h) == Net(l, h) + Share(b, x, h)
  {
    GuardsAgree(b, l, x, granted);
    if Owns(b, x.handle) {
      BooksKept(l, x.handle, granted);
      forall h
        ensures var l' := RtRetain(l, x.handle, granted);
                Net(l', h) == Net(l, h) + Share(b, x, h) && l'.missed[h] <= l'.refused[h]
      {
        RtRetainAt(l, x.handle, granted, h);
      }
    }
  }

  lemma BalancedCovers(b: Binding, w: World)
    requires Balanced(b, w)
    ensures Covered(w.ledger)
  {
    forall h
      ensures w.ledger.missed[h] <= w.ledger.refused[h]
    {
      assert BalancedAt(b, w, h);
    }
  }

  lemma OwnedUpdate(b: Binding, slots: seq<Wrapped>, i: nat, x: Wrapped, h: int)
    requires i < |slots|
    ensures Owned(b, slots[i := x], h) == Owned(b, slots, h) - Share(b, slots[i], h) + Share(b, x, h)
  {
    HoldersUpdate(slots, i, x, h);
  }

  lemma OwnedAppend(b: Binding, slots: seq<Wrapped>, x: Wrapped, h: int)
    ensures Owned(b, slots + [x], h) == Owned(b, slots, h) + Share(b, x, h)
  {
    HoldersAppend(slots, x, h);
  }

  lemma AppendInv(b: Binding, w: World, w': World, x: Wrapped, raw: bool, granted: bool)
    requires Inv(b, w) && FlagOk(b, x) && x.Live?
    requires w'.slots == w.slots + [x] && w'.pinned == w.pinned
    requires raw ==> w'.ledger == w.ledger && w'.raw == Spend(b, w.raw, x.handle)
                     && (Owns(b, x.handle) ==> x.handle in w.raw)
    requires !raw ==> w'.raw == w.raw && w'.ledger == GuardedRetain(b, w.ledger, x, granted)
    ensures Inv(b, w')
  {
    BalancedCovers(b, w);
    RetainEffect(b, w.ledger, x, granted);
    forall h
      ensures BalancedAt(b, w', h)
    {
      OwnedAppend(b, w.slots, x, h);
      assert BalancedAt(b, w, h);
    }
  }

  lemma NewInv(b: Binding, w: World, op: Op)
    requires Inv(b, w) && Legal(b, w, op)
    requires op.NewEmpty? || op.NewFromRaw? || op.NewRetained? || op.NewCopy?
    ensures Inv(b, Do(b, w, op))
  {
    var w' := Do(b, w, op);
    var x := w'.slots[|w.slots|];
    var granted := if op.NewRetained? || op.NewCopy? then op.granted else true;
    GuardsAgree(b, w.ledger, x, granted);
    AppendInv(b, w, w', x, op.NewFromRaw? || op.NewEmpty?, granted);
  }

  lemma NewMoveInv(b: Binding, w: World, j: nat)
    requires Inv(b, w) && IsLive(w, j)
    ensures Inv(b, Do(b, w, NewMove(j)))
  {
    var w' := Do(b, w, NewMove(j));
    forall h
      ensures BalancedAt(b, w', h)
    {
      OwnedUpdate(b, w.slots, j, EMPTY, h);
      OwnedAppend(b, w.slots[j := EMPTY], w.slots[j], h);
      assert BalancedAt(b, w, h);
    }
  }

  lemma ReleaseSlot(b: Binding, w: World, i: nat)
    requires Inv(b, w) && IsLive(w, i)
    ensures FlagOk(b, w.slots[i]) && Destruct(b, w.ledger, w.slots[i]) == GuardedRelease(b, w.ledger, w.slots[i])
    ensures var l' := GuardedRelease(b, w.ledger, w.slots[i]);
            && Books(l') && Covered(l') && l'.refused == w.ledger.refused
            && forall h :: Net(l', h) == Net(w.ledger, h) - Share(b, w.slots[i], h)
  {
    BalancedCovers(b, w);
    if Owns(b, w.slots[i].handle) {
      HolderCounts(b, w, i);
    }
    GuardsAgree(b, w.ledger, w.slots[i], true);
    ReleaseEffect(b, w.ledger, w.slots[i]);
  }

  lemma AssignCopyLedger(b: Binding, w: World, i: nat, j: nat, granted: bool)
    requires Inv(b, w) && IsLive(w, i) && IsLive(w, j) && i != j
    ensures var l' := CopyAssign(b, w.ledger, w.slots[i], w.slots[j], granted).0;
            && Books(l') && Covered(l')
            && forall h :: Net(l', h) == Net(w.ledger, h) - Share(b, w.slots[i], h) + Share(b, w.slots[j], h)
  {
    ReleaseSlot(b, w, i);
    assert FlagOk(b, w.slots[j]);
    RetainEffect(b, GuardedRelease(b, w.ledger, w.slots[i]), w.slots[j], granted);
  }

  lemma AssignCopyInv(b: Binding, w: World, i: nat, j: nat, granted: bool)
    requires Inv(b, w) && IsLive(w, i) && IsLive(w, j)
    ensures Inv(b, Do(b, w, AssignCopy(i, j, granted)))
  {
    if i != j {
      var w' := Do(b, w, AssignCopy(i, j, granted));
      AssignCopyLedger(b, w, i, j, granted);
      forall h
        ensures BalancedAt(b, w', h)
      {
        OwnedUpdate(b, w.slots, i, w.slots[j], h);
        assert BalancedAt(b, w, h);
      }
    }
  }

  lemma AssignMoveInv(b: Binding, w: World, i: nat, j: nat)
    requires Inv(b, w) && IsLive(w, i) && IsLive(w, j)
    ensures Inv(b, Do(b, w, AssignMove(i, j)))
  {
    if i != j {
      var w' := Do(b, w, AssignMove(i, j));
      ReleaseSlot(b, w, i);
      forall h
        ensures BalancedAt(b, w', h)
      {
        OwnedUpdate(b, w.slots, i, w.slots[j], h);
        OwnedUpdate(b, w.slots[i := w.slots[j]], j, EMPTY, h);
        assert BalancedAt(b, w, h);
      }
    }
  }

  lemma SpendAt(b: Binding, raw: multiset<int>, h: int, k: int)
    requires Owns(b, h) ==> h in raw
    ensures Spend(b, raw, h)[k] == raw[k] - Share(b, FromRaw(b, h), k)
  {
  }

  lemma AssignRawInv(b: Binding, w: World, i: nat, h: int)
    requires Inv(b, w) && Legal(b, w, AssignRaw(i, h))
    ensures Inv(b, Do(b, w, AssignRaw(i, h)))
  {
    var w' := Do(b, w, AssignRaw(i, h));
    ReleaseSlot(b, w, i);
    forall k
      ensures BalancedAt(b, w', k)
    {
      OwnedUpdate(b, w.slots, i, FromRaw(b, h), k);
      SpendAt(b, w.raw, h, k);
      assert BalancedAt(b, w, k);
    }
  }

  lemma DestroyInv(b: Binding, w: World, i: nat)
    requires Inv(b, w) && IsLive(w, i)
    ensures Inv(b, Do(b, w, Destroy(i)))
  {
    var w' := Do(b, w, Destroy(i));
    ReleaseSlot(b, w, i);
    forall h
      ensures BalancedAt(b, w', h)
    {
      OwnedUpdate(b, w.slots, i, Dead, h);
      assert BalancedAt(b, w, h);
    }
  }

  /** A count more for the program or the runtime. */
  lemma OneMore(b: Binding, w: World, w': World, k: int, h: int)
    requires BalancedAt(b, w, h) && w'.slots == w.slots
    requires w'.ledger == RtCreate(w.ledger, k) || w'.ledger == RtRetain(w.ledger, k, true)
    requires w'.raw + w'.pinned == w.raw + w.pinned + multiset{k}
    ensures BalancedAt(b, w', h)
  {
    RtRetainAt(w.ledger, k, true, h);
    assert (w'.raw + w'.pinned)[h] == (w.raw + w.pinned + multiset{k})[h];
  }

  /** A count less. */
  lemma OneLess(b: Binding, w: World, w': World, k: int, h: int)
    requires BalancedAt(b, w, h) && w'.slots == w.slots && w'.ledger == RtRelease(w.ledger, k)
    requires w'.raw + w'.pinned + multiset{k} == w.raw + w.pinned
    ensures BalancedAt(b, w', h)
  {
    assert (w'.raw + w'.pinned + multiset{k})[h] == (w.raw + w.pinned)[h];
    RtReleaseAt(w.ledger, k, h);
  }

  lemma MoreInv(b: Binding, w: World, w': World, k: int)
    requires Inv(b, w) && w'.slots == w.slots && k != NULL
    requires w'.ledger == RtCreate(w.ledger, k) || w'.ledger == RtRetain(w.ledger, k, true)
    requires w'.raw + w'.pinned == w.raw + w.pinned + multiset{k} && NULL !in w'.raw && NULL !in w'.pinned
    ensures Inv(b, w')
  {
    BooksKept(w.ledger, k, true);
    forall h
      ensures BalancedAt(b, w', h)
    {
      assert BalancedAt(b, w, h);
      OneMore(b, w, w', k, h);
    }
  }

  lemma LessInv(b: Binding, w: World, w': World, k: int)
    requires Inv(b, w) && w'.slots == w.slots && w'.ledger == RtRelease(w.ledger, k)
    requires w'.raw + w'.pinned + multiset{k} == w.raw + w.pinned && NULL !in w'.raw && NULL !in w'.pinned
    ensures Inv(b, w')
  {
    BooksKept(w.ledger, k, true);
    forall h
      ensures BalancedAt(b, w', h)
    {
      assert BalancedAt(b, w, h);
      OneLess(b, w, w', k, h);
    }
  }

  lemma NullHasNoCount(b: Binding, w: World)
    requires Inv(b, w)
    ensures NULL !in w.ledger.count
  {
    assert BalancedAt(b, w, NULL);
  }

  lemma CreateInv(b: Binding, w: World, h: int)
    requires Inv(b, w) && Legal(b, w, RuntimeCreate(h))
    ensures Inv(b, Do(b, w, RuntimeCreate(h)))
  {
    var w' := Do(b, w, RuntimeCreate(h));
    assert w'.raw + w'.pinned == w.raw + w.pinned + multiset{h};
    MoreInv(b, w, w', h);
  }

  lemma UserRetainInv(b: Binding, w: World, h: int)
    requires Inv(b, w) && Legal(b, w, UserRetain(h, true))
    ensures Inv(b, Do(b, w, UserRetain(h, true)))
  {
    var w' := Do(b, w, UserRetain(h, true));
    NullHasNoCount(b, w);
    assert w'.raw + w'.pinned == w.raw + w.pinned + multiset{h};
    MoreInv(b, w, w', h);
  }

  lemma PinInv(b: Binding, w: World, h: int)
    requires Inv(b, w) && Legal(b, w, Pin(h))
    ensures Inv(b, Do(b, w, Pin(h)))
  {
    var w' := Do(b, w, Pin(h));
    NullHasNoCount(b, w);
    assert w'.raw + w'.pinned == w.raw + w.pinned + multiset{h};
    MoreInv(b, w, w', h);
  }

  lemma UserReleaseInv(b: Binding, w: World, h: int)
    requires Inv(b, w) && Legal(b, w, UserRelease(h))
    ensures Inv(b, Do(b, w, UserRelease(h)))
  {
    var w' := Do(b, w, UserRelease(h));
    assert w'.raw + w'.pinned + multiset{h} == w.raw + w.pinned;
    LessInv(b, w, w', h);
  }

  lemma UnpinInv(b: Binding, w: World, h: int)
    requires Inv(b, w) && Legal(b, w, Unpin(h))
    ensures Inv(b, Do(b, w, Unpin(h)))
  {
    var w' := Do(b, w, Unpin(h));
    assert w'.raw + w'.pinned + multiset{h} == w.raw + w.pinned;
    LessInv(b, w, w', h);
  }

  lemma DoInv(b: Binding, w: World, op: Op)
    requires Inv(b, w) && Legal(b, w, op)
    ensures Inv(b, Do(b, w, op))
  {
    match op
    case NewMove(j) => NewMoveInv(b, w, j);
    case AssignCopy(i, j, granted) => AssignCopyInv(b, w, i, j, granted);
    case AssignMove(i, j) => AssignMoveInv(b, w, i, j);
    case AssignRaw(i, h) => AssignRawInv(b, w, i, h);
    case Destroy(i) => DestroyInv(b, w, i);
    case NewEmpty => NewInv(b, w, op);
    case NewFromRaw(_) => NewInv(b, w, op);
    case NewRetained(_, _) => NewInv(b, w, op);
    case NewCopy(_, _) => NewInv(b, w, op);
    case RuntimeCreate(h) => CreateInv(b, w, h);
    case UserRetain(h, granted) =>
      if granted {
        UserRetainInv(b, w, h);
      }
    case UserRelease(h) => UserReleaseInv(b, w, h);
    case Pin(h) => PinInv(b, w, h);
    case Unpin(h) => UnpinInv(b, w, h);
  }

  /** Conservation.  For each of the four wrappers, every sequence of constructions, copies, moves,
      assignments (also to itself, also between wrappers of one object) and destructions, interleaved
      with anything the program and the runtime do to the counts, and whichever retains the runtime
      refuses: the counts of each object that were asked for and not given back are its live owners plus
      the program's raw counts plus the runtime's; no more releases of an object miss than retains of it
      were refused; and each device flag agrees with the platform test whichever way it was obtained. */
  lemma {:induction false} EveryRunConserves(b: Binding, ops: seq<Op>)
    ensures Inv(b, Run(b, START, ops))
  {
    if ops != [] {
      var n := |ops| - 1;
      EveryRunConserves(b, ops[..n]);
      var before := Run(b, START, ops[..n]);
      if Legal(b, before, ops[n]) {
        DoInv(b, before, ops[n]);
      }
    }
  }

  // ---------------------------------------------------------------- runs without a refusal

  predicate Granted(op: Op) {
    (op.NewRetained? || op.NewCopy? || op.AssignCopy?) ==> op.granted
  }

  lemma CleanNet(b: Binding, w: World, h: int)
    requires Inv(b, w) && Clean(w.ledger)
    ensures Net(w.ledger, h) == w.ledger.count[h] == Owned(b, w.slots, h) + w.raw[h] + w.pinned[h]
  {
    assert BalancedAt(b, w, h);
  }

  /** Releasing before retaining is safe: if both wrappers hold the same object it has two counts. */
  lemma AssignCopyClean(b: Binding, w: World, i: nat, j: nat)
    requires Inv(b, w) && Clean(w.ledger) && IsLive(w, i) && IsLive(w, j) && i != j
    ensures Clean(CopyAssign(b, w.ledger, w.slots[i], w.slots[j], true).0)
  {
    var x, y := w.slots[i], w.slots[j];
    assert FlagOk(b, x) && FlagOk(b, y);
    GuardsAgree(b, w.ledger, x, true);
    GuardsAgree(b, GuardedRelease(b, w.ledger, x), y, true);
    CleanNet(b, w, x.handle);
    CleanNet(b, w, y.handle);
    if Owns(b, x.handle) {
      HolderCounts(b, w, i);
    }
    if Owns(b, y.handle) {
      HolderCounts(b, w, j);
      if x.handle == y.handle {
        TwoHoldersCount(b, w, i, j);
      }
    }
  }

  lemma ReleaseClean(b: Binding, w: World, i: nat)
    requires Inv(b, w) && Clean(w.ledger) && IsLive(w, i)
    ensures Clean(GuardedRelease(b, w.ledger, w.slots[i])) && Clean(Destruct(b, w.ledger, w.slots[i]))
  {
    assert FlagOk(b, w.slots[i]);
    GuardsAgree(b, w.ledger, w.slots[i], true);
    CleanNet(b, w, w.slots[i].handle);
    if Owns(b, w.slots[i].handle) {
      HolderCounts(b, w, i);
    }
  }

  lemma CopyClean(b: Binding, w: World, j: nat)
    requires Inv(b, w) && Clean(w.ledger) && IsLive(w, j)
    ensures Clean(CopyConstruct(b, w.ledger, w.slots[j], true).0)
  {
    var x := FromRaw(b, w.slots[j].handle);
    GuardsAgree(b, w.ledger, x, true);
    CleanNet(b, w, x.handle);
    if Owns(b, x.handle) {
      HolderCounts(b, w, j);
    }
  }

  lemma DoClean(b: Binding, w: World, op: Op)
    requires Inv(b, w) && Clean(w.ledger) && Legal(b, w, op) && Granted(op)
    ensures Clean(Do(b, w, op).ledger)
  {
    match op
    case AssignCopy(i, j, _) =>
      if i != j {
        AssignCopyClean(b, w, i, j);
      }
    case AssignMove(i, _) => ReleaseClean(b, w, i);
    case AssignRaw(i, _) => ReleaseClean(b, w, i);
    case Destroy(i) => ReleaseClean(b, w, i);
    case NewCopy(j, _) => CopyClean(b, w, j);
    case NewRetained(h, _) => GuardsAgree(b, w.ledger, FromRaw(b, h), true);
    case UserRelease(h) => CleanNet(b, w, h);
    case Unpin(h) => CleanNet(b, w, h);
    case _ =>
  }

  /** As long as the runtime refuses nothing, no retain or release ever hits a dead object, although
      assignment releases before it retains, and each object's count is exactly its live owners plus the
      program's raw counts plus the runtime's. */
  lemma {:induction false} NothingMissesUnlessRefused(b: Binding, ops: seq<Op>)
    requires forall op :: op in ops ==> Granted(op)
    ensures var w := Run(b, START, ops);
            && Clean(w.ledger)
            && forall h :: w.ledger.count[h] == Owned(b, w.slots, h) + w.raw[h] + w.pinned[h]
  {
    var w := Run(b, START, ops);
    if ops != [] {
      var n := |ops| - 1;
      var before := Run(b, START, ops[..n]);
      NothingMissesUnlessRefused(b, ops[..n]);
      EveryRunConserves(b, ops[..n]);
      assert ops[n] in ops;
      if Legal(b, before, ops[n]) {
        DoClean(b, before, ops[n]);
      }
    }
    EveryRunConserves(b, ops);
    forall h
      ensures w.ledger.count[h] == Owned(b, w.slots, h) + w.raw[h] + w.pinned[h]
    {
      CleanNet(b, w, h);
    }
  }

  lemma RunNext(b: Binding, w: World, ops: seq<Op>, op: Op)
    requires Legal(b, Run(b, w, ops), op)
    ensures Run(b, w, ops + [op]) == Do(b, Run(b, w, ops), op)
  {
    assert (ops + [op])[..|ops|] == ops;
  }

  lemma RefusedCopyMisses(b: Binding, h: int, ops: seq<Op>)
    requires Owns(b, h)
    requires var x, one, none := FromRaw(b, h), multiset{h}, multiset{};
             Run(b, START, ops) == World([x, x], Ledger(one, one, none, none, one, none), none, none)
    ensures Run(b, START, ops + [Destroy(0)] + [Destroy(1)]).ledger.missed == multiset{h}
  {
    var x := FromRaw(b, h);
    var w := Run(b, START, ops);
    RunNext(b, START, ops, Destroy(0));
    GuardsAgree(b, w.ledger, x, true);
    var w' := Run(b, START, ops + [Destroy(0)]);
    assert w'.slots == [Dead, x] && w'.ledger.count == multiset{} && w'.ledger.missed == multiset{};
    RunNext(b, START, ops + [Destroy(0)], Destroy(1));
    GuardsAgree(b, w'.ledger, x, true);
  }

  /** One refused copy is enough for a release to miss, under every wrapper: take an object, copy its
      wrapper, and destroy both. */
  lemma RefusalMisses(b: Binding, h: int)
    requires Owns(b, h)
    ensures var ops := [RuntimeCreate(h)] + [NewFromRaw(h)] + [NewCopy(0, false)] + [Destroy(0)] + [Destroy(1)];
            Run(b, START, ops).ledger.missed == multiset{h}
  {
    var x := FromRaw(b, h);
    var one, none: multiset<int> := multiset{h}, multiset{};
    var made, taken := [RuntimeCreate(h)], [RuntimeCreate(h)] + [NewFromRaw(h)];
    RunNext(b, START, [], RuntimeCreate(h));
    assert [] + made == made;
    assert Run(b, START, made) == World([], Ledger(one, one, none, none, none, none), one, none);
    RunNext(b, START, made, NewFromRaw(h));
    assert Run(b, START, taken) == World([x], Ledger(one, one, none, none, none, none), none, none);
    RunNext(b, START, taken, NewCopy(0, false));
    GuardsAgree(b, Ledger(one, one, none, none, none, none), x, false);
    var copied := taken + [NewCopy(0, false)];
    assert Run(b, START, copied) == World([x, x], Ledger(one, one, none, none, one, none), none, none);
    RefusedCopyMisses(b, h, copied);
  }

  /** When a program has dropped its wrappers and raw counts and the runtime its pins, nothing is left
      alive: every creation and every granted retain has been matched by exactly one release, and every
      refused retain by exactly one release that missed. */
  lemma NothingLeaks(b: Binding, ops: seq<Op>)
    requires var w := Run(b, START, ops);
             && (forall i :: 0 <= i < |w.slots| ==> w.slots[i] == Dead || w.slots[i].handle == NULL)
             && w.raw == multiset{} && w.pinned == multiset{}
    ensures var l := Run(b, START, ops).ledger;
            l.count == multiset{} && l.missed == l.refused && l.releases == l.created + l.retains
  {
    EveryRunConserves(b, ops);
    var w := Run(b, START, ops);
    var l := w.ledger;
    forall h
      ensures l.count[h] == 0 && l.missed[h] == l.refused[h] && l.releases[h] == (l.created + l.retains)[h]
    {
      assert BalancedAt(b, w, h);
      assert Live(h, true) in multiset(w.slots) ==> Live(h, true) in w.slots;
      assert Live(h, false) in multiset(w.slots) ==> Live(h, false) in w.slots;
      assert l.count[h] + l.releases[h] == l.created[h] + l.retains[h];
    }
    assert l.count == multiset{};
    assert l.missed == l.refused;
    assert l.releases == l.created + l.retains;
  }

  // ---------------------------------------------------------------- 2.0 against 1.2

  /** The two headers compiled for one platform: they may differ in `nullTest` only. */
  ghost predicate SamePlatform(b12: Binding, b20: Binding) {
    !b12.v20 && b20.v20 && b12.device == b20.device && (forall h :: b12.test(h) == b20.test(h))
  }

  /** Equal up to the flag of a wrapper that holds nothing. */
  predicate SameWrapped(x: Wrapped, y: Wrapped) {
    if x.Dead? then y.Dead?
    else y.Live? && x.handle == y.handle && (x.handle != NULL ==> x.flag == y.flag)
  }

  ghost predicate SameWorld(w: World, w': World) {
    && w.ledger == w'.ledger && w.raw == w'.raw && w.pinned == w'.pinned
    && |w.slots| == |w'.slots|
    && (forall i :: 0 <= i < |w.slots| ==> SameWrapped(w.slots[i], w'.slots[i]))
  }

  lemma SameRelease(b12: Binding, b20: Binding, l: Ledger, x: Wrapped, y: Wrapped, granted: bool)
    requires SamePlatform(b12, b20) && x.Live? && SameWrapped(x, y)
    ensures GuardedRelease(b12, l, x) == GuardedRelease(b20, l, y)
    ensures GuardedRetain(b12, l, x, granted) == GuardedRetain(b20, l, y, granted)
    ensures Destruct(b12, l, x) == Destruct(b20, l, y)
  {
  }

  lemma AssignCopySimulates(b12: Binding, b20: Binding, w: World, w': World, i: nat, j: nat, granted: bool)
    requires SamePlatform(b12, b20) && SameWorld(w, w')
    requires IsLive(w, i) && IsLive(w', i) && IsLive(w, j) && IsLive(w', j)
    ensures SameWorld(Do(b12, w, AssignCopy(i, j, granted)), Do(b20, w', AssignCopy(i, j, granted)))
  {
    SameRelease(b12, b20, w.ledger, w.slots[i], w'.slots[i], granted);
    SameRelease(b12, b20, GuardedRelease(b12, w.ledger, w.slots[i]), w.slots[j], w'.slots[j], granted);
  }

  lemma AssignMoveSimulates(b12: Binding, b20: Binding, w: World, w': World, i: nat, j: nat)
    requires SamePlatform(b12, b20) && SameWorld(w, w')
    requires IsLive(w, i) && IsLive(w', i) && IsLive(w, j) && IsLive(w', j)
    ensures SameWorld(Do(b12, w, AssignMove(i, j)), Do(b20, w', AssignMove(i, j)))
  {
    SameRelease(b12, b20, w.ledger, w.slots[i], w'.slots[i], true);
  }

  lemma AssignRawSimulates(b12: Binding, b20: Binding, w: World, w': World, i: nat, h: int)
    requires SamePlatform(b12, b20) && SameWorld(w, w')
    requires Legal(b12, w, AssignRaw(i, h)) && Legal(b20, w', AssignRaw(i, h))
    ensures SameWorld(Do(b12, w, AssignRaw(i, h)), Do(b20, w', AssignRaw(i, h)))
  {
    SameRelease(b12, b20, w.ledger, w.slots[i], w'.slots[i], true);
  }

  lemma DestroySimulates(b12: Binding, b20: Binding, w: World, w': World, i: nat)
    requires SamePlatform(b12, b20) && SameWorld(w, w') && IsLive(w, i) && IsLive(w', i)
    ensures SameWorld(Do(b12, w, Destroy(i)), Do(b20, w', Destroy(i)))
  {
    SameRelease(b12, b20, w.ledger, w.slots[i], w'.slots[i], true);
  }

  lemma OutsideSimulates(b12: Binding, b20: Binding, w: World, w': World, op: Op)
    requires SamePlatform(b12, b20) && SameWorld(w, w') && Legal(b12, w, op) && Legal(b20, w', op)
    requires op.NewEmpty? || op.NewFromRaw? || op.RuntimeCreate? || op.UserRetain? || op.UserRelease?
             || op.Pin? || op.Unpin?
    ensures SameWorld(Do(b12, w, op), Do(b20, w', op))
  {
  }

  lemma CopySimulates(b12: Binding, b20: Binding, w: World, w': World, j: nat, granted: bool)
    requires SamePlatform(b12, b20) && SameWorld(w, w') && IsLive(w, j) && IsLive(w', j)
    ensures SameWorld(Do(b12, w, NewCopy(j, granted)), Do(b20, w', NewCopy(j, granted)))
  {
    var x, y := FromRaw(b12, w.slots[j].handle), FromRaw(b20, w'.slots[j].handle);
    assert SameWrapped(w.slots[j], w'.slots[j]);
    SameRelease(b12, b20, w.ledger, x, y, granted);
  }

  lemma StepSimulates(b12: Binding, b20: Binding, w: World, w': World, op: Op)
    requires SamePlatform(b12, b20) && SameWorld(w, w') && !op.NewRetained?
    ensures Legal(b12, w, op) == Legal(b20, w', op)
    ensures Legal(b12, w, op) ==> SameWorld(Do(b12, w, op), Do(b20, w', op))
  {
    assert forall i :: IsLive(w, i) == IsLive(w', i);
    if Legal(b12, w, op) {
      match op
      case NewCopy(j, granted) => CopySimulates(b12, b20, w, w', j, granted);
      case AssignCopy(i, j, granted) => AssignCopySimulates(b12, b20, w, w', i, j, granted);
      case AssignMove(i, j) => AssignMoveSimulates(b12, b20, w, w', i, j);
      case AssignRaw(i, h) => AssignRawSimulates(b12, b20, w, w', i, h);
      case Destroy(i) => DestroySimulates(b12, b20, w, w', i);
      case NewMove(_) =>
      case _ => OutsideSimulates(b12, b20, w, w', op);
    }
  }

  /** The 2.0 wrapper simulates the 1.2 wrapper: any program that uses only what both offer leaves the
      same handles in the same wrappers and the same ledger, call for call, although the null checks
      moved from the callers into retain and release. */
  lemma {:induction false} NewWrapperSimulatesOld(b12: Binding, b20: Binding, ops: seq<Op>)
    requires SamePlatform(b12, b20)
    requires forall op :: op in ops ==> !op.NewRetained?
    ensures SameWorld(Run(b12, START, ops), Run(b20, START, ops))
  {
    if ops != [] {
      var n := |ops| - 1;
      NewWrapperSimulatesOld(b12, b20, ops[..n]);
      assert ops[n] in ops;
      StepSimulates(b12, b20, Run(b12, START, ops[..n]), Run(b20, START, ops[..n]), ops[n]);
    }
  }
}
