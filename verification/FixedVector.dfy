/**
The fixed-capacity `cl::vector` of CL/cl.hpp as an object over an inline array, refining a bounded
sequence.  Exceptions are disabled, so an operation that exceeds the capacity reports an error code
that its caller drops, and otherwise does nothing.  Elements are plain values.
*/
module FixedVector {
  import opened Prelude

  // ---------------------------------------------------------------- bounded sequences

  function Push<T>(n: nat, s: seq<T>, x: T): seq<T> {
    if |s| < n then s + [x] else s
  }

  function PushAll<T>(n: nat, s: seq<T>, xs: seq<T>): seq<T> {
    if xs == [] then s else Push(n, PushAll(n, s, xs[..|xs| - 1]), xs[|xs| - 1])
  }

  /** The longest prefix that fits. */
  function Fit<T>(n: nat, s: seq<T>): seq<T> {
    if |s| <= n then s else s[..n]
  }

  function Copies<T>(k: nat, x: T): (r: seq<T>)
    ensures |r| == k && forall i :: 0 <= i < k ==> r[i] == x
  {
    seq(k, _ => x)
  }

  /** Cut or filled to the new size; a size that does not fit changes nothing. */
  function Resized<T>(n: nat, s: seq<T>, newSize: nat, fill: T): (r: seq<T>)
    ensures |r| == if newSize <= n then newSize else |s|
    ensures forall i :: 0 <= i < |r| ==> r[i] == if i < |s| then s[i] else fill
  {
    if newSize > n then s
    else if newSize <= |s| then s[..newSize]
    else s + Copies(newSize - |s|, fill)
  }

  /** Pushing one by one, with what does not fit dropped, keeps exactly the longest prefix that fits. */
  lemma {:induction false} PushAllFits<T>(n: nat, s: seq<T>, xs: seq<T>)
    requires |s| <= n
    ensures PushAll(n, s, xs) == Fit(n, s + xs)
  {
    if xs == [] {
      assert s + xs == s;
    } else {
      var m := |xs| - 1;
      PushAllFits(n, s, xs[..m]);
      assert s + xs == s + xs[..m] + [xs[m]];
    }
  }

  datatype Op<T> =
    | OpPush(x: T) | OpPop | OpClear | OpAssign(xs: seq<T>) | OpResize(size: nat, fill: T)
    | OpAssignFrom(xs: seq<T>)          // from a copy of another vector, which was given these elements

  function Apply<T>(n: nat, s: seq<T>, op: Op<T>): seq<T> {
    match op
    case OpPush(x) => Push(n, s, x)
    case OpPop => if s == [] then s else s[..|s| - 1]
    case OpClear => []
    case OpAssign(xs) => PushAll(n, [], xs)
    case OpResize(size, fill) => Resized(n, s, size, fill)
    case OpAssignFrom(xs) => Fit(n, xs)
  }

  function Run<T>(n: nat, s: seq<T>, ops: seq<Op<T>>): seq<T> {
    if ops == [] then s else Apply(n, Run(n, s, ops[..|ops| - 1]), ops[|ops| - 1])
  }

  /** The capacity is never exceeded, and assigning after any history keeps the longest prefix that
      fits: nothing of the history survives. */
  lemma {:induction false} RunIsBounded<T>(n: nat, s: seq<T>, ops: seq<Op<T>>, xs: seq<T>)
    requires |s| <= n
    ensures |Run(n, s, ops)| <= n
    ensures Run(n, s, ops + [OpAssign(xs)]) == Fit(n, xs)
  {
    if ops != [] {
      var m := |ops| - 1;
      RunIsBounded(n, s, ops[..m], xs);
      if ops[m].OpAssign? {
        PushAllFits(n, [], ops[m].xs);
      }
    }
    var all := ops + [OpAssign(xs)];
    assert all[..|all| - 1] == ops;
    PushAllFits(n, [], xs);
    assert [] + xs == xs;
  }

  // ---------------------------------------------------------------- what the array holds

  /** A value stored at a position of the array. */
  datatype Store<T> = Store(at: nat, value: T)

  /** The array after the given stores, oldest first. */
  function Written<T>(slots: seq<T>, stores: seq<Store<T>>): (r: seq<T>)
    ensures |r| == |slots|
  {
    if stores == [] then slots
    else
      var before, last := Written(slots, stores[..|stores| - 1]), stores[|stores| - 1];
      if last.at < |slots| then before[last.at := last.value] else before
  }

  function LastStored<T>(stores: seq<Store<T>>, p: nat): Option<T> {
    if stores == [] then None
    else if stores[|stores| - 1].at == p then Some(stores[|stores| - 1].value)
    else LastStored(stores[..|stores| - 1], p)
  }

  /** The value last stored at a position, or the initial one if none was. */
  function ValueAt<T>(slots: seq<T>, stores: seq<Store<T>>, p: nat): T
    requires p < |slots|
  {
    match LastStored(stores, p)
    case Some(x) => x
    case None => slots[p]
  }

  lemma {:induction false} WrittenIsLast<T>(slots: seq<T>, stores: seq<Store<T>>, p: nat)
    requires p < |slots|
    ensures Written(slots, stores)[p] == ValueAt(slots, stores, p)
  {
    if stores != [] {
      WrittenIsLast(slots, stores[..|stores| - 1], p);
    }
  }

  lemma {:induction false} WrittenInTurn<T>(slots: seq<T>, a: seq<Store<T>>, b: seq<Store<T>>)
    ensures Written(slots, a + b) == Written(Written(slots, a), b)
  {
    if b == [] {
      assert a + b == a;
    } else {
      var n := |b| - 1;
      assert (a + b)[..|a + b| - 1] == a + b[..n];
      WrittenInTurn(slots, a, b[..n]);
    }
  }

  /** Elements stored one after the other from position `at` on. */
  function StoresFrom<T>(at: nat, xs: seq<T>): seq<Store<T>> {
    if xs == [] then [] else StoresFrom(at, xs[..|xs| - 1]) + [Store(at + |xs| - 1, xs[|xs| - 1])]
  }

  /** The array with `xs` laid over it from position `at` on. */
  function Overlaid<T>(slots: seq<T>, at: nat, xs: seq<T>): (r: seq<T>)
    requires at + |xs| <= |slots|
    ensures |r| == |slots|
    ensures forall i :: 0 <= i < |slots| ==> r[i] == if at <= i < at + |xs| then xs[i - at] else slots[i]
  {
    slots[..at] + xs + slots[at + |xs|..]
  }

  lemma {:induction false} StoresOverlay<T>(slots: seq<T>, at: nat, xs: seq<T>)
    requires at + |xs| <= |slots|
    ensures Written(slots, StoresFrom(at, xs)) == Overlaid(slots, at, xs)
  {
    if xs != [] {
      var n := |xs| - 1;
      StoresOverlay(slots, at, xs[..n]);
      var stores := StoresFrom(at, xs);
      assert stores[..|stores| - 1] == StoresFrom(at, xs[..n]);
    }
  }

  /** What an operation on a vector of the given size stores in the array. */
  function Stores<T>(n: nat, size: nat, op: Op<T>): seq<Store<T>> {
    match op
    case OpPush(x) => if size < n then StoresFrom(size, [x]) else []
    case OpAssign(xs) => StoresFrom(0, Fit(n, xs))
    case OpResize(k, fill) => if size < k <= n then StoresFrom(size, Copies(k - size, fill)) else []
    case OpAssignFrom(xs) => StoresFrom(0, Fit(n, xs))
    case _ => []
  }

  /** The array after one operation. */
  function SlotsAfter<T>(n: nat, slots: seq<T>, size: nat, op: Op<T>): seq<T>
    requires |slots| == n
  {
    match op
    case OpPush(x) => if size < n then slots[size := x] else slots
    case OpAssign(xs) => Overlaid(slots, 0, Fit(n, xs))
    case OpResize(k, fill) => if size < k <= n then Overlaid(slots, size, Copies(k - size, fill)) else slots
    case OpAssignFrom(xs) => Overlaid(slots, 0, Fit(n, xs))
    case _ => slots
  }

  lemma StoresOfOp<T>(n: nat, slots: seq<T>, size: nat, op: Op<T>)
    requires |slots| == n
    ensures Written(slots, Stores(n, size, op)) == SlotsAfter(n, slots, size, op)
  {
    match op
    case OpPush(x) =>
      if size < n {
        StoresOverlay(slots, size, [x]);
      }
    case OpAssign(xs) => StoresOverlay(slots, 0, Fit(n, xs));
    case OpAssignFrom(xs) => StoresOverlay(slots, 0, Fit(n, xs));
    case OpResize(k, fill) =>
      if size < k <= n {
        StoresOverlay(slots, size, Copies(k - size, fill));
      }
    case _ =>
  }

  /** All stores of a run, oldest first. */
  function History<T>(n: nat, s: seq<T>, ops: seq<Op<T>>): seq<Store<T>> {
    if ops == [] then []
    else
      var m := |ops| - 1;
      History(n, s, ops[..m]) + Stores(n, |Run(n, s, ops[..m])|, ops[m])
  }

  // ---------------------------------------------------------------- the class

  class Vector<T(0, ==)> {
    const N: nat

    const data_: array<T>

    var size_: nat

    ghost predicate Valid()
      reads this
    {
      data_.Length == N && size_ <= N
    }

    function Contents(): (s: seq<T>)
      requires Valid()
      reads this, data_
      ensures |s| == size_
    {
      data_[..size_]
    }

    constructor (capacity: nat)
      ensures Valid() && fresh(data_) && N == capacity && Contents() == []
    {
      N := capacity;
      data_ := new T[capacity];
      size_ := 0;
    }

    method PushBack(x: T)
      requires Valid()
      modifies this, data_
      ensures Valid() && Contents() == Push(N, old(Contents()), x)
      ensures data_[..] == if old(size_) < N then old(data_[..])[old(size_) := x] else old(data_[..])
      ensures size_ == if old(size_) < N then old(size_) + 1 else old(size_)
    {
      if size_ < N {
        data_[size_] := x;
        size_ := size_ + 1;
      }
    }

    /** `size` copies of `val`, or as many as fit. */
    constructor Filled(capacity: nat, size: nat, val: T)
      ensures Valid() && fresh(data_) && N == capacity
      ensures Contents() == Fit(N, Copies(size, val))
    {
      N := capacity;
      data_ := new T[capacity];
      size_ := 0;
      new;
      ghost var all := Copies(size, val);
      for i := 0 to size
        invariant Valid() && fresh(data_) && N == capacity
        invariant Contents() == Fit(N, all[..i])
      {
        ghost var before := Contents();
        PushBack(val);
        assert all[..i + 1] == all[..i] + [val];
      }
      assert all[..size] == all;
    }

    method PopBack()
      requires Valid()
      modifies this
      ensures Valid()
      ensures Contents() == if old(size_) == 0 then [] else old(Contents())[..old(size_) - 1]
    {
      if size_ != 0 {
        size_ := size_ - 1;
      }
    }

    method Clear()
      requires Valid()
      modifies this
      ensures Valid() && Contents() == []
    {
      while size_ != 0
        invariant Valid()
        decreases size_
      {
        PopBack();
      }
    }

    /** Assigns the elements of an iterator range. */
    method Assign(range: seq<T>)
      requires Valid()
      modifies this, data_
      ensures Valid() && Contents() == Fit(N, range)
      ensures data_[..] == Overlaid(old(data_[..]), 0, Fit(N, range))
    {
      ghost var slots := data_[..];
      Clear();
      var start := 0;
      while start != |range|
        invariant Valid() && 0 <= start <= |range|
        invariant Contents() == Fit(N, range[..start])
        invariant data_[size_..] == slots[size_..]
        decreases |range| - start
      {
        assert range[..start + 1] == range[..start] + [range[start]];
        PushBack(range[start]);
        start := start + 1;
      }
      assert range[..|range|] == range;
      assert data_[..] == Contents() + data_[size_..];
    }

    constructor CopyOf(vec: Vector<T>)
      requires vec.Valid()
      ensures Valid() && fresh(data_) && N == vec.N
      ensures Contents() == old(vec.Contents())
    {
      N := vec.N;
      data_ := new T[vec.N];
      size_ := vec.size_;
      new;
      if size_ != 0 {
        Assign(vec.Contents());
      }
    }

    /** `operator=`; the right-hand side may be this very vector. */
    method AssignFrom(rhs: Vector<T>)
      requires Valid() && rhs.Valid() && rhs.N == N && (rhs == this || rhs.data_ != data_)
      modifies this, data_
      ensures Valid() && rhs.Valid()
      ensures Contents() == old(rhs.Contents()) && rhs.Contents() == old(rhs.Contents())
      ensures data_[..] == if this == rhs then old(data_[..])
                           else Overlaid(old(data_[..]), 0, old(rhs.Contents()))
    {
      if this != rhs {
        if rhs.size_ != 0 {
          Assign(rhs.Contents());
        } else {
          Clear();
        }
      }
    }

    /** Decides equality of the represented sequences. */
    method Equals(vec: Vector<T>) returns (equal: bool)
      requires Valid() && vec.Valid()
      ensures equal <==> Contents() == vec.Contents()
    {
      if size_ != vec.size_ {
        return false;
      }
      for i := 0 to size_
        invariant forall j :: 0 <= j < i ==> data_[j] == vec.data_[j]
      {
        if data_[i] != vec.data_[i] {
          assert Contents()[i] != vec.Contents()[i];
          return false;
        }
      }
      return true;
    }

    method Resize(newSize: nat, fill: T)
      requires Valid()
      modifies this, data_
      ensures Valid() && Contents() == Resized(N, old(Contents()), newSize, fill)
      ensures data_[..] == if old(size_) < newSize <= N then
                             Overlaid(old(data_[..]), old(size_), Copies(newSize - old(size_), fill))
                           else old(data_[..])
    {
      if newSize <= N {
        ghost var n, slots := size_, data_[..];
        while size_ < newSize
          invariant Valid() && n <= size_ <= (if newSize < n then n else newSize)
          invariant forall i :: 0 <= i < N ==> data_[i] == if n <= i < size_ then fill else slots[i]
        {
          data_[size_] := fill;
          size_ := size_ + 1;
        }
        while size_ > newSize
          invariant Valid() && newSize <= size_ <= (if newSize < n then n else newSize)
          modifies this
        {
          size_ := size_ - 1;
        }
      }
    }

    /** The const overload: the last element; nothing when it reads in front of the array. */
    method BackConst() returns (x: Option<T>)
      requires Valid()
      ensures x == if size_ == 0 then None else Some(Contents()[size_ - 1])
    {
      x := if size_ == 0 then None else Some(data_[size_ - 1]);
    }

    /** The non-const overload reads one slot further; nothing when that is past the end of the array. */
    method Back() returns (x: Option<T>)
      requires Valid()
      ensures x == if size_ == N then None else Some(data_[size_])
    {
      x := if size_ == N then None else Some(data_[size_]);
    }

    /** One operation. */
    method Do(op: Op<T>)
      requires Valid()
      modifies this, data_
      ensures Valid() && Contents() == Apply(N, old(Contents()), op)
      ensures data_[..] == Written(old(data_[..]), Stores(N, old(size_), op))
    {
      StoresOfOp(N, data_[..], size_, op);
      match op {
        case OpPush(x) => PushBack(x);
        case OpPop => PopBack();
        case OpClear => Clear();
        case OpAssign(xs) =>
          PushAllFits(N, [], xs);
          assert [] + xs == xs;
          Assign(xs);
        case OpResize(size, fill) => Resize(size, fill);
        case OpAssignFrom(xs) =>
          var other := new Vector<T>(N);
          other.Assign(xs);
          var copy := Duplicate(other);
          AssignFrom(copy);
      }
    }

    /** Any sequence of operations: the contents are those of the bounded sequence, and every slot of the
        array, also past the end, holds what was last stored there. */
    method DoAll(ops: seq<Op<T>>)
      requires Valid()
      modifies this, data_
      ensures Valid() && Contents() == Run(N, old(Contents()), ops)
      ensures data_[..] == Written(old(data_[..]), History(N, old(Contents()), ops))
    {
      ghost var s, slots := Contents(), data_[..];
      for i := 0 to |ops|
        invariant Valid() && Contents() == Run(N, s, ops[..i])
        invariant data_[..] == Written(slots, History(N, s, ops[..i]))
      {
        assert ops[..i + 1][..i] == ops[..i];
        WrittenInTurn(slots, History(N, s, ops[..i]), Stores(N, size_, ops[i]));
        Do(ops[i]);
      }
      assert ops[..|ops|] == ops;
    }
  }

  /** A copy made by the copy constructor. */
  method Duplicate<T(0, ==)>(vec: Vector<T>) returns (copy: Vector<T>)
    requires vec.Valid()
    ensures fresh(copy) && fresh(copy.data_) && copy.Valid() && copy.N == vec.N
    ensures copy.Contents() == vec.Contents()
  {
    copy := new Vector.CopyOf(vec);
  }

  /** After any history, the non-const `back` gives the value last stored just past the end, or the initial
      value of that slot; so it agrees with the const one exactly when that value is the last element. */
  method BackAfter<T(0, ==)>(v: Vector<T>, ops: seq<Op<T>>) returns (viaConst: Option<T>, viaMutable: Option<T>)
    requires v.Valid()
    modifies v, v.data_
    ensures v.Valid() && v.Contents() == Run(v.N, old(v.Contents()), ops)
    ensures viaConst == if v.size_ == 0 then None else Some(v.Contents()[v.size_ - 1])
    ensures viaMutable == if v.size_ == v.N then None
                          else Some(ValueAt(old(v.data_[..]), History(v.N, old(v.Contents()), ops), v.size_))
    ensures 0 < v.size_ < v.N ==>
              (viaConst == viaMutable <==>
               ValueAt(old(v.data_[..]), History(v.N, old(v.Contents()), ops), v.size_) == v.Contents()[v.size_ - 1])
  {
    ghost var slots, stores := v.data_[..], History(v.N, v.Contents(), ops);
    v.DoAll(ops);
    if v.size_ < v.N {
      WrittenIsLast(slots, stores, v.size_);
      assert v.data_[..][v.size_] == v.data_[v.size_];
    }
    viaConst := v.BackConst();
    viaMutable := v.Back();
  }

  /** Two pushes and a pop leave one element, and the two overloads of `back` disagree about it. */
  method BackDisagrees(a: int, b: int) returns (viaConst: Option<int>, viaMutable: Option<int>)
    requires a != b
    ensures viaConst == Some(a) && viaMutable == Some(b)
  {
    var v := new Vector<int>(2);
    v.PushBack(a);
    v.PushBack(b);
    v.PopBack();
    viaConst := v.BackConst();
    viaMutable := v.Back();
  }
}
