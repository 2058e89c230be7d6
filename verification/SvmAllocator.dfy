/**
`SVMAllocator::max_size` and the byte size computed in `allocate` (CL/cl2.hpp).  A device limit is a
64-bit number; `sizeMax` is the largest `size_type`.
*/
module SvmAllocator {
  import opened Prelude

  /** `static_cast<size_type>` of a device limit. */
  function Narrow(sizeMax: nat, limit: nat): nat {
    limit % (sizeMax + 1)
  }

  function Min(a: nat, b: nat): nat {
    if a < b then a else b
  }

  /** `m` is the smallest of `top` and all of `limits`. */
  ghost predicate IsLeast(top: nat, limits: seq<nat>, m: nat) {
    && m <= top
    && (forall i :: 0 <= i < |limits| ==> m <= limits[i])
    && (m == top || m in limits)
  }

  /** There is such a number, and only one. */
  lemma {:induction false} LeastExists(top: nat, limits: seq<nat>) returns (m: nat)
    ensures IsLeast(top, limits, m)
  {
    if limits == [] {
      m := top;
    } else {
      var n := |limits| - 1;
      var before := LeastExists(top, limits[..n]);
      m := Min(before, limits[n]);
      assert forall i :: 0 <= i < n ==> limits[..n][i] == limits[i];
    }
  }

  lemma LeastIsUnique(top: nat, limits: seq<nat>, m: nat, m': nat)
    requires IsLeast(top, limits, m) && IsLeast(top, limits, m')
    ensures m == m'
  {
  }

  /** `m` is the smallest of the type limit and all narrowed limits. */
  ghost predicate IsBound(sizeMax: nat, elem: nat, limits: seq<nat>, m: nat)
    requires elem > 0
  {
    && m <= sizeMax / elem
    && (forall i :: 0 <= i < |limits| ==> m <= Narrow(sizeMax, limits[i]))
    && (m == sizeMax / elem || exists i :: 0 <= i < |limits| && m == Narrow(sizeMax, limits[i]))
  }

  /** The loop over the devices of the context: the least of the type limit and the narrowed limits. */
  method MaxSize(sizeMax: nat, elem: nat, limits: seq<nat>) returns (m: nat)
    requires elem > 0
    ensures IsBound(sizeMax, elem, limits, m)
  {
    m := sizeMax / elem;
    for i := 0 to |limits|
      invariant IsBound(sizeMax, elem, limits[..i], m)
    {
      m := Min(m, Narrow(sizeMax, limits[i]));
      assert limits[..i + 1][i] == limits[i];
      assert forall j :: 0 <= j < i ==> limits[..i + 1][j] == limits[..i][j];
    }
    assert limits[..|limits|] == limits;
  }

  lemma NarrowBelow(sizeMax: nat, limit: nat)
    ensures Narrow(sizeMax, limit) <= limit && Narrow(sizeMax, limit) <= sizeMax
    ensures limit <= sizeMax ==> Narrow(sizeMax, limit) == limit
  {
    if limit <= sizeMax {
      SmallMod(limit, sizeMax + 1);
    }
  }

  /** The result never exceeds the least of the limits themselves, and is that least exactly when every
      limit above what `size_type` holds still has a narrowed value that is no smaller. */
  lemma TrueLeastIff(sizeMax: nat, elem: nat, limits: seq<nat>, m: nat, least: nat)
    requires elem > 0 && IsBound(sizeMax, elem, limits, m)
    requires IsLeast(sizeMax / elem, limits, least)
    ensures m <= least
    ensures m == least <==>
            forall i :: 0 <= i < |limits| && limits[i] > sizeMax ==> Narrow(sizeMax, limits[i]) >= least
  {
    forall i | 0 <= i < |limits|
      ensures Narrow(sizeMax, limits[i]) <= limits[i]
      ensures limits[i] <= sizeMax ==> Narrow(sizeMax, limits[i]) == limits[i]
    {
      NarrowBelow(sizeMax, limits[i]);
    }
    if least in limits {
      var i :| 0 <= i < |limits| && limits[i] == least;
      assert m <= Narrow(sizeMax, limits[i]);
    }
    if m != sizeMax / elem {
      var i :| 0 <= i < |limits| && Narrow(sizeMax, limits[i]) == m;
      assert limits[i] <= sizeMax ==> least <= limits[i];
    }
  }

  /** With a 32-bit `size_type`, a device of exactly 4 gigabytes narrows to 0 and nothing may be allocated. */
  lemma NarrowedToNothing(m: nat)
    requires IsBound(0xFFFF_FFFF, 4, [0x1_0000_0000], m)
    ensures m == 0 && IsLeast(0xFFFF_FFFF / 4, [0x1_0000_0000], 0xFFFF_FFFF / 4)
  {
    assert Narrow(0xFFFF_FFFF, [0x1_0000_0000][0]) == 0;
  }

  /** The size in bytes of `count` elements. */
  function Bytes(elem: nat, count: nat): nat {
    count * elem
  }

  /** `size * sizeof(T)` in `size_type` arithmetic. */
  function ByteSize(sizeMax: nat, elem: nat, count: nat): nat {
    Bytes(elem, count) % (sizeMax + 1)
  }

  lemma DivTimes(a: nat, b: nat)
    requires b > 0
    ensures a / b * b <= a
  {
  }

  lemma TimesMonotonic(a: nat, b: nat, c: nat)
    requires a <= b
    ensures a * c <= b * c
  {
  }

  /** Any element count within the bound has a byte size that does not wrap around. */
  lemma NoWrapAround(sizeMax: nat, elem: nat, limits: seq<nat>, m: nat, count: nat)
    requires elem > 0 && IsBound(sizeMax, elem, limits, m) && count <= m
    ensures ByteSize(sizeMax, elem, count) == Bytes(elem, count) <= sizeMax
  {
    TimesMonotonic(count, sizeMax / elem, elem);
    DivTimes(sizeMax, elem);
    SmallMod(count * elem, sizeMax + 1);
  }

  /** A limit that the bound respects because the type, or the narrowed limit of another device, is small. */
  ghost predicate Spared(sizeMax: nat, elem: nat, limits: seq<nat>, limit: nat)
    requires elem > 0
  {
    || Bytes(elem, sizeMax / elem) <= limit
    || exists j :: 0 <= j < |limits| && limits[j] > sizeMax && Bytes(elem, Narrow(sizeMax, limits[j])) <= limit
  }

  ghost predicate AllFit(elem: nat, limits: seq<nat>, m: nat) {
    forall i :: 0 <= i < |limits| ==> Bytes(elem, m) <= limits[i]
  }

  lemma MostBytes(elem: nat, limits: seq<nat>, m: nat)
    ensures (forall count, i :: 0 <= count <= m && 0 <= i < |limits| ==> Bytes(elem, count) <= limits[i])
            <==> AllFit(elem, limits, m)
  {
    forall count | 0 <= count <= m
      ensures Bytes(elem, count) <= Bytes(elem, m)
    {
      TimesMonotonic(count, m, elem);
    }
  }

  lemma FitNeeds(sizeMax: nat, elem: nat, limits: seq<nat>, m: nat)
    requires elem > 0 && IsBound(sizeMax, elem, limits, m) && AllFit(elem, limits, m)
    ensures || elem == 1
            || (exists i :: 0 <= i < |limits| && Narrow(sizeMax, limits[i]) == 0)
            || (forall i :: 0 <= i < |limits| && limits[i] <= sizeMax ==> Spared(sizeMax, elem, limits, limits[i]))
  {
    if elem > 1 && m != sizeMax / elem {
      var j :| 0 <= j < |limits| && Narrow(sizeMax, limits[j]) == m;
      if m > 0 && limits[j] <= sizeMax {
        NarrowBelow(sizeMax, limits[j]);
        TimesMonotonic(2, elem, m);
      }
    }
  }

  lemma FitFails(sizeMax: nat, elem: nat, limits: seq<nat>, m: nat)
    requires elem > 0 && IsBound(sizeMax, elem, limits, m) && !AllFit(elem, limits, m)
    ensures elem != 1 && (forall i :: 0 <= i < |limits| ==> Narrow(sizeMax, limits[i]) != 0)
    ensures exists i :: 0 <= i < |limits| && limits[i] <= sizeMax && !Spared(sizeMax, elem, limits, limits[i])
  {
    var i :| 0 <= i < |limits| && Bytes(elem, m) > limits[i];
    NarrowBelow(sizeMax, limits[i]);
    assert m <= Narrow(sizeMax, limits[i]);
    forall j | 0 <= j < |limits|
      ensures Narrow(sizeMax, limits[j]) != 0 && Bytes(elem, Narrow(sizeMax, limits[j])) >= Bytes(elem, m)
    {
      TimesMonotonic(m, Narrow(sizeMax, limits[j]), elem);
    }
    TimesMonotonic(m, sizeMax / elem, elem);
    DivTimes(sizeMax, elem);
    assert limits[i] <= sizeMax && !Spared(sizeMax, elem, limits, limits[i]);
  }

  /** The device limits are in bytes and the bound is in elements.  So every permitted allocation respects
      every device limit exactly when an element is one byte, or nothing may be allocated because a limit
      narrows to 0, or each limit that `size_type` holds leaves room for the most elements the type can
      count or for as many as a narrowed limit of another device permits. */
  lemma BytesFitIff(sizeMax: nat, elem: nat, limits: seq<nat>, m: nat)
    requires elem > 0 && IsBound(sizeMax, elem, limits, m)
    ensures (forall count, i :: 0 <= count <= m && 0 <= i < |limits| ==> Bytes(elem, count) <= limits[i])
            <==> || elem == 1
                 || (exists i :: 0 <= i < |limits| && Narrow(sizeMax, limits[i]) == 0)
                 || (forall i :: 0 <= i < |limits| && limits[i] <= sizeMax ==> Spared(sizeMax, elem, limits, limits[i]))
  {
    MostBytes(elem, limits, m);
    if AllFit(elem, limits, m) {
      FitNeeds(sizeMax, elem, limits, m);
    } else {
      FitFails(sizeMax, elem, limits, m);
    }
  }

  /** A context with one device of 1000 bytes admits 1000 elements of 4 bytes. */
  lemma BytesMayNotFit(m: nat)
    requires IsBound(0xFFFF_FFFF, 4, [1000], m)
    ensures m == 1000 && Bytes(4, m) > [1000][0]
  {
    assert Narrow(0xFFFF_FFFF, [1000][0]) == 1000;
  }
}
