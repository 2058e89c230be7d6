/**
The query helpers and factories that fill a vector of wrappers from raw handles the runtime returned:
`getInfoHelper` for reference-counted objects and `Program::createKernels`, in both headers.  `codes` are
the runtime's answers to the retains of live objects, position by position.
*/
module Queries {
  import opened Prelude
  import opened RefCounts
  import opened WrapperObjects

  /** The two calls of a query: the one for the size can fail, then the one for the data. */
  datatype Reply = Failed(code: int) | Values(handles: seq<int>)

  /** A `vector` of wrapper objects. */
  class HandleVector {
    var items: seq<Wrapped>

    constructor (initial: seq<Wrapped>)
      ensures items == initial
    {
      items := initial;
    }
  }

  // ---------------------------------------------------------------- counts owned by a vector

  function OwnedBy(b: Binding, x: Wrapped): multiset<int> {
    if x.Live? && Owns(b, x.handle) then multiset{x.handle} else multiset{}
  }

  function OwnedByAll(b: Binding, xs: seq<Wrapped>): multiset<int> {
    if xs == [] then multiset{} else OwnedByAll(b, xs[..|xs| - 1]) + OwnedBy(b, xs[|xs| - 1])
  }

  function Wrap(b: Binding, hs: seq<int>): (r: seq<Wrapped>)
    ensures |r| == |hs| && forall i :: 0 <= i < |hs| ==> r[i] == FromRaw(b, hs[i])
  {
    seq(|hs|, i requires 0 <= i < |hs| => FromRaw(b, hs[i]))
  }

  /** One count for each different object in a list: what a queried object that stays alive pins. */
  ghost function Pins(b: Binding, hs: seq<int>): multiset<int> {
    multiset(set h | h in hs && Owns(b, h))
  }

  predicate Usable(b: Binding, xs: seq<Wrapped>) {
    forall i :: 0 <= i < |xs| ==> xs[i].Live? && FlagOk(b, xs[i])
  }

  lemma {:induction false} OwnedByConcat(b: Binding, xs: seq<Wrapped>, ys: seq<Wrapped>)
    ensures OwnedByAll(b, xs + ys) == OwnedByAll(b, xs) + OwnedByAll(b, ys)
  {
    if ys == [] {
      assert xs + ys == xs;
    } else {
      var n := |ys| - 1;
      assert (xs + ys)[..|xs + ys| - 1] == xs + ys[..n];
      OwnedByConcat(b, xs, ys[..n]);
    }
  }

  lemma OwnedByNext(b: Binding, xs: seq<Wrapped>, i: nat)
    requires i < |xs|
    ensures OwnedByAll(b, xs[..i + 1]) == OwnedByAll(b, xs[..i]) + OwnedBy(b, xs[i])
  {
    assert xs[..i + 1][..i] == xs[..i];
  }

  lemma OwnedByPrefix(b: Binding, xs: seq<Wrapped>, i: nat)
    requires i <= |xs|
    ensures OwnedByAll(b, xs) == OwnedByAll(b, xs[..i]) + OwnedByAll(b, xs[i..])
  {
    assert xs == xs[..i] + xs[i..];
    OwnedByConcat(b, xs[..i], xs[i..]);
  }

  /** An element still to be released is owned over and above those already released. */
  lemma OwnedByRest(b: Binding, xs: seq<Wrapped>, i: nat)
    requires i < |xs|
    ensures OwnedByAll(b, xs[..i]) + OwnedBy(b, xs[i]) <= OwnedByAll(b, xs)
  {
    OwnedByNext(b, xs, i);
    OwnedByPrefix(b, xs, i + 1);
  }

  // ---------------------------------------------------------------- ledgers

  /** A ledger after `gain` retains and `loss` releases of live objects. */
  function After(l: Ledger, gain: multiset<int>, loss: multiset<int>): Ledger {
    l.(count := l.count + gain - loss, retains := l.retains + gain, releases := l.releases + loss)
  }

  /** A ledger after refused retains. */
  function Denying(l: Ledger, denied: multiset<int>): Ledger {
    l.(refused := l.refused + denied)
  }

  lemma RetainNet(b: Binding, l: Ledger, x: Wrapped)
    requires x.Live? && FlagOk(b, x) && OwnedBy(b, x) <= l.count
    ensures GuardedRetain(b, l, x, true) == After(l, OwnedBy(b, x), multiset{})
  {
    GuardsAgree(b, l, x, true);
    assert x.handle in OwnedBy(b, x) ==> x.handle in l.count;
  }

  lemma RefuseNet(b: Binding, l: Ledger, x: Wrapped)
    requires x.Live? && FlagOk(b, x)
    ensures GuardedRetain(b, l, x, false) == Denying(l, OwnedBy(b, x))
  {
    GuardsAgree(b, l, x, false);
    assert l.refused + multiset{} == l.refused;
  }

  lemma DenyingAfter(l: Ledger, denied: multiset<int>, more: multiset<int>, gain: multiset<int>, loss: multiset<int>)
    ensures Denying(After(Denying(l, denied), gain, loss), more) == After(Denying(l, denied + more), gain, loss)
  {
    assert l.refused + denied + more == l.refused + (denied + more);
  }

  lemma DenyingNothing(l: Ledger)
    ensures Denying(l, multiset{}) == l
  {
    assert l.refused + multiset{} == l.refused;
  }

  lemma ReleaseNet(b: Binding, l: Ledger, x: Wrapped)
    requires x.Live? && FlagOk(b, x) && OwnedBy(b, x) <= l.count
    ensures GuardedRelease(b, l, x) == After(l, multiset{}, OwnedBy(b, x))
    ensures Destruct(b, l, x) == GuardedRelease(b, l, x)
  {
    GuardsAgree(b, l, x, true);
    assert x.handle in OwnedBy(b, x) ==> x.handle in l.count;
  }

  lemma AfterAfter(l: Ledger, gain: multiset<int>, loss: multiset<int>, gain': multiset<int>, loss': multiset<int>)
    requires loss + loss' <= l.count + gain
    ensures After(After(l, gain, loss), gain', loss') == After(l, gain + gain', loss + loss')
  {
    var c, c' := After(After(l, gain, loss), gain', loss').count, After(l, gain + gain', loss + loss').count;
    forall h
      ensures c[h] == c'[h]
    {
      assert (loss + loss')[h] <= (l.count + gain)[h];
    }
    assert c == c';
  }

  lemma AfterNothing(l: Ledger)
    ensures After(l, multiset{}, multiset{}) == l
  {
    assert l.count + multiset{} - multiset{} == l.count;
  }

  // ---------------------------------------------------------------- the query for one object

  lemma PartOf(part: multiset<int>, other: multiset<int>, all: multiset<int>)
    requires part + other <= all
    ensures part <= all
  {
    assert part <= part + other;
  }

  lemma Shrink(count: multiset<int>, kept: multiset<int>, lost: multiset<int>, pins: multiset<int>)
    requires kept + lost + pins <= count
    ensures kept + pins <= count + multiset{} - lost
  {
    forall h
      ensures (kept + pins)[h] <= (count + multiset{} - lost)[h]
    {
      assert (kept + lost + pins)[h] <= count[h];
    }
  }

  /** Release the old object, then retain the new one, which something else keeps alive meanwhile. */
  lemma Replaced(b: Binding, l: Ledger, x: Wrapped, y: Wrapped)
    requires x.Live? && FlagOk(b, x) && y.Live? && FlagOk(b, y) && OwnedBy(b, x) + OwnedBy(b, y) <= l.count
    ensures GuardedRetain(b, GuardedRelease(b, l, x), y, true) == After(l, OwnedBy(b, y), OwnedBy(b, x))
    ensures GuardedRetain(b, GuardedRelease(b, l, x), y, false)
         == After(Denying(l, OwnedBy(b, y)), multiset{}, OwnedBy(b, x))
    ensures OwnedBy(b, y) <= GuardedRelease(b, l, x).count
  {
    var o, n := OwnedBy(b, x), OwnedBy(b, y);
    PartOf(o, n, l.count);
    ReleaseNet(b, l, x);
    assert n + o == o + n;
    Shrink(l.count, n, o, multiset{});
    assert n + multiset{} == n;
    RetainNet(b, After(l, multiset{}, o), y);
    RefuseNet(b, After(l, multiset{}, o), y);
    AfterAfter(l, multiset{}, o, n, multiset{});
    assert multiset{} + n == n && o + multiset{} == o;
  }

  /** What a wrapper that is to hold `value` gets when the runtime answers its retain with `answer`. */
  function Gained(b: Binding, value: int, answer: int): multiset<int> {
    if answer == CL_SUCCESS then OwnedBy(b, FromRaw(b, value)) else multiset{}
  }

  function Refused(b: Binding, value: int, answer: int): multiset<int> {
    if answer == CL_SUCCESS then multiset{} else OwnedBy(b, FromRaw(b, value))
  }

  lemma GainsItsOwn(b: Binding, value: int, answer: int)
    ensures (Owns(b, value) ==> answer == CL_SUCCESS) <==> Gained(b, value, answer) == OwnedBy(b, FromRaw(b, value))
  {
    assert Owns(b, value) ==> value in OwnedBy(b, FromRaw(b, value));
  }

  lemma ReplacedBy(b: Binding, l: Ledger, x: Wrapped, value: int, answer: int)
    requires x.Live? && FlagOk(b, x) && OwnedBy(b, x) + OwnedBy(b, FromRaw(b, value)) <= l.count
    ensures var released := GuardedRelease(b, l, x);
            && (Owns(b, value) ==> value in released.count)
            && (if value == NULL then released else Retain(b, released, FromRaw(b, value), answer == CL_SUCCESS))
               == After(Denying(l, Refused(b, value, answer)), Gained(b, value, answer), OwnedBy(b, x))
  {
    var y := FromRaw(b, value);
    Replaced(b, l, x, y);
    DenyingNothing(l);
    GuardsAgree(b, GuardedRelease(b, l, x), y, answer == CL_SUCCESS);
    assert Owns(b, value) ==> value in OwnedBy(b, y);
  }

  /** `getInfoHelper` for one reference-counted object, alike in both headers.  If the query fails nothing
      changes.  Otherwise the wrapper has given up exactly what it owned and holds what was reported; the
      code of the retain is returned, and the wrapper owns its count exactly when that is success. */
  method QueryObject(rt: Runtime, code: int, value: int, answer: int, param: Wrapper) returns (err: int)
    requires FlagOk(param.binding, param.View())
    requires code == CL_SUCCESS ==>
               OwnedBy(param.binding, param.View()) + OwnedBy(param.binding, FromRaw(param.binding, value))
               <= rt.ledger.count
    modifies rt, param
    ensures code != CL_SUCCESS ==>
              err == code && rt.ledger == old(rt.ledger) && param.View() == old(param.View())
    ensures code == CL_SUCCESS ==>
              && err == (if Owns(param.binding, value) then answer else CL_SUCCESS)
              && param.View() == FromRaw(param.binding, value)
              && rt.ledger == After(Denying(old(rt.ledger), Refused(param.binding, value, answer)),
                                    Gained(param.binding, value, answer),
                                    OwnedBy(param.binding, old(param.View())))
    ensures code == CL_SUCCESS ==>
              (err == CL_SUCCESS <==> Gained(param.binding, value, answer) == OwnedBy(param.binding, param.View()))
  {
    if code != CL_SUCCESS {
      return code;
    }
    ReplacedBy(param.binding, rt.ledger, param.View(), value, answer);
    GainsItsOwn(param.binding, value, answer);
    param.AssignHandle(value, rt);
    err := CL_SUCCESS;
    if value != NULL {
      err := param.RetainHandle(rt, answer);
    }
  }

  // ---------------------------------------------------------------- the 2.0 query

  /** `vector::resize`: surplus elements are destroyed, missing ones are empty wrappers. */
  function Resized(xs: seq<Wrapped>, n: nat): (r: seq<Wrapped>)
    ensures |r| == n
  {
    if n <= |xs| then xs[..n] else xs + seq(n - |xs|, _ => EMPTY)
  }

  lemma {:induction false} EmptiesOwnNothing(b: Binding, xs: seq<Wrapped>)
    requires forall i :: 0 <= i < |xs| ==> xs[i] == EMPTY
    ensures OwnedByAll(b, xs) == multiset{}
  {
    if xs != [] {
      EmptiesOwnNothing(b, xs[..|xs| - 1]);
    }
  }

  ghost predicate TailGone(b: Binding, l: Ledger, xs: seq<Wrapped>, m: nat, now: Ledger) {
    m <= |xs| && now == After(l, multiset{}, OwnedByAll(b, xs[m..]))
  }

  lemma TailOwned(b: Binding, xs: seq<Wrapped>, m: nat)
    requires m < |xs|
    ensures OwnedByAll(b, xs[m..]) == OwnedByAll(b, xs[m + 1..]) + OwnedBy(b, xs[m])
    ensures OwnedByAll(b, xs[m..]) <= OwnedByAll(b, xs)
  {
    assert xs[m..] == [xs[m]] + xs[m + 1..];
    OwnedByConcat(b, [xs[m]], xs[m + 1..]);
    assert [xs[m]][..0] == [];
    OwnedByPrefix(b, xs, m);
  }

  lemma ReleaseAfter(b: Binding, l: Ledger, loss: multiset<int>, x: Wrapped)
    requires x.Live? && FlagOk(b, x) && loss + OwnedBy(b, x) <= l.count
    ensures Destruct(b, After(l, multiset{}, loss), x) == After(l, multiset{}, loss + OwnedBy(b, x))
  {
    var now := After(l, multiset{}, loss);
    forall h
      ensures OwnedBy(b, x)[h] <= now.count[h]
    {
      assert (loss + OwnedBy(b, x))[h] <= l.count[h];
    }
    ReleaseNet(b, now, x);
    AfterAfter(l, multiset{}, loss, multiset{}, OwnedBy(b, x));
  }

  lemma TailStep(b: Binding, l: Ledger, xs: seq<Wrapped>, m: nat, now: Ledger)
    requires Usable(b, xs) && m < |xs| && OwnedByAll(b, xs) <= l.count && TailGone(b, l, xs, m + 1, now)
    ensures TailGone(b, l, xs, m, Destruct(b, now, xs[m]))
  {
    TailOwned(b, xs, m);
    ReleaseAfter(b, l, OwnedByAll(b, xs[m + 1..]), xs[m]);
  }

  /** Destroys the elements from `n` on, last first. */
  method DestroyTail(b: Binding, rt: Runtime, xs: seq<Wrapped>, n: nat)
    requires Usable(b, xs) && n <= |xs| && OwnedByAll(b, xs) <= rt.ledger.count
    modifies rt
    ensures rt.ledger == After(old(rt.ledger), multiset{}, OwnedByAll(b, xs[n..]))
  {
    var m := |xs|;
    AfterNothing(rt.ledger);
    ghost var l := rt.ledger;
    while m > n
      invariant n <= m <= |xs|
      invariant TailGone(b, l, xs, m, rt.ledger)
    {
      m := m - 1;
      TailStep(b, l, xs, m, rt.ledger);
      rt.ledger := Destruct(b, rt.ledger, xs[m]);
    }
  }

  /** The counts granted, and those refused, to wrappers of the handles of a list. */
  function Given(b: Binding, hs: seq<int>, codes: seq<int>): multiset<int>
    requires |codes| == |hs|
  {
    if hs == [] then multiset{}
    else
      var n := |hs| - 1;
      Given(b, hs[..n], codes[..n]) + Gained(b, hs[n], codes[n])
  }

  function Denied(b: Binding, hs: seq<int>, codes: seq<int>): multiset<int>
    requires |codes| == |hs|
  {
    if hs == [] then multiset{}
    else
      var n := |hs| - 1;
      Denied(b, hs[..n], codes[..n]) + Refused(b, hs[n], codes[n])
  }

  lemma AnswerNext(b: Binding, hs: seq<int>, codes: seq<int>, i: nat)
    requires |codes| == |hs| && i < |hs|
    ensures Given(b, hs[..i + 1], codes[..i + 1]) == Given(b, hs[..i], codes[..i]) + Gained(b, hs[i], codes[i])
    ensures Denied(b, hs[..i + 1], codes[..i + 1]) == Denied(b, hs[..i], codes[..i]) + Refused(b, hs[i], codes[i])
  {
    assert hs[..i + 1][..i] == hs[..i] && codes[..i + 1][..i] == codes[..i];
  }

  lemma Regroup(m: multiset<int>, n: multiset<int>, m': multiset<int>, n': multiset<int>)
    ensures m + n + (m' + n') == m + m' + (n + n')
  {
  }

  /** What the vector should own is what it was given and what it was refused. */
  lemma {:induction false} AnswersAddUp(b: Binding, hs: seq<int>, codes: seq<int>)
    requires |codes| == |hs|
    ensures OwnedByAll(b, Wrap(b, hs)) == Given(b, hs, codes) + Denied(b, hs, codes)
  {
    if hs != [] {
      var n := |hs| - 1;
      AnswersAddUp(b, hs[..n], codes[..n]);
      assert Wrap(b, hs)[..n] == Wrap(b, hs[..n]);
      var given, denied := Gained(b, hs[n], codes[n]), Refused(b, hs[n], codes[n]);
      assert OwnedBy(b, FromRaw(b, hs[n])) == given + denied;
      Regroup(Given(b, hs[..n], codes[..n]), Denied(b, hs[..n], codes[..n]), given, denied);
    }
  }

  /** Nothing was refused exactly when every handle that carries a count was granted one. */
  lemma {:induction false} NothingDenied(b: Binding, hs: seq<int>, codes: seq<int>)
    requires |codes| == |hs|
    ensures |Denied(b, hs, codes)| == 0 <==>
            forall i :: 0 <= i < |codes| && Owns(b, hs[i]) ==> codes[i] == CL_SUCCESS
  {
    if hs != [] {
      var n := |hs| - 1;
      NothingDenied(b, hs[..n], codes[..n]);
      assert forall i :: 0 <= i < n ==> hs[..n][i] == hs[i] && codes[..n][i] == codes[i];
      assert |Refused(b, hs[n], codes[n])| == 0 <==> (Owns(b, hs[n]) ==> codes[n] == CL_SUCCESS);
    }
  }

  lemma PinnedAlive(b: Binding, hs: seq<int>, i: nat)
    requires i < |hs|
    ensures OwnedBy(b, FromRaw(b, hs[i])) <= Pins(b, hs)
  {
    var pinned := set h | h in hs && Owns(b, h);
    if Owns(b, hs[i]) {
      assert hs[i] in pinned;
    }
  }

  /** The arithmetic of the step: what is pinned and what is still held is never released. */
  lemma Slack(count: multiset<int>, gain: multiset<int>, loss: multiset<int>, less: multiset<int>,
              all: multiset<int>, pins: multiset<int>, more: multiset<int>)
    requires all + pins <= count && loss + less <= all && more <= pins
    ensures more <= count + gain - loss
    ensures loss + multiset{} <= count + gain
    ensures less <= count + (gain + more) - loss
    ensures loss + less <= count + (gain + more)
  {
    forall h
      ensures more[h] <= (count + gain - loss)[h] && loss[h] + less[h] <= count[h]
    {
      assert (all + pins)[h] <= count[h] && (loss + less)[h] <= all[h] && more[h] <= pins[h];
    }
  }

  /** One pass of the loop: retain the new object in a temporary, then move it over the old one. */
  lemma GrantedStep(b: Binding, l: Ledger, xs: seq<Wrapped>, hs: seq<int>, i: nat, gain: multiset<int>)
    requires b.v20 && Usable(b, xs) && |xs| == |hs| && i < |hs|
    requires OwnedByAll(b, xs) + Pins(b, hs) <= l.count
    ensures var x, now := FromRaw(b, hs[i]), After(l, gain, OwnedByAll(b, xs[..i]));
            GuardedRelease(b, Retain(b, now, x, true), xs[i])
            == After(l, gain + OwnedBy(b, x), OwnedByAll(b, xs[..i + 1]))
  {
    var x := FromRaw(b, hs[i]);
    var loss := OwnedByAll(b, xs[..i]);
    var more, less := OwnedBy(b, x), OwnedBy(b, xs[i]);
    OwnedByNext(b, xs, i);
    OwnedByRest(b, xs, i);
    PinnedAlive(b, hs, i);
    Slack(l.count, gain, loss, less, OwnedByAll(b, xs), Pins(b, hs), more);
    var now := After(l, gain, loss);
    RetainNet(b, now, x);
    GuardsAgree(b, now, x, true);
    AfterAfter(l, gain, loss, more, multiset{});
    assert loss + multiset{} == loss;
    var held := After(l, gain + more, loss);
    assert Retain(b, now, x, true) == held;
    ReleaseNet(b, held, xs[i]);
    AfterAfter(l, gain + more, loss, multiset{}, less);
    assert gain + more + multiset{} == gain + more;
  }

  lemma RefusedStep(b: Binding, l: Ledger, denied: multiset<int>, xs: seq<Wrapped>, hs: seq<int>, i: nat,
                    gain: multiset<int>)
    requires b.v20 && Usable(b, xs) && |xs| == |hs| && i < |hs|
    requires OwnedByAll(b, xs) + Pins(b, hs) <= l.count
    ensures var x, now := FromRaw(b, hs[i]), After(Denying(l, denied), gain, OwnedByAll(b, xs[..i]));
            GuardedRelease(b, Retain(b, now, x, false), xs[i])
            == After(Denying(l, denied + OwnedBy(b, x)), gain, OwnedByAll(b, xs[..i + 1]))
  {
    var x := FromRaw(b, hs[i]);
    var loss := OwnedByAll(b, xs[..i]);
    var more, less := OwnedBy(b, x), OwnedBy(b, xs[i]);
    OwnedByNext(b, xs, i);
    OwnedByRest(b, xs, i);
    Slack(l.count, gain, loss, less, OwnedByAll(b, xs), Pins(b, hs), multiset{});
    var now := After(Denying(l, denied), gain, loss);
    RefuseNet(b, now, x);
    GuardsAgree(b, now, x, false);
    DenyingAfter(l, denied, more, gain, loss);
    var held := After(Denying(l, denied + more), gain, loss);
    assert Retain(b, now, x, false) == held;
    assert gain + multiset{} == gain;
    ReleaseNet(b, held, xs[i]);
    AfterAfter(Denying(l, denied + more), gain, loss, multiset{}, less);
  }

  /** The statement of the loop: a retained temporary is moved over element `i`.  The temporary is then
      empty, and destroying it changes nothing. */
  method ReplaceRetained(b: Binding, rt: Runtime, param: HandleVector, i: nat, h: int, code: int)
    requires i < |param.items| && param.items[i].Live?
    modifies rt, param
    ensures param.items == old(param.items)[i := FromRaw(b, h)]
    ensures rt.ledger == GuardedRelease(b, Retain(b, old(rt.ledger), FromRaw(b, h), code == CL_SUCCESS),
                                        old(param.items)[i])
  {
    var temp := FromRaw(b, h);
    rt.ledger := Retain(b, rt.ledger, temp, code == CL_SUCCESS);
    rt.ledger := GuardedRelease(b, rt.ledger, param.items[i]);
    param.items := param.items[i := temp];
  }

  lemma OverwriteNext<T>(ws: seq<T>, ys: seq<T>, i: nat)
    requires i < |ws| == |ys|
    ensures (ws[..i] + ys[i..])[i := ws[i]] == ws[..i + 1] + ys[i + 1..]
    ensures (ws[..i] + ys[i..])[i] == ys[i]
  {
  }

  lemma OverwriteEnd<T>(ws: seq<T>, ys: seq<T>)
    requires |ws| == |ys|
    ensures ws[..|ws|] + ys[|ws|..] == ws
  {
  }

  ghost predicate Filled(b: Binding, l: Ledger, hs: seq<int>, codes: seq<int>, ys: seq<Wrapped>, i: nat, now: Ledger) {
    && i <= |ys| == |hs| == |codes|
    && now == After(Denying(l, Denied(b, hs[..i], codes[..i])),
                    Given(b, hs[..i], codes[..i]), OwnedByAll(b, ys[..i]))
  }

  /** The first `i` elements are new, the others still old. */
  ghost predicate Filling(b: Binding, l: Ledger, hs: seq<int>, codes: seq<int>, ys: seq<Wrapped>, i: nat,
                          items: seq<Wrapped>, now: Ledger) {
    Filled(b, l, hs, codes, ys, i, now) && items == Wrap(b, hs)[..i] + ys[i..]
  }

  lemma FillNext(b: Binding, l: Ledger, hs: seq<int>, codes: seq<int>, ys: seq<Wrapped>, i: nat, now: Ledger)
    requires b.v20 && Usable(b, ys) && |ys| == |hs| == |codes| && i < |hs|
    requires OwnedByAll(b, ys) + Pins(b, hs) <= l.count
    requires Filled(b, l, hs, codes, ys, i, now)
    ensures Filled(b, l, hs, codes, ys, i + 1,
                   GuardedRelease(b, Retain(b, now, FromRaw(b, hs[i]), codes[i] == CL_SUCCESS), ys[i]))
  {
    AnswerNext(b, hs, codes, i);
    var gain, denied := Given(b, hs[..i], codes[..i]), Denied(b, hs[..i], codes[..i]);
    if codes[i] == CL_SUCCESS {
      GrantedStep(b, Denying(l, denied), ys, hs, i, gain);
      assert denied + multiset{} == denied;
    } else {
      RefusedStep(b, l, denied, ys, hs, i, gain);
      assert gain + multiset{} == gain;
    }
  }

  method FillOne(b: Binding, rt: Runtime, param: HandleVector, hs: seq<int>, codes: seq<int>, i: nat,
                 ghost l: Ledger, ghost ys: seq<Wrapped>)
    requires b.v20 && Usable(b, ys) && |ys| == |hs| == |codes| && i < |hs|
    requires OwnedByAll(b, ys) + Pins(b, hs) <= l.count
    requires Filling(b, l, hs, codes, ys, i, param.items, rt.ledger)
    modifies rt, param
    ensures Filling(b, l, hs, codes, ys, i + 1, param.items, rt.ledger)
  {
    FillNext(b, l, hs, codes, ys, i, rt.ledger);
    OverwriteNext(Wrap(b, hs), ys, i);
    ReplaceRetained(b, rt, param, i, hs[i], codes[i]);
  }

  lemma FillStart(b: Binding, l: Ledger, hs: seq<int>, codes: seq<int>, ys: seq<Wrapped>)
    requires |ys| == |hs| == |codes|
    ensures Filled(b, l, hs, codes, ys, 0, l)
  {
    AfterNothing(l);
    DenyingNothing(l);
  }

  lemma FillEnd(b: Binding, l: Ledger, hs: seq<int>, codes: seq<int>, ys: seq<Wrapped>, now: Ledger)
    requires Filled(b, l, hs, codes, ys, |ys|, now)
    ensures now == After(Denying(l, Denied(b, hs, codes)),
                         Given(b, hs, codes), OwnedByAll(b, ys))
  {
    assert hs[..|hs|] == hs && codes[..|hs|] == codes && ys[..|ys|] == ys;
  }

  /** The loop: each element becomes a wrapper of the handle at its position, retained if that is granted. */
  method FillRetained(b: Binding, rt: Runtime, param: HandleVector, hs: seq<int>, codes: seq<int>)
    requires b.v20 && Usable(b, param.items) && |param.items| == |hs| == |codes|
    requires OwnedByAll(b, param.items) + Pins(b, hs) <= rt.ledger.count
    modifies rt, param
    ensures param.items == Wrap(b, hs)
    ensures rt.ledger == After(Denying(old(rt.ledger), Denied(b, hs, codes)),
                               Given(b, hs, codes), OwnedByAll(b, old(param.items)))
  {
    ghost var l, ys := rt.ledger, param.items;
    FillStart(b, l, hs, codes, ys);
    for i := 0 to |hs|
      invariant Filling(b, l, hs, codes, ys, i, param.items, rt.ledger)
    {
      FillOne(b, rt, param, hs, codes, i, l, ys);
    }
    OverwriteEnd(Wrap(b, hs), ys);
    FillEnd(b, l, hs, codes, ys, rt.ledger);
  }

  /** The ledger once the vector has its new length. */
  function AfterResize(b: Binding, l: Ledger, xs: seq<Wrapped>, n: nat): Ledger {
    if n < |xs| then After(l, multiset{}, OwnedByAll(b, xs[n..])) else l
  }

  /** `vector::resize` on a vector of wrappers. */
  method ResizeVector(b: Binding, rt: Runtime, param: HandleVector, n: nat)
    requires Usable(b, param.items) && OwnedByAll(b, param.items) <= rt.ledger.count
    modifies rt, param
    ensures param.items == Resized(old(param.items), n)
    ensures rt.ledger == AfterResize(b, old(rt.ledger), old(param.items), n)
  {
    if n < |param.items| {
      DestroyTail(b, rt, param.items, n);
    }
    param.items := Resized(param.items, n);
  }

  lemma AddsNothing(m: multiset<int>, more: multiset<int>)
    ensures m == m + more <==> |more| == 0
  {
    assert |m + more| == |m| + |more|;
    assert |more| == 0 ==> more == multiset{};
    assert m + multiset{} == m;
  }

  lemma GivenIsAll(b: Binding, hs: seq<int>, codes: seq<int>)
    requires |codes| == |hs|
    ensures Given(b, hs, codes) == OwnedByAll(b, Wrap(b, hs)) <==>
            forall i :: 0 <= i < |codes| && Owns(b, hs[i]) ==> codes[i] == CL_SUCCESS
  {
    AnswersAddUp(b, hs, codes);
    NothingDenied(b, hs, codes);
    AddsNothing(Given(b, hs, codes), Denied(b, hs, codes));
  }

  lemma LossInTwo(l: Ledger, gain: multiset<int>, lost: multiset<int>, kept: multiset<int>, all: multiset<int>)
    requires all == kept + lost && all <= l.count
    ensures After(After(l, multiset{}, lost), gain, kept) == After(l, gain, all)
  {
    assert lost + kept == all;
    assert lost + kept <= l.count + multiset{};
    AfterAfter(l, multiset{}, lost, gain, kept);
    assert multiset{} + gain == gain;
  }

  lemma ResizedShorter(b: Binding, xs: seq<Wrapped>, n: nat)
    requires Usable(b, xs) && n < |xs|
    ensures Usable(b, Resized(xs, n))
    ensures OwnedByAll(b, xs) == OwnedByAll(b, Resized(xs, n)) + OwnedByAll(b, xs[n..])
  {
    OwnedByPrefix(b, xs, n);
  }

  lemma ResizedLonger(b: Binding, xs: seq<Wrapped>, n: nat)
    requires Usable(b, xs) && |xs| <= n
    ensures Usable(b, Resized(xs, n)) && OwnedByAll(b, Resized(xs, n)) == OwnedByAll(b, xs)
  {
    var pad := seq(n - |xs|, _ => EMPTY);
    EmptiesOwnNothing(b, pad);
    OwnedByConcat(b, xs, pad);
    assert n == |xs| ==> Resized(xs, n) == xs;
  }

  lemma ResizedOwned(b: Binding, l: Ledger, xs: seq<Wrapped>, hs: seq<int>)
    requires Usable(b, xs) && OwnedByAll(b, xs) + Pins(b, hs) <= l.count
    ensures var ys := Resized(xs, |hs|);
            Usable(b, ys) && OwnedByAll(b, ys) + Pins(b, hs) <= AfterResize(b, l, xs, |hs|).count
    ensures OwnedByAll(b, xs) <= l.count
    ensures OwnedByAll(b, xs) == OwnedByAll(b, Resized(xs, |hs|))
                                 + if |hs| < |xs| then OwnedByAll(b, xs[|hs|..]) else multiset{}
  {
    if |hs| < |xs| {
      ResizedShorter(b, xs, |hs|);
      Shrink(l.count, OwnedByAll(b, Resized(xs, |hs|)), OwnedByAll(b, xs[|hs|..]), Pins(b, hs));
    } else {
      ResizedLonger(b, xs, |hs|);
    }
    PartOf(OwnedByAll(b, xs), Pins(b, hs), l.count);
  }

  /** Resizing and then releasing what is left releases everything the vector held, once. */
  lemma ResizeTotal(b: Binding, l: Ledger, xs: seq<Wrapped>, hs: seq<int>, gain: multiset<int>)
    requires Usable(b, xs) && OwnedByAll(b, xs) + Pins(b, hs) <= l.count
    ensures After(AfterResize(b, l, xs, |hs|), gain, OwnedByAll(b, Resized(xs, |hs|)))
         == After(l, gain, OwnedByAll(b, xs))
  {
    ResizedOwned(b, l, xs, hs);
    if |hs| < |xs| {
      LossInTwo(l, gain, OwnedByAll(b, xs[|hs|..]), OwnedByAll(b, Resized(xs, |hs|)), OwnedByAll(b, xs));
    } else {
      assert OwnedByAll(b, xs) == OwnedByAll(b, Resized(xs, |hs|));
    }
  }

  lemma ResizeAnswered(b: Binding, l: Ledger, xs: seq<Wrapped>, hs: seq<int>, codes: seq<int>)
    requires |codes| == |hs| && Usable(b, xs) && OwnedByAll(b, xs) + Pins(b, hs) <= l.count
    ensures var given, denied := Given(b, hs, codes), Denied(b, hs, codes);
            After(Denying(AfterResize(b, l, xs, |hs|), denied), given, OwnedByAll(b, Resized(xs, |hs|)))
            == After(Denying(l, denied), given, OwnedByAll(b, xs))
  {
    var given, denied := Given(b, hs, codes), Denied(b, hs, codes);
    ResizeTotal(b, Denying(l, denied), xs, hs, given);
    assert AfterResize(b, Denying(l, denied), xs, |hs|) == Denying(AfterResize(b, l, xs, |hs|), denied);
  }

  /** `getInfoHelper` of the 2.0 header.  If a query fails nothing changes.  Otherwise the code is success
      and every object held before has been released exactly once, for any two lengths and any overlap,
      provided what is queried keeps its results alive, and no call hits a dead object.  Each slot holds
      the handle reported for it and owns one new count of it unless the retain was refused, of which the
      caller learns nothing; so all own theirs exactly when nothing that carries a count was refused. */
  method QueryVector20(b: Binding, rt: Runtime, size: Reply, data: Reply, codes: seq<int>, param: HandleVector?)
    returns (err: int)
    requires b.v20 && (param != null ==> Usable(b, param.items))
    requires data.Values? ==> |codes| == |data.handles|
    requires size.Values? && data.Values? && param != null ==>
               OwnedByAll(b, param.items) + Pins(b, data.handles) <= rt.ledger.count
    requires size.Failed? ==> size.code != CL_SUCCESS
    requires data.Failed? ==> data.code != CL_SUCCESS
    modifies rt, param
    ensures size.Failed? ==> err == size.code
    ensures size.Values? && data.Failed? ==> err == data.code
    ensures err != CL_SUCCESS || param == null ==>
              rt.ledger == old(rt.ledger) && (param != null ==> param.items == old(param.items))
    ensures err == CL_SUCCESS <==> size.Values? && data.Values?
    ensures err == CL_SUCCESS && param != null ==>
              && param.items == Wrap(b, data.handles)
              && rt.ledger == After(Denying(old(rt.ledger), Denied(b, data.handles, codes)),
                                    Given(b, data.handles, codes),
                                    OwnedByAll(b, old(param.items)))
    ensures err == CL_SUCCESS && param != null ==>
              (Given(b, data.handles, codes) == OwnedByAll(b, param.items) <==>
               forall i :: 0 <= i < |codes| && Owns(b, data.handles[i]) ==> codes[i] == CL_SUCCESS)
  {
    if size.Failed? {
      return size.code;
    }
    if data.Failed? {
      return data.code;
    }
    if param != null {
      ghost var l, xs, hs := rt.ledger, param.items, data.handles;
      ResizedOwned(b, l, xs, hs);
      ResizeVector(b, rt, param, |data.handles|);
      FillRetained(b, rt, param, data.handles, codes);
      ResizeAnswered(b, l, xs, hs, codes);
      GivenIsAll(b, hs, codes);
    }
    err := CL_SUCCESS;
  }

  // ---------------------------------------------------------------- the 1.2 query

  /** Index of the first element whose retain the runtime refuses, or the length. */
  function FirstRefused(b: Binding, hs: seq<int>, codes: seq<int>): (k: nat)
    requires |codes| == |hs|
    ensures k <= |hs|
    ensures forall j :: 0 <= j < k ==> Owns(b, hs[j]) ==> codes[j] == CL_SUCCESS
    ensures k < |hs| ==> Owns(b, hs[k]) && codes[k] != CL_SUCCESS
  {
    if hs == [] then 0
    else if Owns(b, hs[0]) && codes[0] != CL_SUCCESS then 0
    else 1 + FirstRefused(b, hs[1..], codes[1..])
  }

  /** The old elements are gone and the first `i` new ones have their counts. */
  ghost predicate Retained(b: Binding, l: Ledger, loss: multiset<int>, hs: seq<int>, i: nat, now: Ledger) {
    i <= |hs| && now == After(l, OwnedByAll(b, Wrap(b, hs)[..i]), loss)
  }

  lemma RetainedNext(b: Binding, l: Ledger, loss: multiset<int>, hs: seq<int>, i: nat, now: Ledger)
    requires i < |hs| && loss + Pins(b, hs) <= l.count && Retained(b, l, loss, hs, i, now)
    ensures Retained(b, l, loss, hs, i + 1, GuardedRetain(b, now, FromRaw(b, hs[i]), true))
  {
    var ws := Wrap(b, hs);
    var gain, more := OwnedByAll(b, ws[..i]), OwnedBy(b, ws[i]);
    OwnedByNext(b, ws, i);
    PinnedAlive(b, hs, i);
    assert loss + multiset{} == loss;
    Slack(l.count, gain, loss, multiset{}, loss, Pins(b, hs), more);
    RetainNet(b, After(l, gain, loss), ws[i]);
    AfterAfter(l, gain, loss, more, multiset{});
  }

  lemma StoredNext(b: Binding, l: Ledger, loss: multiset<int>, hs: seq<int>, i: nat, now: Ledger)
    requires !b.v20 && i < |hs| && loss + Pins(b, hs) <= l.count && Retained(b, l, loss, hs, i, now)
    ensures hs[i] == NULL ==> Retained(b, l, loss, hs, i + 1, now)
    ensures hs[i] != NULL ==> Retained(b, l, loss, hs, i + 1, Retain(b, now, FromRaw(b, hs[i]), true))
  {
    RetainedNext(b, l, loss, hs, i, now);
  }

  /** Destroys all elements, as `assign` does before it stores the new ones. */
  method DestroyAll(b: Binding, rt: Runtime, xs: seq<Wrapped>, ghost hs: seq<int>)
    requires Usable(b, xs) && OwnedByAll(b, xs) + Pins(b, hs) <= rt.ledger.count
    modifies rt
    ensures Retained(b, old(rt.ledger), OwnedByAll(b, xs), hs, 0, rt.ledger)
  {
    assert OwnedByAll(b, xs) <= OwnedByAll(b, xs) + Pins(b, hs);
    assert xs[0..] == xs;
    DestroyTail(b, rt, xs, 0);
  }

  /** What is refused first, if anything. */
  function FirstDenied(b: Binding, hs: seq<int>, codes: seq<int>): multiset<int>
    requires |codes| == |hs|
  {
    var k := FirstRefused(b, hs, codes);
    if k < |hs| then multiset{hs[k]} else multiset{}
  }

  lemma RefusedStored(b: Binding, l: Ledger, loss: multiset<int>, hs: seq<int>, i: nat, now: Ledger)
    requires !b.v20 && i < |hs| && Owns(b, hs[i]) && Retained(b, l, loss, hs, i, now)
    ensures Retained(b, Denying(l, multiset{hs[i]}), loss, hs, i, Retain(b, now, FromRaw(b, hs[i]), false))
  {
    var gain := OwnedByAll(b, Wrap(b, hs)[..i]);
    RefuseNet(b, now, FromRaw(b, hs[i]));
    DenyingNothing(l);
    DenyingAfter(l, multiset{}, multiset{hs[i]}, gain, loss);
    assert multiset{} + multiset{hs[i]} == multiset{hs[i]};
  }

  /** The loop that retains the stored handles, up to the first refusal. */
  method RetainStored(b: Binding, rt: Runtime, hs: seq<int>, codes: seq<int>, ghost l: Ledger,
                      ghost loss: multiset<int>)
    returns (err: int)
    requires !b.v20 && |codes| == |hs| && loss + Pins(b, hs) <= l.count
    requires Retained(b, l, loss, hs, 0, rt.ledger)
    modifies rt
    ensures var k := FirstRefused(b, hs, codes);
            && Retained(b, Denying(l, FirstDenied(b, hs, codes)), loss, hs, k, rt.ledger)
            && err == (if k < |codes| then codes[k] else CL_SUCCESS)
  {
    ghost var k := FirstRefused(b, hs, codes);
    var i := 0;
    while i < |hs|
      invariant 0 <= i <= k
      invariant Retained(b, l, loss, hs, i, rt.ledger)
    {
      if Owns(b, hs[i]) && codes[i] != CL_SUCCESS {
        assert i == k;
        RefusedStored(b, l, loss, hs, i, rt.ledger);
        rt.ledger := Retain(b, rt.ledger, FromRaw(b, hs[i]), false);
        return codes[i];
      }
      assert i != k;
      StoredNext(b, l, loss, hs, i, rt.ledger);
      if hs[i] != NULL {
        rt.ledger := Retain(b, rt.ledger, FromRaw(b, hs[i]), true);
      }
      i := i + 1;
    }
    DenyingNothing(l);
    err := CL_SUCCESS;
  }

  /** `getInfoHelper` of the 1.2 header: the raw handles are stored first, without counts, and retained
      one by one afterwards.  If the first refusal is at `k`, exactly the elements before `k` got their
      counts, the vector holds all of them, and that code is returned. */
  method QueryVector12(b: Binding, rt: Runtime, size: Reply, data: Reply, codes: seq<int>, param: HandleVector)
    returns (err: int)
    requires !b.v20 && Usable(b, param.items)
    requires data.Values? ==> |codes| == |data.handles|
    requires size.Values? && data.Values? ==>
               OwnedByAll(b, param.items) + Pins(b, data.handles) <= rt.ledger.count
    requires size.Failed? ==> size.code != CL_SUCCESS
    requires data.Failed? ==> data.code != CL_SUCCESS
    modifies rt, param
    ensures size.Failed? ==> err == size.code
    ensures size.Values? && data.Failed? ==> err == data.code
    ensures size.Failed? || data.Failed? ==> rt.ledger == old(rt.ledger) && param.items == old(param.items)
    ensures size.Values? && data.Values? ==>
              var k := FirstRefused(b, data.handles, codes);
              && param.items == Wrap(b, data.handles)
              && err == (if k < |codes| then codes[k] else CL_SUCCESS)
              && rt.ledger == After(Denying(old(rt.ledger), FirstDenied(b, data.handles, codes)),
                                    OwnedByAll(b, param.items[..k]), OwnedByAll(b, old(param.items)))
  {
    if size.Failed? {
      return size.code;
    }
    if data.Failed? {
      return data.code;
    }
    ghost var l, loss := rt.ledger, OwnedByAll(b, param.items);
    DestroyAll(b, rt, param.items, data.handles);
    param.items := Wrap(b, data.handles);
    err := RetainStored(b, rt, data.handles, codes, l, loss);
  }

  /** How many elements of a list own a count. */
  function Owners(b: Binding, xs: seq<Wrapped>): nat {
    |OwnedByAll(b, xs)|
  }

  /** The elements of a list that carry a count, in order. */
  function Counted(b: Binding, hs: seq<int>): seq<int> {
    if hs == [] then []
    else Counted(b, hs[..|hs| - 1]) + if Owns(b, hs[|hs| - 1]) then [hs[|hs| - 1]] else []
  }

  lemma {:induction false} OwnersAreCounted(b: Binding, hs: seq<int>)
    ensures OwnedByAll(b, Wrap(b, hs)) == multiset(Counted(b, hs))
  {
    if hs != [] {
      var n := |hs| - 1;
      OwnersAreCounted(b, hs[..n]);
      assert Wrap(b, hs)[..n] == Wrap(b, hs[..n]);
    }
  }

  lemma {:induction false} CountedHead(b: Binding, hs: seq<int>)
    requires hs != [] && Owns(b, hs[0])
    ensures |Counted(b, hs)| > 0
  {
    if |hs| > 1 {
      assert hs[..|hs| - 1][0] == hs[0];
      CountedHead(b, hs[..|hs| - 1]);
    }
  }

  /** After the 1.2 query, the counts the vector should own exceed those it was given by exactly the
      number of counted elements from the first refusal to the end: nothing when none was refused. */
  lemma QueryDeficit(b: Binding, hs: seq<int>, codes: seq<int>)
    requires |codes| == |hs|
    ensures var k, ws := FirstRefused(b, hs, codes), Wrap(b, hs);
            && Owners(b, ws) == Owners(b, ws[..k]) + Owners(b, ws[k..])
            && Owners(b, ws[k..]) == |Counted(b, hs[k..])|
            && (Owners(b, ws[k..]) == 0 <==> k == |hs|)
  {
    var k, ws := FirstRefused(b, hs, codes), Wrap(b, hs);
    OwnedByPrefix(b, ws, k);
    assert Wrap(b, hs[k..]) == ws[k..];
    OwnersAreCounted(b, hs[k..]);
    if k < |hs| {
      assert hs[k..][0] == hs[k];
      CountedHead(b, hs[k..]);
    }
  }

  // ---------------------------------------------------------------- createKernels

  /** The runtime creates the kernels of a program, each with one count that belongs to the caller. */
  function WithCreated(l: Ledger, hs: seq<int>): Ledger {
    l.(count := l.count + multiset(hs), created := l.created + multiset(hs))
  }

  predicate NewKernels(l: Ledger, hs: seq<int>) {
    && (forall i :: 0 <= i < |hs| ==> hs[i] != NULL && hs[i] !in l.count)
    && (forall i, j :: 0 <= i < j < |hs| ==> hs[i] != hs[j])
  }

  lemma {:induction false} AllOwned(b: Binding, hs: seq<int>)
    requires !b.device && forall i :: 0 <= i < |hs| ==> hs[i] != NULL
    ensures OwnedByAll(b, Wrap(b, hs)) == multiset(hs)
  {
    if hs != [] {
      var n := |hs| - 1;
      AllOwned(b, hs[..n]);
      assert Wrap(b, hs)[..n] == Wrap(b, hs[..n]);
      assert hs == hs[..n] + [hs[n]];
    }
  }

  lemma CreatedArePinned(b: Binding, l: Ledger, hs: seq<int>, held: multiset<int>)
    requires NewKernels(l, hs) && held <= l.count
    ensures held + Pins(b, hs) <= WithCreated(l, hs).count
  {
    var pins := set h | h in hs && Owns(b, h);
    forall h
      ensures (held + multiset(pins))[h] <= (l.count + multiset(hs))[h]
    {
      assert h in pins ==> h in hs;
      assert h in hs ==> h in multiset(hs);
    }
  }

  /** The first `i` stored handles have been copied. */
  ghost predicate Copied(b: Binding, l: Ledger, loss: multiset<int>, hs: seq<int>, codes: seq<int>, i: nat,
                         now: Ledger) {
    && i <= |hs| == |codes|
    && now == After(Denying(l, Denied(b, hs[..i], codes[..i])),
                    Given(b, hs[..i], codes[..i]), loss)
  }

  lemma CopiedEnd(b: Binding, l: Ledger, loss: multiset<int>, hs: seq<int>, codes: seq<int>, now: Ledger)
    requires Copied(b, l, loss, hs, codes, |hs|, now)
    ensures now == After(Denying(l, Denied(b, hs, codes)),
                         Given(b, hs, codes), loss)
  {
    assert hs[..|hs|] == hs && codes[..|hs|] == codes;
  }

  lemma WrapNext(b: Binding, hs: seq<int>, i: nat)
    requires i < |hs|
    ensures Wrap(b, hs)[..i + 1] == Wrap(b, hs)[..i] + [FromRaw(b, hs[i])]
  {
  }

  lemma CopiedNext(b: Binding, l: Ledger, loss: multiset<int>, hs: seq<int>, codes: seq<int>, i: nat, now: Ledger)
    requires loss + Pins(b, hs) <= l.count && i < |hs| && Copied(b, l, loss, hs, codes, i, now)
    ensures Copied(b, l, loss, hs, codes, i + 1, GuardedRetain(b, now, FromRaw(b, hs[i]), codes[i] == CL_SUCCESS))
  {
    AnswerNext(b, hs, codes, i);
    var gain, denied := Given(b, hs[..i], codes[..i]), Denied(b, hs[..i], codes[..i]);
    var more := OwnedBy(b, FromRaw(b, hs[i]));
    assert loss + multiset{} == loss && denied + multiset{} == denied && gain + multiset{} == gain;
    if codes[i] == CL_SUCCESS {
      PinnedAlive(b, hs, i);
      Slack(l.count, gain, loss, multiset{}, loss, Pins(b, hs), more);
      RetainNet(b, now, FromRaw(b, hs[i]));
      AfterAfter(Denying(l, denied), gain, loss, more, multiset{});
    } else {
      RefuseNet(b, now, FromRaw(b, hs[i]));
      DenyingAfter(l, denied, more, gain, loss);
    }
  }

  /** Copies the array element by element; the originals are not wrapper objects and stay as they are. */
  method CopyStored(b: Binding, rt: Runtime, hs: seq<int>, codes: seq<int>, kernels: HandleVector, ghost l: Ledger,
                    ghost loss: multiset<int>)
    requires !b.v20 && |codes| == |hs| && loss + Pins(b, hs) <= l.count && Copied(b, l, loss, hs, codes, 0, rt.ledger)
    modifies rt, kernels
    ensures kernels.items == Wrap(b, hs)
    ensures rt.ledger == After(Denying(l, Denied(b, hs, codes)),
                               Given(b, hs, codes), loss)
  {
    kernels.items := [];
    for i := 0 to |hs|
      invariant kernels.items == Wrap(b, hs)[..i]
      invariant Copied(b, l, loss, hs, codes, i, rt.ledger)
    {
      CopiedNext(b, l, loss, hs, codes, i, rt.ledger);
      WrapNext(b, hs, i);
      var (l', copy) := CopyConstruct(b, rt.ledger, FromRaw(b, hs[i]), codes[i] == CL_SUCCESS);
      rt.ledger := l';
      kernels.items := kernels.items + [copy];
    }
    assert Wrap(b, hs)[..|hs|] == Wrap(b, hs);
    CopiedEnd(b, l, loss, hs, codes, rt.ledger);
  }

  /** `createKernels` of the 1.2 header copies the vector from an array of raw handles read as wrapper
      objects, which are never destroyed: besides the count each copy is granted, the count each kernel
      was created with stays and no wrapper will ever release it. */
  method CreateKernels12(b: Binding, rt: Runtime, size: Reply, data: Reply, codes: seq<int>, kernels: HandleVector)
    returns (err: int)
    requires !b.v20 && !b.device && Usable(b, kernels.items)
    requires OwnedByAll(b, kernels.items) <= rt.ledger.count
    requires data.Values? ==> NewKernels(rt.ledger, data.handles) && |codes| == |data.handles|
    requires size.Failed? ==> size.code != CL_SUCCESS
    requires data.Failed? ==> data.code != CL_SUCCESS
    modifies rt, kernels
    ensures err == (if size.Failed? then size.code else if data.Failed? then data.code else CL_SUCCESS)
    ensures err != CL_SUCCESS ==> rt.ledger == old(rt.ledger) && kernels.items == old(kernels.items)
    ensures err == CL_SUCCESS ==>
              && kernels.items == Wrap(b, data.handles)
              && OwnedByAll(b, kernels.items) == multiset(data.handles)
              && rt.ledger == After(Denying(WithCreated(old(rt.ledger), data.handles),
                                            Denied(b, data.handles, codes)),
                                    Given(b, data.handles, codes),
                                    OwnedByAll(b, old(kernels.items)))
  {
    if size.Failed? {
      return size.code;
    }
    if data.Failed? {
      return data.code;
    }
    var hs := data.handles;
    ghost var l, loss := WithCreated(rt.ledger, hs), OwnedByAll(b, kernels.items);
    CreatedArePinned(b, rt.ledger, hs, loss);
    rt.ledger := WithCreated(rt.ledger, hs);
    DestroyAll(b, rt, kernels.items, hs);
    DenyingNothing(l);
    CopyStored(b, rt, hs, codes, kernels, l, loss);
    AllOwned(b, hs);
    err := CL_SUCCESS;
  }

  ghost predicate ReleasedTo(b: Binding, l: Ledger, ys: seq<Wrapped>, i: nat, now: Ledger) {
    i <= |ys| && now == After(l, multiset{}, OwnedByAll(b, ys[..i]))
  }

  ghost predicate Taking(b: Binding, l: Ledger, hs: seq<int>, ys: seq<Wrapped>, i: nat, items: seq<Wrapped>,
                         now: Ledger) {
    i <= |hs| == |ys| && ReleasedTo(b, l, ys, i, now) && items == Wrap(b, hs)[..i] + ys[i..]
  }

  lemma ReleasedNext(b: Binding, l: Ledger, ys: seq<Wrapped>, i: nat, now: Ledger)
    requires Usable(b, ys) && i < |ys| && OwnedByAll(b, ys) <= l.count && ReleasedTo(b, l, ys, i, now)
    ensures ReleasedTo(b, l, ys, i + 1, GuardedRelease(b, now, ys[i]))
  {
    OwnedByNext(b, ys, i);
    OwnedByRest(b, ys, i);
    ReleaseAfter(b, l, OwnedByAll(b, ys[..i]), ys[i]);
    GuardsAgree(b, now, ys[i], true);
  }

  method TakeOne(b: Binding, rt: Runtime, kernels: HandleVector, hs: seq<int>, i: nat, ghost l: Ledger,
                 ghost ys: seq<Wrapped>)
    requires Usable(b, ys) && i < |hs| == |ys| && OwnedByAll(b, ys) <= l.count
    requires Taking(b, l, hs, ys, i, kernels.items, rt.ledger)
    modifies rt, kernels
    ensures Taking(b, l, hs, ys, i + 1, kernels.items, rt.ledger)
  {
    OverwriteNext(Wrap(b, hs), ys, i);
    ReleasedNext(b, l, ys, i, rt.ledger);
    rt.ledger := GuardedRelease(b, rt.ledger, kernels.items[i]);
    kernels.items := kernels.items[i := FromRaw(b, hs[i])];
  }

  /** The loop: a temporary that takes over the handle is moved over element `i`. */
  method FillTaken(b: Binding, rt: Runtime, kernels: HandleVector, hs: seq<int>)
    requires b.v20 && Usable(b, kernels.items) && |kernels.items| == |hs|
    requires OwnedByAll(b, kernels.items) <= rt.ledger.count
    modifies rt, kernels
    ensures kernels.items == Wrap(b, hs)
    ensures rt.ledger == After(old(rt.ledger), multiset{}, OwnedByAll(b, old(kernels.items)))
  {
    ghost var l, ys := rt.ledger, kernels.items;
    AfterNothing(l);
    for i := 0 to |hs|
      invariant Taking(b, l, hs, ys, i, kernels.items, rt.ledger)
    {
      TakeOne(b, rt, kernels, hs, i, l, ys);
    }
    OverwriteEnd(Wrap(b, hs), ys);
    assert ys[..|hs|] == ys;
  }

  /** `createKernels` of the 2.0 header hands the creation count of each kernel to one wrapper; only a
      caller that passes no vector loses them. */
  method CreateKernels20(b: Binding, rt: Runtime, size: Reply, data: Reply, kernels: HandleVector?) returns (err: int)
    requires b.v20 && !b.device
    requires kernels != null ==> Usable(b, kernels.items) && OwnedByAll(b, kernels.items) <= rt.ledger.count
    requires data.Values? ==> NewKernels(rt.ledger, data.handles)
    requires size.Failed? ==> size.code != CL_SUCCESS
    requires data.Failed? ==> data.code != CL_SUCCESS
    modifies rt, kernels
    ensures err == (if size.Failed? then size.code else if data.Failed? then data.code else CL_SUCCESS)
    ensures err != CL_SUCCESS ==>
              rt.ledger == old(rt.ledger) && (kernels != null ==> kernels.items == old(kernels.items))
    ensures err == CL_SUCCESS && kernels == null ==> rt.ledger == WithCreated(old(rt.ledger), data.handles)
    ensures err == CL_SUCCESS && kernels != null ==>
              && kernels.items == Wrap(b, data.handles)
              && OwnedByAll(b, kernels.items) == multiset(data.handles)
              && rt.ledger == After(WithCreated(old(rt.ledger), data.handles),
                                    multiset{}, OwnedByAll(b, old(kernels.items)))
  {
    if size.Failed? {
      return size.code;
    }
    if data.Failed? {
      return data.code;
    }
    var hs := data.handles;
    ghost var l0 := rt.ledger;
    rt.ledger := WithCreated(rt.ledger, hs);
    if kernels != null {
      ghost var l, xs := rt.ledger, kernels.items;
      CreatedArePinned(b, l0, hs, OwnedByAll(b, xs));
      ResizedOwned(b, l, xs, hs);
      ResizeVector(b, rt, kernels, |hs|);
      FillTaken(b, rt, kernels, hs);
      ResizeTotal(b, l, xs, hs, multiset{});
      AllOwned(b, hs);
    }
    err := CL_SUCCESS;
  }

  lemma {:induction false} OnceInDistinct(hs: seq<int>, i: nat)
    requires i < |hs| && forall j, k :: 0 <= j < k < |hs| ==> hs[j] != hs[k]
    ensures multiset(hs)[hs[i]] == 1
  {
    assert hs == hs[..i] + [hs[i]] + hs[i + 1..];
    assert hs[i] !in hs[..i] && hs[i] !in hs[i + 1..];
  }

  /** The kernels counted against their owners, for every number of kernels; `granted` are the retains
      granted to the copies of the 1.2 header.  In 2.0 each kernel ends with the one count its wrapper
      owns.  In 1.2 each has one more for every granted copy, so as many counts as were granted, which is
      all of them unless some were refused, are owned by nobody. */
  lemma KernelCounts(l: Ledger, hs: seq<int>, old': multiset<int>, granted: multiset<int>)
    requires NewKernels(l, hs) && old' <= l.count && granted <= multiset(hs)
    ensures var l12 := After(WithCreated(l, hs), granted, old');
            var l20 := After(WithCreated(l, hs), multiset{}, old');
            && l20.count == l.count - old' + multiset(hs)
            && l12.count == l20.count + granted && |l12.count| == |l20.count| + |granted|
            && (granted == multiset(hs) <==> |l12.count| == |l20.count| + |hs|)
            && (forall i :: 0 <= i < |hs| ==> l20.count[hs[i]] == 1 && l12.count[hs[i]] == 1 + granted[hs[i]])
  {
    var l12, l20 := After(WithCreated(l, hs), granted, old'), After(WithCreated(l, hs), multiset{}, old');
    forall h
      ensures l12.count[h] == (l20.count + granted)[h]
      ensures l20.count[h] == (l.count - old' + multiset(hs))[h]
    {
      assert old'[h] <= l.count[h];
    }
    assert l20.count == l.count - old' + multiset(hs);
    assert l12.count == l20.count + granted;
    var rest := multiset(hs) - granted;
    assert multiset(hs) == granted + rest;
    assert |rest| == 0 ==> rest == multiset{};
    forall i | 0 <= i < |hs|
      ensures multiset(hs)[hs[i]] == 1
    {
      OnceInDistinct(hs, i);
    }
  }
}
