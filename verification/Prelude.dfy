/** Datatypes and small facts shared by the models. */
module Prelude {
  datatype Option<+T> = None | Some(value: T)

  /** The null handle: every `cl_context`, `cl_kernel`, ... is a pointer, and 0 stands for NULL. */
  const NULL := 0

  /** `CL_SUCCESS`; every other code is an error. */
  const CL_SUCCESS := 0

  /** The sum of `f` over the elements. */
  function SumOf<T>(f: T -> nat, s: seq<T>): nat {
    if s == [] then 0 else f(s[0]) + SumOf(f, s[1..])
  }

  lemma {:induction false} SumOfUpdate<T>(f: T -> nat, s: seq<T>, i: nat, x: T)
    requires i < |s|
    ensures SumOf(f, s[i := x]) + f(s[i]) == SumOf(f, s) + f(x)
  {
    if i > 0 {
      assert s[i := x][1..] == s[1..][i - 1 := x];
      SumOfUpdate(f, s[1..], i - 1, x);
    } else {
      assert s[0 := x][1..] == s[1..];
    }
  }

  /** `out` passes from what is going on to what is done. */
  lemma PassOn<T>(all: seq<T>, done: seq<T>, out: seq<T>, now: seq<T>, rest: seq<T>, now': seq<T>, rest': seq<T>)
    requires done + now + rest == all && out + (now' + rest') == now + rest
    ensures done + out + now' + rest' == all
  {
    assert done + now + rest == done + (now + rest);
    assert done + out + now' + rest' == done + (out + (now' + rest'));
  }

  lemma SmallMod(x: nat, m: nat)
    requires x < m
    ensures x % m == x
  {
  }
}
