/**
Programs over wrapper objects: a pool of objects that are created, copied, moved, assigned and destroyed as
`RefCounts.Do` says, so that the conservation laws proved there are about these objects.
*/
module WrapperPools {
  import opened Prelude
  import opened RefCounts
  import opened WrapperObjects

  function CodeFor(granted: bool): int {
    if granted then CL_SUCCESS else -1
  }

  ghost function Objects(pool: seq<Wrapper?>): set<Wrapper> {
    set x: Wrapper | x in pool
  }

  /** The objects are those of the world, each of its own; a destroyed one is gone. */
  ghost predicate Shows(b: Binding, pool: seq<Wrapper?>, slots: seq<Wrapped>)
    reads Objects(pool)
  {
    && |pool| == |slots|
    && (forall i :: 0 <= i < |pool| ==>
          if pool[i] == null then slots[i] == Dead else pool[i].binding == b && pool[i].View() == slots[i])
    && (forall i, j :: 0 <= i < j < |pool| && pool[i] != null ==> pool[i] != pool[j])
  }

  method Construct(b: Binding, rt: Runtime, pool: seq<Wrapper?>, op: Op, ghost w: World) returns (x: Wrapper)
    requires Shows(b, pool, w.slots) && rt.ledger == w.ledger && Legal(b, w, op)
    requires op.NewEmpty? || op.NewFromRaw? || op.NewRetained? || op.NewCopy?
    modifies rt
    ensures fresh(x) && x.binding == b && rt.ledger == Do(b, w, op).ledger
    ensures Do(b, w, op).slots == w.slots + [x.View()]
  {
    if op.NewEmpty? {
      x := new Wrapper(b);
    } else if op.NewFromRaw? {
      x := new Wrapper.FromHandle(b, rt, op.h, false, CL_SUCCESS);
    } else if op.NewRetained? {
      x := new Wrapper.FromHandle(b, rt, op.h, true, CodeFor(op.granted));
      GuardsAgree(b, w.ledger, x.View(), op.granted);
    } else {
      x := new Wrapper.CopyOf(pool[op.j], rt, CodeFor(op.granted));
    }
  }

  method Update(b: Binding, rt: Runtime, pool: seq<Wrapper?>, op: Op, ghost w: World)
    requires Shows(b, pool, w.slots) && rt.ledger == w.ledger && Legal(b, w, op)
    requires op.AssignCopy? || op.AssignMove? || op.AssignRaw?
    modifies rt, Objects(pool)
    ensures Shows(b, pool, Do(b, w, op).slots) && rt.ledger == Do(b, w, op).ledger
  {
    if op.AssignCopy? {
      pool[op.i].AssignFrom(pool[op.j], rt, CodeFor(op.granted));
    } else if op.AssignMove? {
      pool[op.i].MoveFrom(pool[op.j], rt);
    } else {
      pool[op.i].AssignHandle(op.h, rt);
    }
  }

  method Outside(b: Binding, rt: Runtime, op: Op, ghost w: World)
    requires rt.ledger == w.ledger && Legal(b, w, op)
    requires op.RuntimeCreate? || op.UserRetain? || op.UserRelease? || op.Pin? || op.Unpin?
    modifies rt
    ensures rt.ledger == Do(b, w, op).ledger && Do(b, w, op).slots == w.slots
  {
    if op.RuntimeCreate? {
      rt.CreateObject(op.h);
    } else if op.Pin? || (op.UserRetain? && op.granted) {
      var _ := rt.RetainObject(op.h, CL_SUCCESS);
    } else if !op.UserRetain? {
      var _ := rt.ReleaseObject(op.h);
    }
  }

  /** Any operation on objects of the pool does to them and to the counts what `Do` says. */
  method Perform(b: Binding, rt: Runtime, pool: seq<Wrapper?>, op: Op, ghost w: World) returns (pool': seq<Wrapper?>)
    requires Shows(b, pool, w.slots) && rt.ledger == w.ledger && Legal(b, w, op)
    modifies rt, Objects(pool)
    ensures Shows(b, pool', Do(b, w, op).slots) && rt.ledger == Do(b, w, op).ledger
    ensures forall x :: x in Objects(pool') ==> x in Objects(pool) || fresh(x)
  {
    pool' := pool;
    if op.AssignCopy? || op.AssignMove? || op.AssignRaw? {
      Update(b, rt, pool, op, w);
    } else if op.Destroy? {
      pool[op.i].Destroy(rt);
      pool' := pool[op.i := null];
    } else if op.NewMove? {
      var x := new Wrapper.MoveOf(pool[op.j]);
      pool' := pool + [x];
    } else if op.NewEmpty? || op.NewFromRaw? || op.NewRetained? || op.NewCopy? {
      var x := Construct(b, rt, pool, op, w);
      pool' := pool + [x];
    } else {
      Outside(b, rt, op, w);
    }
  }

  /** Every operation is used as the headers demand. */
  ghost predicate AllLegal(b: Binding, ops: seq<Op>) {
    forall n :: 0 <= n < |ops| ==> Legal(b, Run(b, START, ops[..n]), ops[n])
  }

  /** A whole program on objects: they and the runtime end as `Run` says, so that all counts asked for and not
      given back are those of live objects, of the program and of the runtime. */
  method Execute(b: Binding, ops: seq<Op>) returns (pool: seq<Wrapper?>, rt: Runtime)
    requires AllLegal(b, ops)
    ensures Shows(b, pool, Run(b, START, ops).slots) && rt.ledger == Run(b, START, ops).ledger
    ensures Inv(b, Run(b, START, ops))
  {
    rt := new Runtime();
    pool := [];
    for i := 0 to |ops|
      invariant Shows(b, pool, Run(b, START, ops[..i]).slots) && rt.ledger == Run(b, START, ops[..i]).ledger
      invariant fresh(rt) && forall x :: x in Objects(pool) ==> fresh(x)
    {
      assert ops[..i + 1][..i] == ops[..i];
      pool := Perform(b, rt, pool, ops[i], Run(b, START, ops[..i]));
    }
    assert ops[..|ops|] == ops;
    EveryRunConserves(b, ops);
  }
}
