/**
The wrapper classes as objects that are updated in place: the statements of each member in the order
the headers give them, proved against the functions of `RefCounts` whose conservation law is proved
there for every sequence of operations.  `code` is the runtime's answer to a retain of a live object.
*/
module WrapperObjects {
  import opened Prelude
  import opened RefCounts

  /** The OpenCL runtime as far as reference counts go. */
  class Runtime {
    var ledger: Ledger

    constructor ()
      ensures ledger == NO_COUNTS
    {
      ledger := NO_COUNTS;
    }

    method CreateObject(h: int)
      modifies this
      ensures ledger == RtCreate(old(ledger), h)
    {
      ledger := RtCreate(ledger, h);
    }

    method RetainObject(h: int, code: int) returns (err: int)
      modifies this
      ensures ledger == RtRetain(old(ledger), h, code == CL_SUCCESS)
      ensures h in old(ledger).count ==> err == code
      ensures h !in old(ledger).count ==> err != CL_SUCCESS
    {
      err := if h in ledger.count then code else -1;
      ledger := RtRetain(ledger, h, code == CL_SUCCESS);
    }

    method ReleaseObject(h: int) returns (err: int)
      modifies this
      ensures ledger == RtRelease(old(ledger), h)
      ensures err == CL_SUCCESS <==> h in old(ledger).count
    {
      err := if h in ledger.count then CL_SUCCESS else -1;
      ledger := RtRelease(ledger, h);
    }
  }

  class Wrapper {
    const binding: Binding

    var object_: int
    var referenceCountable_: bool

    function View(): Wrapped
      reads this
    {
      Live(object_, referenceCountable_)
    }

    constructor (b: Binding)
      ensures binding == b && View() == EMPTY
    {
      binding := b;
      object_ := NULL;
      referenceCountable_ := false;
    }

    /** A call that does not reach the runtime succeeds. */
    method RetainHandle(rt: Runtime, code: int) returns (err: int)
      modifies rt
      ensures rt.ledger == Retain(binding, old(rt.ledger), View(), code == CL_SUCCESS)
      ensures FlagOk(binding, View()) && object_ != NULL && !Owns(binding, object_) ==> err == CL_SUCCESS
      ensures FlagOk(binding, View()) && Owns(binding, object_) && object_ in old(rt.ledger).count ==> err == code
    {
      err := CL_SUCCESS;
      if !(binding.v20 && object_ == NULL) && !(binding.device && !referenceCountable_) {
        err := rt.RetainObject(object_, code);
      }
    }

    /** Takes ownership of the caller's count; the 2.0 header can take a count of its own instead. */
    constructor FromHandle(b: Binding, rt: Runtime, obj: int, retainObject: bool, code: int)
      requires retainObject ==> b.v20
      modifies rt
      ensures binding == b && View() == FromRaw(b, obj) && FlagOk(b, View())
      ensures rt.ledger == if retainObject && Owns(b, obj) then RtRetain(old(rt.ledger), obj, code == CL_SUCCESS)
                           else old(rt.ledger)
    {
      binding := b;
      object_ := obj;
      referenceCountable_ := IsReferenceCountable(b, obj);
      new;
      if retainObject {
        GuardsAgree(b, rt.ledger, View(), code == CL_SUCCESS);
        var _ := RetainHandle(rt, code);
      }
    }

    /** The handle is copied, the flag is not but computed anew, and the copy asks for a count of its own
        exactly when it owns one. */
    constructor CopyOf(rhs: Wrapper, rt: Runtime, code: int)
      modifies rt
      ensures binding == rhs.binding && View().handle == rhs.View().handle && FlagOk(binding, View())
      ensures rt.ledger == if Owns(binding, rhs.object_) then RtRetain(old(rt.ledger), rhs.object_, code == CL_SUCCESS)
                           else old(rt.ledger)
      ensures (rt.ledger, View()) == CopyConstruct(binding, old(rt.ledger), rhs.View(), code == CL_SUCCESS)
    {
      binding := rhs.binding;
      object_ := rhs.object_;
      referenceCountable_ := IsReferenceCountable(rhs.binding, rhs.object_);
      new;
      GuardsAgree(binding, rt.ledger, View(), code == CL_SUCCESS);
      if binding.v20 || object_ != NULL {
        var _ := RetainHandle(rt, code);
      }
    }

    constructor MoveOf(rhs: Wrapper)
      modifies rhs
      ensures binding == rhs.binding
      ensures View() == old(rhs.View()) && rhs.View() == EMPTY
    {
      binding := rhs.binding;
      object_ := rhs.object_;
      referenceCountable_ := rhs.referenceCountable_;
      new;
      rhs.object_ := NULL;
      rhs.referenceCountable_ := false;
    }

    method ReleaseHandle(rt: Runtime)
      modifies rt
      ensures rt.ledger == Release(binding, old(rt.ledger), View())
    {
      if !(binding.v20 && object_ == NULL) && !(binding.device && !referenceCountable_) {
        var _ := rt.ReleaseObject(object_);
      }
    }

    /** `operator=(const Wrapper&)`; `rhs` may be this very object. */
    method AssignFrom(rhs: Wrapper, rt: Runtime, code: int)
      requires rhs.binding == binding
      modifies this, rt
      ensures if this == rhs then rt.ledger == old(rt.ledger) && View() == old(View())
              else (rt.ledger, View())
                   == CopyAssign(binding, old(rt.ledger), old(View()), old(rhs.View()), code == CL_SUCCESS)
      ensures rhs.View() == old(rhs.View())
    {
      if this != rhs {
        if binding.v20 || object_ != NULL {
          ReleaseHandle(rt);
        }
        object_ := rhs.object_;
        referenceCountable_ := rhs.referenceCountable_;
        if binding.v20 || object_ != NULL {
          var _ := RetainHandle(rt, code);
        }
      }
    }

    /** `operator=(Wrapper&&)`; moving an object into itself changes nothing. */
    method MoveFrom(rhs: Wrapper, rt: Runtime)
      requires rhs.binding == binding
      modifies this, rhs, rt
      ensures View() == old(rhs.View())
      ensures if this == rhs then rt.ledger == old(rt.ledger)
              else rhs.View() == EMPTY && rt.ledger == GuardedRelease(binding, old(rt.ledger), old(View()))
    {
      if this != rhs {
        if binding.v20 || object_ != NULL {
          ReleaseHandle(rt);
        }
        object_ := rhs.object_;
        referenceCountable_ := rhs.referenceCountable_;
        rhs.object_ := NULL;
        rhs.referenceCountable_ := false;
      }
    }

    /** `operator=(const cl_type&)`: takes ownership of the caller's count. */
    method AssignHandle(obj: int, rt: Runtime)
      modifies this, rt
      ensures View() == FromRaw(binding, obj)
      ensures rt.ledger == GuardedRelease(binding, old(rt.ledger), old(View()))
    {
      if binding.v20 || object_ != NULL {
        ReleaseHandle(rt);
      }
      object_ := obj;
      referenceCountable_ := IsReferenceCountable(binding, obj);
    }

    /** The destructor gives back one count of the object exactly when the wrapper owns one. */
    method Destroy(rt: Runtime)
      modifies rt
      ensures FlagOk(binding, View()) ==>
                rt.ledger == if Owns(binding, object_) then RtRelease(old(rt.ledger), object_) else old(rt.ledger)
      ensures rt.ledger == Destruct(binding, old(rt.ledger), View())
    {
      if (binding.v20 && binding.device) || object_ != NULL {
        ReleaseHandle(rt);
      }
    }
  }
}
