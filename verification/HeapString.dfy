/**
The heap-allocated `cl::string` of CL/cl.hpp: a size and a buffer that is either absent or one
character longer than the size and terminated.
*/
module HeapString {
  import opened Prelude

  const NUL := '\0'

  /** The value of a string after `resize(n)`. */
  function Resized(s: string, n: nat): (r: string)
    ensures |r| == n
    ensures forall i :: 0 <= i < n ==> r[i] == if i < |s| then s[i] else NUL
  {
    if n <= |s| then s[..n] else s + seq(n - |s|, _ => NUL)
  }

  /** Growing and cutting back gives the original; cutting and growing keeps the common prefix. */
  lemma ResizedTwice(s: string, m: nat, n: nat)
    ensures Resized(Resized(s, m), n) == Resized(if m < |s| then s[..m] else s, n)
    ensures m >= |s| ==> Resized(Resized(s, m), |s|) == s
  {
    var once := if m < |s| then s[..m] else s;
    forall i | 0 <= i < n
      ensures Resized(Resized(s, m), n)[i] == Resized(once, n)[i]
    {
    }
    assert Resized(Resized(s, m), n) == Resized(once, n);
    if m >= |s| {
      assert Resized(Resized(s, m), |s|) == s;
    }
  }

  /** A terminated character array and the text it holds. */
  predicate Terminated(s: string) {
    NUL in s
  }

  function Length(s: string): (n: nat)
    requires Terminated(s)
    ensures n < |s| && s[n] == NUL && forall i :: 0 <= i < n ==> s[i] != NUL
  {
    if s[0] == NUL then 0 else 1 + Length(s[1..])
  }

  method StrLen(str: array<char>) returns (n: nat)
    requires Terminated(str[..])
    ensures n == Length(str[..])
  {
    n := 0;
    ghost var end := Length(str[..]);
    while str[n] != NUL
      invariant n <= end
      decreases end - n
    {
      n := n + 1;
    }
  }

  /** `memcpy` of `n` characters; both sides must have that many. */
  method MemCopy(dst: array<char>, src: array<char>, n: nat)
    requires dst != src && n <= dst.Length && n <= src.Length
    modifies dst
    ensures dst[..n] == src[..n] && dst[n..] == old(dst[n..])
  {
    for i := 0 to n
      invariant dst[..i] == src[..i] && dst[i..] == old(dst[i..])
    {
      dst[i] := src[i];
    }
  }

  class HString {
    var size_: nat
    var str_: array?<char>

    ghost predicate Valid()
      reads this, str_
    {
      if size_ == 0 then str_ == null
      else str_ != null && str_.Length == size_ + 1 && str_[size_] == NUL
    }

    function Text(): (s: string)
      requires Valid()
      reads this, str_
      ensures |s| == size_
    {
      if str_ == null then "" else str_[..size_]
    }

    constructor ()
      ensures Valid() && Text() == ""
    {
      size_ := 0;
      str_ := null;
    }

    /** Copies `size` characters, whatever they are, and adds a terminator.  `memory` says whether the
        allocation succeeds. */
    constructor FromBuffer(str: array?<char>, size: nat, memory: bool)
      requires size > 0 && memory ==> str != null && size <= str.Length
      ensures Valid() && (str_ != null ==> fresh(str_))
      ensures Text() == if size == 0 || !memory then "" else str[..size]
    {
      size_ := size;
      str_ := null;
      new;
      if size > 0 {
        if memory {
          var buffer := new char[size + 1];
          MemCopy(buffer, str, size);
          buffer[size] := NUL;
          str_ := buffer;
        } else {
          size_ := 0;
        }
      }
    }

    /** Copies a terminated string, terminator included; no string at all is the empty string.  This
        constructor keeps its size when the allocation fails, and is then valid only for an empty string. */
    constructor FromTerminated(str: array?<char>, memory: bool)
      requires str != null ==> Terminated(str[..])
      ensures Valid() <==> memory || str == null || Length(str[..]) == 0
      ensures str_ != null ==> fresh(str_)
      ensures Valid() ==> Text() == if str == null then "" else str[..Length(str[..])]
    {
      size_ := 0;
      str_ := null;
      new;
      if str != null {
        size_ := StrLen(str);
      }
      if size_ > 0 && memory {
        var buffer := new char[size_ + 1];
        MemCopy(buffer, str, size_ + 1);
        assert buffer[..size_ + 1][size_] == str[..size_ + 1][size_];
        assert buffer[..size_] == buffer[..size_ + 1][..size_] == str[..size_];
        str_ := buffer;
      }
    }

    /** `operator=`; the right-hand side may be this very string.  The buffer is never shared. */
    method Assign(rhs: HString, memory: bool)
      requires Valid() && rhs.Valid()
      modifies this
      ensures Valid() && Text() == if memory || this == rhs then old(rhs.Text()) else ""
      ensures rhs.Valid() && rhs.Text() == old(rhs.Text())
      ensures if this == rhs then str_ == old(str_) else str_ != null ==> fresh(str_)
    {
      if this != rhs {
        if str_ != null {
          str_ := null;
          size_ := 0;
        }
        if rhs.size_ == 0 || rhs.str_ == null {
          str_ := null;
          size_ := 0;
        } else if memory {
          var buffer := new char[rhs.size_ + 1];
          size_ := rhs.size_;
          MemCopy(buffer, rhs.str_, size_ + 1);
          assert buffer[..size_ + 1][size_] == rhs.str_[..size_ + 1][size_];
          assert buffer[..size_] == buffer[..size_ + 1][..size_] == rhs.str_[..size_];
          str_ := buffer;
        } else {
          str_ := null;
          size_ := 0;
        }
      }
    }

    constructor CopyOf(rhs: HString, memory: bool)
      requires rhs.Valid()
      ensures Valid() && (str_ != null ==> fresh(str_))
      ensures Text() == if memory then old(rhs.Text()) else ""
    {
      size_ := 0;
      str_ := null;
      new;
      Assign(rhs, memory);
    }

    /** Keeps the common prefix and fills the rest with terminators.  Not `ok` is the case in which the code
        goes on to write through a null pointer: there is something to allocate and that fails. */
    method Resize(n: nat, memory: bool) returns (ok: bool)
      requires Valid()
      modifies this
      ensures Valid() && (ok <==> memory || n == 0 || n == old(size_))
      ensures Text() == if ok then Resized(old(Text()), n) else old(Text())
      ensures str_ == old(str_) || (str_ != null ==> fresh(str_))
    {
      ok := memory || n == 0 || size_ == n;
      if size_ == n || !ok {
        return;
      }
      if n == 0 {
        str_ := null;
        size_ := 0;
      } else {
        var buffer := new char[n + 1];
        var copySize := if size_ < n then size_ else n;
        ghost var text := Text();
        size_ := n;
        if str_ != null {
          MemCopy(buffer, str_, copySize + 1);
          assert buffer[..copySize] == buffer[..copySize + 1][..copySize] == text[..copySize];
        }
        var i := copySize;
        while i < n
          invariant copySize <= i <= n
          invariant buffer[..copySize] == text[..copySize]
          invariant forall j :: copySize <= j < i ==> buffer[j] == NUL
          modifies buffer
        {
          buffer[i] := NUL;
          i := i + 1;
        }
        buffer[n] := NUL;
        str_ := buffer;
        forall j | 0 <= j < n
          ensures buffer[j] == Resized(text, n)[j]
        {
          assert j < copySize ==> buffer[..copySize][j] == text[j];
        }
        assert buffer[..n] == Resized(text, n);
      }
    }

    /** Assigns to `operator[]`, which does not check its argument.  Not `ok` is a character outside the text. */
    method Put(pos: nat, c: char) returns (ok: bool)
      requires Valid()
      modifies str_
      ensures Valid() && (ok <==> pos < size_)
      ensures Text() == if ok then old(Text())[pos := c] else old(Text())
    {
      ok := pos < size_;
      if ok {
        str_[pos] := c;
      }
    }

    /** The private buffer, or the empty string. */
    method CStr() returns (s: string)
      requires Valid()
      ensures s == Text() + [NUL]
    {
      if str_ == null {
        s := [NUL];
      } else {
        s := str_[..];
        assert str_[..] == str_[..size_] + [NUL];
      }
    }
  }

  /** The constructor from a buffer on any arguments; none when it copies from a null pointer.  The comment
      on it promises the empty string for a null pointer: that is what it gives exactly when the size is 0
      or the allocation fails. */
  method Construct(str: array?<char>, size: nat, memory: bool) returns (r: Option<HString>)
    requires str != null ==> size <= str.Length
    ensures r.None? <==> str == null && size > 0 && memory
    ensures r.Some? ==> r.value.Valid() && fresh(r.value)
                        && r.value.Text() == if str == null || !memory then "" else str[..size]
  {
    if str == null && size > 0 && memory {
      return None;
    }
    var s := new HString.FromBuffer(str, size, memory);
    r := Some(s);
  }

  /** A string made from what `c_str` returns has the same text if and only if that holds no terminator. */
  method ThroughCStr(s: HString) returns (r: HString)
    requires s.Valid()
    ensures r.Valid() && fresh(r) && r.Text() <= s.Text()
    ensures r.Text() == s.Text() <==> NUL !in s.Text()
  {
    var c := s.CStr();
    var buffer := new char[|c|](i requires 0 <= i < |c| => c[i]);
    assert buffer[..] == c;
    assert c[|c| - 1] == NUL;
    r := new HString.FromTerminated(buffer, true);
    assert NUL in s.Text() <==> Length(c) < |s.Text()| by {
      assert forall i :: 0 <= i < |s.Text()| ==> s.Text()[i] == c[i];
    }
  }

  // ---------------------------------------------------------------- several strings

  /** What is done to the strings of a pool; a string may be in it under several indices. */
  datatype Op =
    | Copy(to: nat, from: nat, memory: bool)
    | Cut(to: nat, n: nat, memory: bool)
    | Write(to: nat, pos: nat, c: char)

  predicate InPool(pool: seq<HString>, op: Op) {
    op.to < |pool| && (op.Copy? ==> op.from < |pool|)
  }

  /** The text of the string that `op` changes. */
  function NewText(pool: seq<HString>, texts: seq<string>, op: Op): string
    requires InPool(pool, op) && |texts| == |pool|
  {
    var t := texts[op.to];
    match op
    case Copy(to, from, memory) => if memory || pool[to] == pool[from] then texts[from] else ""
    case Cut(_, n, memory) => if memory || n == 0 || n == |t| then Resized(t, n) else t
    case Write(_, pos, c) => if pos < |t| then t[pos := c] else t
  }

  /** Every index under which the string is known sees the change, and no other does. */
  function After(pool: seq<HString>, texts: seq<string>, op: Op): (r: seq<string>)
    requires |texts| == |pool|
    ensures |r| == |pool|
  {
    if !InPool(pool, op) then texts
    else
      var text := NewText(pool, texts, op);
      seq(|pool|, k requires 0 <= k < |pool| => if pool[k] == pool[op.to] then text else texts[k])
  }

  function AfterAll(pool: seq<HString>, texts: seq<string>, ops: seq<Op>): (r: seq<string>)
    requires |texts| == |pool|
    ensures |r| == |pool|
  {
    if ops == [] then texts else After(pool, AfterAll(pool, texts, ops[..|ops| - 1]), ops[|ops| - 1])
  }

  ghost function Buffers(pool: seq<HString>): set<object>
    reads pool
  {
    set s | s in pool && s.str_ != null :: s.str_
  }

  /** No two strings share a buffer. */
  ghost predicate Apart(pool: seq<HString>)
    reads pool
  {
    forall s, s' :: s in pool && s' in pool && s != s' && s.str_ != null ==> s.str_ != s'.str_
  }

  ghost predicate Shows(pool: seq<HString>, texts: seq<string>)
    reads pool, Buffers(pool)
  {
    |texts| == |pool| && forall i :: 0 <= i < |pool| ==> pool[i].Valid() && pool[i].Text() == texts[i]
  }

  /** Only the string `pool[to]` changed, in place or in a new buffer. */
  twostate predicate OnlyOne(pool: seq<HString>, to: nat)
    requires to < |pool|
    reads pool, Buffers(pool)
  {
    && (forall s :: s in pool && s != pool[to] ==> unchanged(s) && (s.str_ != null ==> unchanged(s.str_)))
    && (pool[to].str_ == null || pool[to].str_ == old(pool[to].str_) || fresh(pool[to].str_))
  }

  /** Applies an operation whose indices are in the pool. */
  method Change(pool: seq<HString>, op: Op, ghost texts: seq<string>)
    requires Shows(pool, texts) && Apart(pool) && InPool(pool, op)
    modifies pool[op.to], pool[op.to].str_
    ensures OnlyOne(pool, op.to) && pool[op.to].Valid() && pool[op.to].Text() == NewText(pool, texts, op)
  {
    var s := pool[op.to];
    if op.Copy? {
      s.Assign(pool[op.from], op.memory);
    } else if op.Cut? {
      var _ := s.Resize(op.n, op.memory);
    } else {
      var _ := s.Put(op.pos, op.c);
    }
  }

  /** The buffers stay apart. */
  method ChangeApart(pool: seq<HString>, op: Op, ghost texts: seq<string>)
    requires Shows(pool, texts) && Apart(pool) && InPool(pool, op)
    modifies pool[op.to], pool[op.to].str_
    ensures OnlyOne(pool, op.to) && pool[op.to].Valid() && pool[op.to].Text() == NewText(pool, texts, op)
    ensures Apart(pool) && fresh(Buffers(pool) - old(Buffers(pool)))
  {
    Change(pool, op, texts);
    forall s, s' | s in pool && s' in pool && s != s' && s.str_ != null
      ensures s.str_ != s'.str_
    {
      assert s == pool[op.to] || s' == pool[op.to] || (unchanged(s) && unchanged(s'));
    }
  }

  method Do(pool: seq<HString>, op: Op, ghost texts: seq<string>)
    requires Shows(pool, texts) && Apart(pool)
    modifies pool, Buffers(pool)
    ensures Shows(pool, After(pool, texts, op)) && Apart(pool) && fresh(Buffers(pool) - old(Buffers(pool)))
  {
    if InPool(pool, op) {
      ChangeApart(pool, op, texts);
      forall k | 0 <= k < |pool|
        ensures pool[k].Valid() && pool[k].Text() == After(pool, texts, op)[k]
      {
        assert pool[k] in pool;
        assert old(pool[k].Valid() && pool[k].Text() == texts[k]);
      }
    }
  }

  /** Any sequence of operations on any strings, some of them perhaps the same: the strings behave as values,
      and their buffers stay apart. */
  method DoAll(pool: seq<HString>, ops: seq<Op>, ghost texts: seq<string>)
    requires Shows(pool, texts) && Apart(pool)
    modifies pool, Buffers(pool)
    ensures Shows(pool, AfterAll(pool, texts, ops)) && Apart(pool)
  {
    for i := 0 to |ops|
      invariant Shows(pool, AfterAll(pool, texts, ops[..i])) && Apart(pool)
      invariant fresh(Buffers(pool) - old(Buffers(pool)))
    {
      assert ops[..i + 1][..i] == ops[..i];
      Do(pool, ops[i], AfterAll(pool, texts, ops[..i]));
    }
    assert ops[..|ops|] == ops;
  }
}
