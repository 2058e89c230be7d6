/**
Blocks of the block lattice (rai/lib/blocks.hpp) and what can be read off a block alone.

A 256-bit word is zero, the hash of a block, or some other number, and a reference to a block is that block.
The hash function itself is taken to be free of collisions.  But what is hashed does not say whether a block
is a receive or a change block, and these two have fields of the same sizes; so a receive block and a change
block with the same fields have the same hash, and `Hash` forgets the difference, wherever it occurs.  Account
numbers are words too and are compared as numbers.  A signature and the proof of work are not part of what is
hashed and are not part of a block here.
*/
module Lattice {
  /** One more than the largest amount: amounts are unsigned 128-bit integers. */
  const LIMIT: nat := 0x1_0000_0000_0000_0000_0000_0000_0000_0000

  const MAX: nat := LIMIT - 1

  type Amount = n: nat | n < LIMIT

  datatype Word =
    | Zero
    | Num(id: nat)
    | Send(prev: Word, destination: Word, balance: Amount)
    | Receive(prev: Word, source: Word)
    | Open(source: Word, representative: Word, account: Word)
    | Change(prev: Word, representative: Word)
    | State(account: Word, prev: Word, representative: Word, balance: Amount, link: Word)

  /** The genesis account, and the open block that gives it everything there is. */
  const GENESIS_ACCOUNT := Num(0)

  const GENESIS := Open(GENESIS_ACCOUNT, GENESIS_ACCOUNT, GENESIS_ACCOUNT)

  predicate IsBlock(w: Word) {
    !w.Zero? && !w.Num?
  }

  /** The block types that came before state blocks. */
  predicate Legacy(w: Word) {
    w.Send? || w.Receive? || w.Open? || w.Change?
  }

  /** The number that a word is.  The fields of different block types have different sizes in total, and a state
      block is hashed with a preamble, except that receive and change blocks look alike. */
  function Hash(w: Word): Word {
    match w
    case Send(p, d, b) => Send(Hash(p), Hash(d), b)
    case Receive(p, s) => Change(Hash(p), Hash(s))
    case Open(s, r, a) => Open(Hash(s), Hash(r), Hash(a))
    case Change(p, r) => Change(Hash(p), Hash(r))
    case State(a, p, r, b, l) => State(Hash(a), Hash(p), Hash(r), b, Hash(l))
    case _ => w
  }

  predicate SameHash(x: Word, y: Word) {
    Hash(x) == Hash(y)
  }

  function Prev(w: Word): Word {
    match w
    case Send(p, _, _) => p
    case Receive(p, _) => p
    case Change(p, _) => p
    case State(_, p, _, _, _) => p
    case _ => Zero
  }

  function Diff(a: nat, b: nat): nat {
    if a < b then b - a else a - b
  }

  /** The amount a block moves. */
  function AmountOf(w: Word): nat {
    match w
    case Send(p, _, b) => Diff(BalanceOf(p), b)
    case Receive(_, s) => AmountOf(s)
    case Open(s, _, _) => AmountOf(s)
    case Change(_, _) => 0
    case State(_, p, _, b, _) => Diff(BalanceOf(p), b)
    case Num(_) => if w == GENESIS_ACCOUNT then MAX else 0
    case Zero => 0
  }

  /** The balance of an account at one of its blocks. */
  function BalanceOf(w: Word): nat {
    match w
    case Send(_, _, b) => b
    case Receive(p, s) => BalanceOf(p) + AmountOf(s)
    case Open(s, _, _) => AmountOf(s)
    case Change(p, _) => BalanceOf(p)
    case State(_, _, _, b, _) => b
    case _ => 0
  }

  /** The account a block belongs to, as a number. */
  function AccountOf(w: Word): Word {
    match w
    case Send(p, _, _) => AccountOf(p)
    case Receive(p, _) => AccountOf(p)
    case Open(_, _, a) => Hash(a)
    case Change(p, _) => AccountOf(p)
    case State(a, _, _, _, _) => Hash(a)
    case _ => Zero
  }

  /** The block that chose the representative in force at `w`. */
  function RepBlockOf(w: Word): Word {
    match w
    case Send(p, _, _) => RepBlockOf(p)
    case Receive(p, _) => RepBlockOf(p)
    case _ => w
  }

  /** The representative a block names; only open, change and state blocks name one. */
  function RepresentativeOf(w: Word): Word {
    match w
    case Open(_, r, _) => Hash(r)
    case Change(_, r) => Hash(r)
    case State(_, _, r, _, _) => Hash(r)
    case _ => Zero
  }

  /** The first block and the number of blocks of the chain that ends in `w`. */
  function OpenOf(w: Word): Word {
    match w
    case Send(p, _, _) => OpenOf(p)
    case Receive(p, _) => OpenOf(p)
    case Change(p, _) => OpenOf(p)
    case State(_, p, _, _, _) => if p == Zero then w else OpenOf(p)
    case _ => w
  }

  function CountOf(w: Word): nat {
    match w
    case Zero => 0
    case Num(_) => 0
    case Send(p, _, _) => CountOf(p) + 1
    case Receive(p, _) => CountOf(p) + 1
    case Change(p, _) => CountOf(p) + 1
    case State(_, p, _, _, _) => CountOf(p) + 1
    case Open(_, _, _) => 1
  }

  predicate IsSend(w: Word) {
    w.Send? || (w.State? && w.balance < BalanceOf(w.prev))
  }

  function Destination(w: Word): Word {
    if w.Send? then Hash(w.destination) else if w.State? then Hash(w.link) else Zero
  }

  /** The send a block collects, or zero. */
  function Source(w: Word): Word {
    match w
    case Receive(_, s) => s
    case Open(s, _, _) => if s == GENESIS_ACCOUNT then Zero else s
    case State(_, _, _, _, l) => if IsSend(w) then Zero else l
    case _ => Zero
  }

  /** `x` is `h` or comes before it in its account. */
  predicate OnChain(x: Word, h: Word) {
    x == h || match h
              case Send(p, _, _) => OnChain(x, p)
              case Receive(p, _) => OnChain(x, p)
              case Change(p, _) => OnChain(x, p)
              case State(_, p, _, _, _) => OnChain(x, p)
              case _ => false
  }

  /** `x` could not exist without `h`: it is `h`, or follows or collects a block that depends on it. */
  predicate DependsOn(x: Word, h: Word) {
    x == h || match x
              case Send(p, _, _) => DependsOn(p, h)
              case Receive(p, s) => DependsOn(p, h) || DependsOn(s, h)
              case Open(s, _, _) => DependsOn(s, h)
              case Change(p, _) => DependsOn(p, h)
              case State(_, p, _, _, l) => DependsOn(p, h) || (!IsSend(x) && DependsOn(l, h))
              case _ => false
  }

  /** Two different blocks for one place in one account: a fork. */
  predicate Rivals(b: Word, c: Word) {
    b != c && AccountOf(b) == AccountOf(c) && Prev(b) == Prev(c)
  }

  // ---------------------------------------------------------------- facts about chains

  function Size(w: Word): nat {
    match w
    case Send(p, d, _) => 1 + Size(p) + Size(d)
    case Receive(p, s) => 1 + Size(p) + Size(s)
    case Open(s, r, a) => 1 + Size(s) + Size(r) + Size(a)
    case Change(p, r) => 1 + Size(p) + Size(r)
    case State(a, p, r, _, l) => 1 + Size(a) + Size(p) + Size(r) + Size(l)
    case _ => 1
  }

  lemma {:induction false} ChainSize(x: Word, h: Word)
    requires OnChain(x, h)
    ensures x == h || Size(x) < Size(h)
  {
    if x != h {
      ChainSize(x, Prev(h));
    }
  }

  lemma {:induction false} DependsSize(x: Word, h: Word)
    requires DependsOn(x, h)
    ensures x == h || Size(h) < Size(x)
  {
    if x != h {
      match x
      case Send(p, _, _) => DependsSize(p, h);
      case Receive(p, s) =>
        if DependsOn(p, h) {
          DependsSize(p, h);
        } else {
          DependsSize(s, h);
        }
      case Open(s, _, _) => DependsSize(s, h);
      case Change(p, _) => DependsSize(p, h);
      case State(_, p, _, _, l) =>
        if DependsOn(p, h) {
          DependsSize(p, h);
        } else {
          DependsSize(l, h);
        }
    }
  }

  /** Later blocks of a chain depend on earlier ones. */
  lemma {:induction false} ChainDepends(x: Word, h: Word)
    requires OnChain(x, h)
    ensures DependsOn(h, x)
  {
    if x != h {
      ChainDepends(x, Prev(h));
    }
  }

  lemma {:induction false} DependsTransitive(x: Word, y: Word, z: Word)
    requires DependsOn(x, y) && DependsOn(y, z)
    ensures DependsOn(x, z)
  {
    if x != y {
      match x
      case Send(p, _, _) => DependsTransitive(p, y, z);
      case Receive(p, s) =>
        if DependsOn(p, y) {
          DependsTransitive(p, y, z);
        } else {
          DependsTransitive(s, y, z);
        }
      case Open(s, _, _) => DependsTransitive(s, y, z);
      case Change(p, _) => DependsTransitive(p, y, z);
      case State(_, p, _, _, l) =>
        if DependsOn(p, y) {
          DependsTransitive(p, y, z);
        } else {
          DependsTransitive(l, y, z);
        }
    }
  }

  /** Two blocks that are each on the other's chain are one block. */
  lemma ChainAntisymmetric(x: Word, y: Word)
    requires OnChain(x, y) && OnChain(y, x)
    ensures x == y
  {
    ChainSize(x, y);
    ChainSize(y, x);
  }
}
