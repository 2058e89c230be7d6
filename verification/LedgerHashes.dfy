/**
Hashes.  A receive block and a change block may share a hash, but never inside one ledger: there a hash names
at most one block.
*/
module LedgerHashes {
  import opened Lattice
  import opened LedgerTables
  import opened LedgerSteps

  // ---------------------------------------------------------------- chains are lines

  lemma {:induction false} ChainLinear(x: Word, y: Word, h: Word)
    requires OnChain(x, h) && OnChain(y, h)
    ensures OnChain(x, y) || OnChain(y, x)
  {
    if x != h && y != h {
      ChainLinear(x, y, Prev(h));
    }
  }

  lemma RivalsApart(b: Word, c: Word)
    requires IsBlock(b) && IsBlock(c) && Rivals(b, c)
    ensures !OnChain(b, c)
  {
    if OnChain(b, c) {
      ChainSize(b, Prev(b));
    }
  }

  /** A ledger never holds both sides of a fork. */
  lemma NoForkInside(t: Tables, b: Word, c: Word)
    requires Shape(t) && b in t.blocks && c in t.blocks
    ensures !Rivals(b, c)
  {
    assert BlockOk(t, b) && PlacedOk(t, b);
    assert BlockOk(t, c) && PlacedOk(t, c);
    if Rivals(b, c) {
      ChainLinear(b, c, t.accounts[AccountOf(b)].head);
      RivalsApart(b, c);
      RivalsApart(c, b);
    }
  }

  // ---------------------------------------------------------------- hashes

  /** Some block with the hash of `w` is stored. */
  predicate HasHash(blocks: set<Word>, w: Word) {
    exists x :: x in blocks && SameHash(x, w)
  }

  lemma HashOfParts(w: Word)
    ensures Hash(Prev(w)) == Prev(Hash(w))
    ensures Hash(w) == Zero <==> w == Zero
    ensures Hash(w) == GENESIS_ACCOUNT <==> w == GENESIS_ACCOUNT
    ensures w.Open? || w.State? ==> Hash(w).Open? == w.Open? && Hash(w).State? == w.State?
  {
  }

  /** A hash is its own hash. */
  lemma {:induction false} HashOfHash(w: Word)
    ensures Hash(Hash(w)) == Hash(w)
  {
    match w
    case Send(p, d, _) =>
      HashOfHash(p);
      HashOfHash(d);
    case Receive(p, s) =>
      HashOfHash(p);
      HashOfHash(s);
    case Open(s, r, a) =>
      HashOfHash(s);
      HashOfHash(r);
      HashOfHash(a);
    case Change(p, r) =>
      HashOfHash(p);
      HashOfHash(r);
    case State(a, p, r, _, l) =>
      HashOfHash(a);
      HashOfHash(p);
      HashOfHash(r);
      HashOfHash(l);
    case _ =>
  }

  /** There is no receive block in a word. */
  predicate Plain(w: Word) {
    match w
    case Send(p, d, _) => Plain(p) && Plain(d)
    case Receive(_, _) => false
    case Open(s, r, a) => Plain(s) && Plain(r) && Plain(a)
    case Change(p, r) => Plain(p) && Plain(r)
    case State(a, p, r, _, l) => Plain(a) && Plain(p) && Plain(r) && Plain(l)
    case _ => true
  }

  lemma {:induction false} PlainIsItsHash(w: Word)
    requires Plain(w)
    ensures Hash(w) == w
  {
    match w
    case Send(p, d, _) =>
      PlainIsItsHash(p);
      PlainIsItsHash(d);
    case Open(s, r, a) =>
      PlainIsItsHash(s);
      PlainIsItsHash(r);
      PlainIsItsHash(a);
    case Change(p, r) =>
      PlainIsItsHash(p);
      PlainIsItsHash(r);
    case State(a, p, r, _, l) =>
      PlainIsItsHash(a);
      PlainIsItsHash(p);
      PlainIsItsHash(r);
      PlainIsItsHash(l);
    case _ =>
  }

  /** Only a receive and a change block can be confused: words without receive blocks have the same hash only if
      they are equal, and a receive block has the hash of the change block with the same fields. */
  lemma OnlyTwinsCollide(x: Word, y: Word)
    ensures Plain(x) && Plain(y) && SameHash(x, y) ==> x == y
    ensures SameHash(Receive(x, y), Change(x, y))
  {
    if Plain(x) && Plain(y) {
      PlainIsItsHash(x);
      PlainIsItsHash(y);
    }
  }

  /** What opens an account collects something, and the hash tells what; only the genesis block does not. */
  lemma OpenersCollect(x: Word, y: Word)
    requires SameHash(x, y) && (x.Open? || x.State?) && Prev(x) == Zero && Source(x) != Zero
    ensures (y.Open? || y.State?) && Prev(y) == Zero && Source(y) != Zero && SameHash(Source(x), Source(y))
  {
    HashOfParts(x);
    HashOfParts(y);
    HashOfParts(Prev(y));
    if y.Open? {
      HashOfParts(x.source);
      HashOfParts(y.source);
    } else if y.State? {
      HashOfParts(x.link);
      HashOfParts(y.link);
    }
  }

  /** A hash names at most one block of a ledger. */
  lemma {:induction false} HashNamesOneBlock(t: Tables, x: Word, y: Word)
    requires Shape(t) && x in t.blocks && y in t.blocks && SameHash(x, y)
    ensures x == y
    decreases Size(x)
  {
    assert BlockOk(t, x) && PlacedOk(t, x) && SourceOk(t, x);
    assert BlockOk(t, y) && PlacedOk(t, y) && SourceOk(t, y);
    HashOfParts(x);
    HashOfParts(y);
    HashOfParts(Prev(x));
    HashOfParts(Prev(y));
    if Prev(x) != Zero {
      HashNamesOneBlock(t, Prev(x), Prev(y));
      NoForkInside(t, x, y);
    } else if Source(x) != Zero {
      OpenersCollect(x, y);
      HashNamesOneBlock(t, Source(x), Source(y));
    } else if Source(y) != Zero {
      OpenersCollect(y, x);
    }
  }

  lemma FollowsLast(t: Tables, b: Word, x: Word)
    requires Shape(t) && Extendable(t, b) && Prev(b) != Zero && x in t.blocks
    ensures !SameHash(Prev(x), Prev(b))
  {
    assert AccountOk(t, AccountOf(b));
    assert BlockOk(t, Prev(b)) && BlockOk(t, x) && PlacedOk(t, x);
    HashOfParts(Prev(x));
    HashOfParts(Prev(b));
    if SameHash(Prev(x), Prev(b)) {
      HashNamesOneBlock(t, Prev(x), Prev(b));
      if x != Prev(b) {
        BeforeLast(t, Prev(b), x);
      }
    }
  }

  lemma CollectsPending(t: Tables, b: Word, x: Word)
    requires Shape(t) && Extendable(t, b) && Prev(b) == Zero && x in t.blocks
    ensures !SameHash(x, b)
  {
    var k := Key(AccountOf(b), Source(b));
    assert PendingOk(t, k);
    PendingNotCollected(t, k);
    assert BlockOk(t, x) && SourceOk(t, x);
    if SameHash(x, b) {
      OpenersCollect(b, x);
      HashNamesOneBlock(t, Source(b), Source(x));
    }
  }

  /** A block that extends a ledger is new to it by its hash as well: if a block with its hash were stored,
      that would be in its place already. */
  lemma ExtendsIsNew(t: Tables, b: Word)
    requires Shape(t) && Extendable(t, b)
    ensures !HasHash(t.blocks, b)
  {
    if x :| x in t.blocks && SameHash(x, b) {
      assert BlockOk(t, x) && PlacedOk(t, x) && SourceOk(t, x);
      HashOfParts(x);
      HashOfParts(b);
      HashOfParts(Prev(x));
      HashOfParts(Prev(b));
      if Prev(b) != Zero {
        FollowsLast(t, b, x);
      } else {
        CollectsPending(t, b, x);
      }
    }
  }

  // ---------------------------------------------------------------- what a block refers to

  /** A reference as the ledger reads it: the stored block with that hash, if there is one. */
  ghost predicate RefersTo(blocks: set<Word>, w: Word, x: Word) {
    if HasHash(blocks, w) then x in blocks && SameHash(x, w) else x == w
  }

  /** `b` is `raw` as the ledger reads it.  A block that arrives holds numbers: those that refer to blocks are
      looked up, and those of accounts stay what they are.  What a state block links to is an account if the
      block sends, and a block otherwise. */
  ghost predicate ReadAs(blocks: set<Word>, raw: Word, b: Word) {
    match raw
    case Send(p, d, n) => b.Send? && RefersTo(blocks, p, b.prev) && b.destination == Hash(d) && b.balance == n
    case Receive(p, s) => b.Receive? && RefersTo(blocks, p, b.prev) && RefersTo(blocks, s, b.source)
    case Open(s, r, a) =>
      b.Open? && RefersTo(blocks, s, b.source) && b.representative == Hash(r) && b.account == Hash(a)
    case Change(p, r) => b.Change? && RefersTo(blocks, p, b.prev) && b.representative == Hash(r)
    case State(a, p, r, n, l) =>
      && b.State? && RefersTo(blocks, p, b.prev) && b.account == Hash(a) && b.representative == Hash(r)
      && b.balance == n && (if IsSend(b) then b.link == Hash(l) else RefersTo(blocks, l, b.link))
    case _ => b == raw
  }

  /** The account numbers in a block are written as numbers. */
  predicate Tidy(b: Word) {
    match b
    case Send(_, d, _) => Hash(d) == d
    case Open(_, r, a) => Hash(r) == r && Hash(a) == a
    case Change(_, r) => Hash(r) == r
    case State(a, _, r, _, l) => Hash(a) == a && Hash(r) == r && (IsSend(b) ==> Hash(l) == l)
    case _ => true
  }

  ghost predicate AllTidy(blocks: set<Word>) {
    forall b :: b in blocks ==> Tidy(b)
  }

  /** Reading does not change the hash of a block, and leaves it tidy. */
  lemma ReadKeepsHash(blocks: set<Word>, raw: Word, b: Word)
    requires ReadAs(blocks, raw, b)
    ensures SameHash(raw, b) && IsBlock(raw) == IsBlock(b) && Tidy(b)
  {
    match raw
    case Send(_, d, _) => HashOfHash(d);
    case Open(_, r, a) =>
      HashOfHash(r);
      HashOfHash(a);
    case Change(_, r) => HashOfHash(r);
    case State(a, _, r, _, l) =>
      HashOfHash(a);
      HashOfHash(r);
      HashOfHash(l);
    case _ =>
  }

  lemma ReferenceIsOne(t: Tables, w: Word, x: Word, y: Word)
    requires Shape(t) && RefersTo(t.blocks, w, x) && RefersTo(t.blocks, w, y)
    ensures x == y
  {
    if HasHash(t.blocks, w) {
      HashNamesOneBlock(t, x, y);
    }
  }

  /** There is only one way to read a block. */
  lemma ReadOnce(t: Tables, raw: Word, b: Word, c: Word)
    requires Shape(t) && ReadAs(t.blocks, raw, b) && ReadAs(t.blocks, raw, c)
    ensures b == c
  {
    match raw
    case Send(p, _, _) => ReferenceIsOne(t, p, b.prev, c.prev);
    case Receive(p, s) =>
      ReferenceIsOne(t, p, b.prev, c.prev);
      ReferenceIsOne(t, s, b.source, c.source);
    case Open(s, _, _) => ReferenceIsOne(t, s, b.source, c.source);
    case Change(p, _) => ReferenceIsOne(t, p, b.prev, c.prev);
    case State(_, p, _, _, l) =>
      ReferenceIsOne(t, p, b.prev, c.prev);
      if !IsSend(b) {
        ReferenceIsOne(t, l, b.link, c.link);
      }
    case _ =>
  }

  /** A reference that has been looked up stands when blocks go. */
  lemma ReferenceStands(t: Tables, t': Tables, w: Word, x: Word)
    requires Shape(t) && RefersTo(t.blocks, w, x) && t'.blocks <= t.blocks
    ensures RefersTo(t'.blocks, x, x)
  {
    if y :| y in t'.blocks && SameHash(y, x) {
      assert SameHash(y, w);
      HashNamesOneBlock(t, x, y);
    }
  }

  /** What a ledger has read, a ledger with fewer blocks reads as it stands. */
  lemma ReadStands(t: Tables, t': Tables, raw: Word, b: Word)
    requires Shape(t) && ReadAs(t.blocks, raw, b) && t'.blocks <= t.blocks
    ensures ReadAs(t'.blocks, b, b)
  {
    ReadKeepsHash(t.blocks, raw, b);
    match raw
    case Send(p, _, _) => ReferenceStands(t, t', p, b.prev);
    case Receive(p, s) =>
      ReferenceStands(t, t', p, b.prev);
      ReferenceStands(t, t', s, b.source);
    case Open(s, _, _) => ReferenceStands(t, t', s, b.source);
    case Change(p, _) => ReferenceStands(t, t', p, b.prev);
    case State(_, p, _, _, l) =>
      ReferenceStands(t, t', p, b.prev);
      if !IsSend(b) {
        ReferenceStands(t, t', l, b.link);
      }
    case _ =>
  }

  lemma StoredStands(t: Tables, x: Word)
    requires Shape(t) && (x in t.blocks || x == Zero)
    ensures RefersTo(t.blocks, x, x)
  {
    if y :| y in t.blocks && SameHash(y, x) {
      assert BlockOk(t, y);
      HashOfParts(y);
    }
  }

  /** A tidy block that extends a ledger is read as it stands. */
  lemma ExtendsAsItStands(t: Tables, b: Word)
    requires Shape(t) && Extendable(t, b) && Tidy(b)
    ensures ReadAs(t.blocks, b, b)
  {
    var a := AccountOf(b);
    assert Prev(b) != Zero ==> AccountOk(t, a);
    assert Source(b) != Zero ==> PendingOk(t, Key(a, Source(b)));
    StoredStands(t, Prev(b));
    StoredStands(t, Source(b));
  }
}
