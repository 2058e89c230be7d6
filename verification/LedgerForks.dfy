/**
Forks.  Two blocks that both extend one ledger get in each other's way only if they belong to one account;
a rollback makes room again, for the block rolled back and for the other side of a fork.
*/
module LedgerForks {
  import opened Lattice
  import opened LedgerTables
  import opened LedgerSteps
  import opened LedgerHashes
  import opened LedgerProcess
  import opened LedgerObject

  // ---------------------------------------------------------------- equal ledgers

  /** Equal in everything that can be asked of a ledger: an absent weight reads as 0. */
  ghost predicate SameLedger(t: Tables, t': Tables) {
    && t.blocks == t'.blocks && t.accounts == t'.accounts && t.pending == t'.pending && t.frontiers == t'.frontiers
    && forall r :: Weight(t.weights, r) == Weight(t'.weights, r)
  }

  lemma SameBlocksSameLedger(t: Tables, t': Tables)
    requires Inv(t) && Inv(t') && t.blocks == t'.blocks
    ensures SameLedger(t, t')
  {
    BlocksDetermineTables(t, t');
  }

  /** A ledger that is equal to a valid one is valid. */
  lemma SameInv(t: Tables, t': Tables)
    requires Inv(t) && SameLedger(t, t')
    ensures Inv(t')
  {
    SameShape(t, t');
  }

  // ---------------------------------------------------------------- the lattice commutes

  lemma AcceptedTwiceRivals(t: Tables, b: Word, c: Word)
    requires Extendable(t, b) && Extendable(t, c) && b != c
    ensures AccountOf(b) == AccountOf(c) <==> Rivals(b, c)
  {
  }

  /** Of two blocks that extend a ledger, the second still does after the first unless they are a fork. */
  lemma OnlyForksConflict(t: Tables, t': Tables, b: Word, c: Word)
    requires Shape(t) && Extendable(t, b) && Extendable(t, c) && b != c && Extends(t, t', b)
    ensures Extendable(t', c) <==> !Rivals(b, c)
  {
    AcceptedTwiceRivals(t, b, c);
    if AccountOf(b) == AccountOf(c) && Prev(c) != Zero {
      assert AccountOk(t, AccountOf(c));
    }
  }

  /** `t'` is what becomes of `t` when it takes first `b` and then `c`. */
  ghost predicate Takes(t: Tables, t': Tables, b: Word, c: Word) {
    exists between :: Appended(t, between, b) && Appended(between, t', c)
  }

  lemma TakeBoth(t: Tables, t': Tables, b: Word, c: Word)
    requires Inv(t) && Extendable(t, b) && Extendable(t, c) && b != c && !Rivals(b, c) && Takes(t, t', b, c)
    ensures Inv(t') && t'.blocks == t.blocks + {b, c}
  {
    var between :| Appended(t, between, b) && Appended(between, t', c);
    AppendedInv(t, between, b);
    OnlyForksConflict(t, between, b, c);
    AppendedInv(between, t', c);
  }

  /** Two blocks that are no fork can be taken in either order, with the same ledger in the end. */
  lemma OrderDoesNotMatter(t: Tables, tbc: Tables, tcb: Tables, b: Word, c: Word)
    requires Inv(t) && Extendable(t, b) && Extendable(t, c) && b != c && !Rivals(b, c)
    requires Takes(t, tbc, b, c) && Takes(t, tcb, c, b)
    ensures Inv(tbc) && Inv(tcb) && SameLedger(tbc, tcb)
  {
    assert {b, c} == {c, b};
    TakeBoth(t, tbc, b, c);
    TakeBoth(t, tcb, c, b);
    assert tbc.blocks == tcb.blocks;
    SameBlocksSameLedger(tbc, tcb);
  }

  // ---------------------------------------------------------------- after a rollback

  /** `t'` is what a rollback of `h` leaves of `t`. */
  ghost predicate RolledBack(t: Tables, t': Tables, h: Word) {
    && Shape(t) && Shape(t') && h in t.blocks && h != GENESIS
    && t'.blocks == t.blocks - Dependents(t.blocks, h)
  }

  /** A rollback takes no more than it must: every valid ledger that holds only blocks of the ledger, and not `h`,
      is part of what it leaves. */
  lemma LargestWithout(t: Tables, t': Tables, h: Word, u: Tables)
    requires RolledBack(t, t', h) && Shape(u) && u.blocks <= t.blocks && h !in u.blocks
    ensures u.blocks <= t'.blocks
  {
    assert BlockOk(t, h);
    forall x | x in u.blocks
      ensures x in t'.blocks
    {
      if DependsOn(x, h) {
        ClosedUnderDependence(u, x, h);
      }
    }
  }

  lemma SmallerStays(t: Tables, t': Tables, h: Word, x: Word)
    requires RolledBack(t, t', h) && x in t.blocks && Size(x) < Size(h)
    ensures x in t'.blocks
  {
    if DependsOn(x, h) {
      DependsSize(x, h);
    }
  }

  /** Whatever is left of the account of `h` comes before `h`. */
  lemma LeftBefore(t: Tables, t': Tables, h: Word, x: Word)
    requires RolledBack(t, t', h) && x in t'.blocks && AccountOf(x) == AccountOf(h)
    ensures Prev(h) != Zero && OnChain(x, Prev(h))
  {
    assert BlockOk(t, h) && PlacedOk(t, h);
    assert BlockOk(t, x) && PlacedOk(t, x);
    ChainLinear(x, h, t.accounts[AccountOf(h)].head);
    if OnChain(h, x) {
      ChainDepends(h, x);
    }
    assert !OnChain(x, Zero);
  }

  /** The account ends again where `h` had begun. */
  lemma HeadBefore(t: Tables, t': Tables, h: Word)
    requires RolledBack(t, t', h)
    ensures Prev(h) == Zero ==> AccountOf(h) !in t'.accounts
    ensures Prev(h) != Zero ==> AccountOf(h) in t'.accounts && t'.accounts[AccountOf(h)].head == Prev(h)
  {
    var a := AccountOf(h);
    assert BlockOk(t, h) && PlacedOk(t, h);
    if a in t'.accounts {
      assert AccountOk(t', a);
      LeftBefore(t, t', h, t'.accounts[a].head);
    }
    if Prev(h) != Zero {
      SmallerStays(t, t', h, Prev(h));
      assert BlockOk(t', Prev(h)) && PlacedOk(t', Prev(h));
      ChainAntisymmetric(Prev(h), t'.accounts[a].head);
    }
  }

  /** A send that is still there, and that only `h` or blocks after it had collected, is pending again. */
  lemma PendingAgain(t: Tables, t': Tables, h: Word, s: Word)
    requires RolledBack(t, t', h) && s in t'.blocks && IsSend(s)
    requires forall r :: r in t.blocks && Source(r) == s ==> DependsOn(r, h)
    ensures Key(Destination(s), s) in t'.pending
  {
    assert BlockOk(t', s) && SendOk(t', s);
  }

  /** A block that was rolled back extends the ledger again. */
  lemma RolledBackExtends(t: Tables, t': Tables, h: Word)
    requires RolledBack(t, t', h)
    ensures Extendable(t', h)
  {
    assert BlockOk(t, h) && PlacedOk(t, h) && SourceOk(t, h);
    HeadBefore(t, t', h);
    if Source(h) != Zero {
      CollectorDepends(h);
      DependsSize(h, Source(h));
      SmallerStays(t, t', h, Source(h));
      PendingAgain(t, t', h, Source(h));
    }
  }

  // ---------------------------------------------------------------- the other side of a fork

  /** `h` was not there when it and `c` both extended the ledger, so nothing of then depends on it. */
  lemma ThenWithout(t0: Tables, h: Word, x: Word)
    requires Shape(t0) && Extendable(t0, h) && x in t0.blocks
    ensures !DependsOn(x, h)
  {
    if DependsOn(x, h) {
      ClosedUnderDependence(t0, x, h);
    }
  }

  /** Whatever collected `s` since then came with or after `h`. */
  lemma CollectedSince(t0: Tables, t: Tables, h: Word, s: Word, r: Word)
    requires Shape(t0) && Shape(t) && Extendable(t0, h) && h in t.blocks
    requires Key(AccountOf(h), s) in t0.pending && r in t.blocks && Source(r) == s
    ensures DependsOn(r, h)
  {
    var a := AccountOf(h);
    PendingNotCollected(t0, Key(a, s));
    assert PendingOk(t0, Key(a, s));
    assert BlockOk(t, r) && PlacedOk(t, r) && SourceOk(t, r);
    assert BlockOk(t, h) && PlacedOk(t, h);
    ChainLinear(r, h, t.accounts[a].head);
    if OnChain(h, r) {
      ChainDepends(h, r);
    } else {
      assert Prev(h) != Zero && OnChain(r, Prev(h)) by { assert !OnChain(r, Zero); }
      ChainDepends(r, Prev(h));
      assert AccountOk(t0, a);
      ClosedUnderDependence(t0, Prev(h), r);
    }
  }

  /** Some ledger of which `t` holds all blocks was extended by both. */
  ghost predicate Forked(t0: Tables, t: Tables, h: Word, c: Word) {
    Shape(t0) && t0.blocks <= t.blocks && Extendable(t0, h) && Extendable(t0, c)
  }

  lemma ForkedReturns(t0: Tables, t: Tables, t': Tables, h: Word, c: Word)
    requires Forked(t0, t, h, c) && Rivals(h, c) && RolledBack(t, t', h)
    ensures Extendable(t', c)
  {
    HeadBefore(t, t', h);
    if c in t.blocks {
      NoForkInside(t, h, c);
    }
    var s := Source(c);
    if s != Zero {
      var k := Key(AccountOf(h), s);
      assert PendingOk(t0, k);
      ThenWithout(t0, h, s);
      forall r | r in t.blocks && Source(r) == s
        ensures DependsOn(r, h)
      {
        CollectedSince(t0, t, h, s, r);
      }
      PendingAgain(t, t', h, s);
    }
  }

  /** A block that could stand somewhere: its own fields and those of its predecessor agree. */
  predicate WellFormed(c: Word) {
    && IsBlock(c) && AccountOf(c) != Zero && Adds(c) && (c.Receive? ==> Source(c) != Zero)
    && (if Prev(c) == Zero then (c.Open? || c.State?) && Source(c) != Zero else Legacy(c) ==> Legacy(Prev(c)))
  }

  ghost predicate IsFree(t: Tables, h: Word, a: Word, s: Word) {
    && s in t.blocks && IsSend(s) && Destination(s) == a && !DependsOn(s, h)
    && (forall r :: r in t.blocks && Source(r) == s ==> DependsOn(r, h))
  }

  /** What `c` must be to stand in the place of `h`: well formed, and what it collects, if anything, is a stored
      send to its account that does not depend on `h` and that nothing but dependents of `h` has collected. */
  ghost predicate CanReplace(t: Tables, h: Word, c: Word) {
    && WellFormed(c)
    && (Source(c) != Zero ==> IsFree(t, h, AccountOf(c), Source(c)))
  }

  lemma PendingIsFree(t: Tables, t': Tables, h: Word, a: Word, s: Word)
    requires RolledBack(t, t', h)
    ensures Key(a, s) in t'.pending <==> IsFree(t, h, a, s)
  {
    var k := Key(a, s);
    if k in t'.pending {
      PendingNotCollected(t', k);
      assert PendingOk(t', k);
    } else if IsFree(t, h, a, s) {
      PendingAgain(t, t', h, s);
    }
  }

  /** Fork resolution.  A ledger took `h` and went on, however far.  Rolling `h` back leaves a ledger that its
      rival `c` extends if and only if `c` can replace it; and that is so if and only if the two ever extended
      the same ledger. */
  lemma ForkResolves(t: Tables, t': Tables, h: Word, c: Word)
    requires RolledBack(t, t', h) && Rivals(h, c)
    ensures Extendable(t', c) <==> CanReplace(t, h, c)
    ensures Extendable(t', c) <==> exists t0 :: Forked(t0, t, h, c)
  {
    HeadBefore(t, t', h);
    if c in t.blocks {
      NoForkInside(t, h, c);
    }
    PendingIsFree(t, t', h, AccountOf(c), Source(c));
    if t0 :| Forked(t0, t, h, c) {
      ForkedReturns(t0, t, t', h, c);
    } else if Extendable(t', c) {
      RolledBackExtends(t, t', h);
      assert Forked(t', t, h, c);
    }
  }

  // ---------------------------------------------------------------- blocks with one hash

  /** Whoever can take a receive block can take the change block with the same fields, and hash, instead. */
  lemma TwinExtends(t: Tables, p: Word, s: Word)
    requires Shape(t) && Extendable(t, Receive(p, s))
    ensures Extendable(t, Change(p, s)) && Rivals(Receive(p, s), Change(p, s)) && SameHash(Receive(p, s), Change(p, s))
  {
    ExtendsIsNew(t, Receive(p, s));
    assert SameHash(Change(p, s), Receive(p, s));
  }

  /** The same hashes are stored. */
  ghost predicate SameHashes(t: Tables, t': Tables) {
    && (forall x :: x in t.blocks ==> HasHash(t'.blocks, x))
    && (forall y :: y in t'.blocks ==> HasHash(t.blocks, y))
  }

  ghost predicate NoTwins(t: Tables, t': Tables) {
    forall x, y :: x in t.blocks && y in t'.blocks && SameHash(x, y) ==> x == y
  }

  lemma SubsetByHash(t: Tables, t': Tables)
    requires NoTwins(t, t') || NoTwins(t', t)
    requires forall x :: x in t.blocks ==> HasHash(t'.blocks, x)
    ensures t.blocks <= t'.blocks
  {
    forall x | x in t.blocks
      ensures x in t'.blocks
    {
      assert HasHash(t'.blocks, x);
      var y :| y in t'.blocks && SameHash(y, x);
      assert x == y;
    }
  }

  /** Hashes alone determine a ledger exactly when no block of one has a different block with the same hash in
      the other. */
  lemma HashesDetermineIff(t: Tables, t': Tables)
    requires Inv(t) && Inv(t') && SameHashes(t, t')
    ensures SameLedger(t, t') <==> NoTwins(t, t')
  {
    if SameLedger(t, t') {
      forall x, y | x in t.blocks && y in t'.blocks && SameHash(x, y)
        ensures x == y
      {
        HashNamesOneBlock(t, x, y);
      }
    }
    if NoTwins(t, t') {
      SubsetByHash(t, t');
      SubsetByHash(t', t);
      SameBlocksSameLedger(t, t');
    }
  }

  lemma StoredWith(blocks: set<Word>, b: Word, c: Word)
    requires SameHash(b, c)
    ensures forall x :: x in blocks + {b} ==> HasHash(blocks + {c}, x)
  {
    forall x | x in blocks + {b}
      ensures HasHash(blocks + {c}, x)
    {
      if x == b {
        assert c in blocks + {c} && SameHash(c, x);
      } else {
        assert x in blocks + {c} && SameHash(x, x);
      }
    }
  }

  lemma TwinTables(t: Tables, p: Word, s: Word, t1: Tables, t2: Tables)
    requires Extendable(t, Receive(p, s)) && Extends(t, t1, Receive(p, s)) && Extends(t, t2, Change(p, s))
    ensures SameHashes(t1, t2)
    ensures Key(AccountOf(p), s) !in t1.pending && Key(AccountOf(p), s) in t2.pending
  {
    StoredWith(t.blocks, Receive(p, s), Change(p, s));
    StoredWith(t.blocks, Change(p, s), Receive(p, s));
  }

  /** They do not in general: from any ledger that a receive block extends, one that took it and one that took
      the change block with its hash instead store the same hashes, and yet what the one has collected is
      pending in the other. */
  lemma TwinsDiverge(t: Tables, p: Word, s: Word, t1: Tables, t2: Tables)
    requires Inv(t) && Extendable(t, Receive(p, s)) && Appended(t, t1, Receive(p, s)) && Appended(t, t2, Change(p, s))
    ensures Inv(t1) && Inv(t2) && SameHashes(t1, t2) && t1.pending != t2.pending && !NoTwins(t1, t2)
  {
    TwinTables(t, p, s, t1, t2);
    TwinExtends(t, p, s);
    AppendedInv(t, t1, Receive(p, s));
    AppendedInv(t, t2, Change(p, s));
    HashesDetermineIff(t1, t2);
  }
}
