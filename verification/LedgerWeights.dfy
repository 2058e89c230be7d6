/**
Voting weights.  The ledger adds and subtracts them in unsigned 128-bit arithmetic, where a sum may wrap
around and back; so the bookkeeping is followed modulo that type, and is exact wherever the true value
is known to fit.
*/
module LedgerWeights {
  import opened Prelude
  import opened Lattice
  import opened MapTotals
  import opened LedgerTables

  /** Unsigned 128-bit subtraction and addition. */
  function Sub(a: nat, b: nat): nat {
    (a - b) % LIMIT
  }

  function Plus(a: nat, b: nat): nat {
    (a + b) % LIMIT
  }

  function Neg(a: nat): int {
    0 - a
  }

  /** `representation_add`: addition to the weight of the representative that a block names;
      subtractions are additions of a negated amount. */
  function RepAdd(weights: map<Word, nat>, block: Word, delta: int): map<Word, nat> {
    var r := RepresentativeOf(block);
    weights[r := (Weight(weights, r) + delta) % LIMIT]
  }

  predicate Small(weights: map<Word, nat>) {
    forall r :: r in weights ==> weights[r] < LIMIT
  }

  /** The change in the vote for `r` when an account goes from `before` to `after`. */
  function Shift(before: Info, after: Info, r: Word): int {
    Vote(after, r) - Vote(before, r)
  }

  predicate Congruent(x: int, y: int) {
    x % LIMIT == y % LIMIT
  }

  /** The weight of `r` follows the vote, up to the modulus. */
  predicate Shifted(old': map<Word, nat>, new': map<Word, nat>, before: Info, after: Info, r: Word) {
    Congruent(Weight(new', r), Weight(old', r) + Shift(before, after, r))
  }

  // ---------------------------------------------------------------- modular arithmetic

  lemma ModShift(x: int, q: int)
    ensures (x + LIMIT * q) % LIMIT == x % LIMIT
  {
  }

  lemma ModSum(x: int, y: int, e: int)
    requires x % LIMIT == y % LIMIT
    ensures (x + e) % LIMIT == (y + e) % LIMIT
  {
    var q := x / LIMIT - y / LIMIT;
    assert x + e == y + e + LIMIT * q;
    ModShift(y + e, q);
  }

  lemma RepAddMod(weights: map<Word, nat>, block: Word, d: int, r: Word)
    ensures Weight(RepAdd(weights, block, d), r) % LIMIT
         == (Weight(weights, r) + (if RepresentativeOf(block) == r then d else 0)) % LIMIT
  {
    SmallMod((Weight(weights, r) + d) % LIMIT, LIMIT);
  }

  lemma RepAddTwiceMod(weights: map<Word, nat>, first: Word, d: int, second: Word, e: int, r: Word)
    ensures Weight(RepAdd(RepAdd(weights, first, d), second, e), r) % LIMIT
         == (Weight(weights, r) + (if RepresentativeOf(first) == r then d else 0)
             + (if RepresentativeOf(second) == r then e else 0)) % LIMIT
  {
    var w1 := RepAdd(weights, first, d);
    RepAddMod(weights, first, d, r);
    RepAddMod(w1, second, e, r);
    var x := Weight(weights, r) + (if RepresentativeOf(first) == r then d else 0);
    var e' := if RepresentativeOf(second) == r then e else 0;
    ModSum(Weight(w1, r), x, e');
  }

  // ---------------------------------------------------------------- weights and votes

  /** The weight of `r` is the sum of the votes for it plus an offset, up to the modulus. */
  ghost predicate UpToAt(t: Tables, off: Word -> int, r: Word) {
    Congruent(Weight(t.weights, r), Total(Votes(t.accounts, r)) + off(r))
  }

  const NO_OFFSET: Word -> int := (r: Word) => 0

  ghost predicate UpTo(t: Tables, off: Word -> int) {
    forall r :: UpToAt(t, off, r)
  }

  /** The votes for `r` change as one account goes from `before` to `after`. */
  ghost predicate VotesMove(t: Tables, t': Tables, before: Info, after: Info, r: Word) {
    Total(Votes(t'.accounts, r)) == Total(Votes(t.accounts, r)) + Shift(before, after, r)
  }

  lemma CongruentSmall(x: nat, y: nat, o: int)
    requires Congruent(x, y + o) && x < LIMIT && y < LIMIT && o == 0
    ensures x == y
  {
    assert y + o == y;
    SmallMod(x, LIMIT);
    SmallMod(y, LIMIT);
  }

  lemma MoveAt(w: int, w': int, x: int, x': int, d: int)
    requires Congruent(w, x) && Congruent(w', w + d) && x' == x + d
    ensures Congruent(w', x')
  {
    ModSum(w, x, d);
  }

  lemma WeightMoves(t: Tables, t': Tables, before: Info, after: Info, off: Word -> int, r: Word)
    requires UpToAt(t, off, r) && Shifted(t.weights, t'.weights, before, after, r) && VotesMove(t, t', before, after, r)
    ensures UpToAt(t', off, r)
  {
    MoveAt(Weight(t.weights, r), Weight(t'.weights, r), Total(Votes(t.accounts, r)) + off(r),
           Total(Votes(t'.accounts, r)) + off(r), Shift(before, after, r));
  }

  lemma WeightsMove(t: Tables, t': Tables, before: Info, after: Info, off: Word -> int)
    requires UpTo(t, off)
    requires forall r :: Shifted(t.weights, t'.weights, before, after, r)
    requires forall r :: VotesMove(t, t', before, after, r)
    ensures UpTo(t', off)
  {
    forall r
      ensures UpToAt(t', off, r)
    {
      assert UpToAt(t, off, r) && Shifted(t.weights, t'.weights, before, after, r);
      assert VotesMove(t, t', before, after, r);
      WeightMoves(t, t', before, after, off, r);
    }
  }

  lemma VotesSmall(t: Tables, r: Word)
    requires Supply(t) == MAX
    ensures Total(Votes(t.accounts, r)) < LIMIT
  {
    VotesWithinBalances(t.accounts, r);
  }

  lemma WeightsSmall(t: Tables)
    requires Conserved(t)
    ensures Small(t.weights)
  {
    forall r | r in t.weights
      ensures t.weights[r] < LIMIT
    {
      VotesSmall(t, r);
      assert Weight(t.weights, r) == Total(Votes(t.accounts, r));
    }
  }

  lemma ExactUpToAt(t: Tables, r: Word)
    requires Weight(t.weights, r) == Total(Votes(t.accounts, r))
    ensures UpToAt(t, NO_OFFSET, r)
  {
    assert Weight(t.weights, r) == Total(Votes(t.accounts, r)) + NO_OFFSET(r);
  }

  lemma ExactUpTo(t: Tables)
    requires Conserved(t)
    ensures UpTo(t, NO_OFFSET)
  {
    forall r
      ensures UpToAt(t, NO_OFFSET, r)
    {
      assert Weight(t.weights, r) == Total(Votes(t.accounts, r));
      ExactUpToAt(t, r);
    }
  }

  lemma ExactAt(t: Tables, r: Word)
    requires UpTo(t, NO_OFFSET) && Small(t.weights) && Supply(t) == MAX
    ensures Weight(t.weights, r) == Total(Votes(t.accounts, r))
  {
    assert UpToAt(t, NO_OFFSET, r);
    VotesSmall(t, r);
    assert NO_OFFSET(r) == 0;
    CongruentSmall(Weight(t.weights, r), Total(Votes(t.accounts, r)), NO_OFFSET(r));
  }

  /** All votes together never exceed the supply, so a weight that is right modulo 2^128 is right. */
  lemma UpToExact(t: Tables)
    requires UpTo(t, NO_OFFSET) && Small(t.weights) && Supply(t) == MAX
    ensures Conserved(t)
  {
    forall r
      ensures Weight(t.weights, r) == Total(Votes(t.accounts, r))
    {
      ExactAt(t, r);
    }
  }
}
