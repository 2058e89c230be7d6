/**
What a block that is taken changes, by its own fields: whose balance, what is pending for whom, and whose
voting weight, exactly and not only modulo 2^128.
*/
module LedgerEffects {
  import opened Lattice
  import opened LedgerTables
  import opened LedgerSteps
  import opened LedgerProcess

  /** `from` loses `less` votes and `to` gains `more`; no other weight changes. */
  ghost predicate Reweighed(t: Tables, t': Tables, from: Word, less: nat, to: Word, more: nat) {
    forall r :: Weight(t'.weights, r) + (if r == from then less else 0)
             == Weight(t.weights, r) + (if r == to then more else 0)
  }

  /** A send of account `a`: the difference of the balances leaves the account and its representative, and
      becomes pending for the destination. */
  ghost predicate Sent(t: Tables, t': Tables, b: Word)
    requires b.Send?
  {
    b.prev in t.frontiers && t.frontiers[b.prev] in t.accounts &&
    var a := t.frontiers[b.prev];
    var i := t.accounts[a];
    && i.head == b.prev && b.balance <= i.balance
    && t'.accounts == t.accounts[a := i.(head := b, balance := b.balance, count := i.count + 1)]
    && t'.pending == t.pending[Key(Hash(b.destination), b) := Pending(a, i.balance - b.balance)]
    && t'.frontiers == (t.frontiers - {b.prev})[b := a]
    && Reweighed(t, t', Representative(i), i.balance - b.balance, Zero, 0)
  }

  /** A receive of account `a`: what was pending for it enters its balance and counts for its representative. */
  ghost predicate Received(t: Tables, t': Tables, b: Word)
    requires b.Receive?
  {
    b.prev in t.frontiers && t.frontiers[b.prev] in t.accounts && Key(t.frontiers[b.prev], b.source) in t.pending &&
    var a := t.frontiers[b.prev];
    var i := t.accounts[a];
    var amount := t.pending[Key(a, b.source)].amount;
    && i.head == b.prev
    && t'.accounts == t.accounts[a := i.(head := b, balance := i.balance + amount, count := i.count + 1)]
    && t'.pending == t.pending - {Key(a, b.source)}
    && t'.frontiers == (t.frontiers - {b.prev})[b := a]
    && Reweighed(t, t', Zero, 0, Representative(i), amount)
  }

  /** The account in the block is new, and what was pending for it counts for the representative in the block. */
  ghost predicate Opened(t: Tables, t': Tables, b: Word)
    requires b.Open?
  {
    var a := Hash(b.account);
    a !in t.accounts && Key(a, b.source) in t.pending &&
    var amount := t.pending[Key(a, b.source)].amount;
    && t'.accounts == t.accounts[a := Info(b, b, b, amount, 1)]
    && t'.pending == t.pending - {Key(a, b.source)}
    && t'.frontiers == t.frontiers[b := a]
    && Reweighed(t, t', Zero, 0, Hash(b.representative), amount)
  }

  /** The whole balance of account `a` moves from its representative to the one in the block. */
  ghost predicate Changed(t: Tables, t': Tables, b: Word)
    requires b.Change?
  {
    b.prev in t.frontiers && t.frontiers[b.prev] in t.accounts &&
    var a := t.frontiers[b.prev];
    var i := t.accounts[a];
    && i.head == b.prev
    && t'.accounts == t.accounts[a := i.(head := b, repBlock := b, count := i.count + 1)]
    && t'.pending == t.pending
    && t'.frontiers == (t.frontiers - {b.prev})[b := a]
    && Reweighed(t, t', Representative(i), i.balance, Hash(b.representative), i.balance)
  }

  /** The account in the block has the balance in the block, which counts for the representative in the block;
      the difference is pending for the link, or was pending under it. */
  ghost predicate Restated(t: Tables, t': Tables, b: Word)
    requires b.State?
  {
    var a := Hash(b.account);
    var i := InfoGet(t, a);
    && (a in t.accounts <==> b.prev != Zero) && i.head == b.prev
    && t'.accounts == t.accounts[a := Info(b, b, if a in t.accounts then i.openBlock else b, b.balance, i.count + 1)]
    && (if b.balance < i.balance then
          t'.pending == t.pending[Key(Hash(b.link), b) := Pending(a, i.balance - b.balance)]
        else if b.link == Zero then t'.pending == t.pending && b.balance == i.balance
        else
          && Key(a, b.link) in t.pending && b.balance == i.balance + t.pending[Key(a, b.link)].amount
          && t'.pending == t.pending - {Key(a, b.link)})
    && t'.frontiers == t.frontiers - {b.prev}
    && Reweighed(t, t', Representative(i), i.balance, Hash(b.representative), b.balance)
  }

  ghost predicate Effect(t: Tables, t': Tables, b: Word) {
    && t'.blocks == t.blocks + {b}
    && match b
       case Send(_, _, _) => Sent(t, t', b)
       case Receive(_, _) => Received(t, t', b)
       case Open(_, _, _) => Opened(t, t', b)
       case Change(_, _) => Changed(t, t', b)
       case State(_, _, _, _, _) => Restated(t, t', b)
       case _ => false
  }

  // ---------------------------------------------------------------- exact weights

  lemma WeightsMoveExactly(t: Tables, t': Tables, b: Word, r: Word)
    requires Conserved(t) && Conserved(t') && t'.accounts == t.accounts[AccountOf(b) := InfoFor(b)]
    ensures Weight(t'.weights, r) + Vote(InfoGet(t, AccountOf(b)), r) == Weight(t.weights, r) + Vote(InfoFor(b), r)
  {
    VotesPut(t.accounts, AccountOf(b), InfoFor(b), r);
  }

  /** What a ledger knows about the place of a block that extends it. */
  predicate Placed(t: Tables, b: Word) {
    var a := AccountOf(b);
    && Extendable(t, b)
    && (if Prev(b) == Zero then a !in t.accounts
        else a in t.accounts && t.accounts[a] == InfoFor(Prev(b)) && IsBlock(Prev(b)) && AccountOf(Prev(b)) == a)
    && (Legacy(b) && Prev(b) != Zero ==> Prev(b) in t.frontiers && t.frontiers[Prev(b)] == a)
    && (Source(b) != Zero ==> PendingOk(t, Key(a, Source(b)))) && Source(b) != GENESIS_ACCOUNT
    && Zero !in t.frontiers
  }

  lemma IsPlaced(t: Tables, b: Word)
    requires Shape(t) && Extendable(t, b)
    ensures Placed(t, b)
  {
    var a := AccountOf(b);
    ShapeAround(t, b);
    assert Prev(b) != Zero ==> AccountOk(t, a) && BlockOk(t, Prev(b));
    forall h | h in t.frontiers
      ensures h != Zero
    {
      assert FrontierOk(t, h);
    }
    assert Source(b) != Zero ==> PendingOk(t, Key(a, Source(b)));
  }

  /** The block is appended in its place, and every weight moves by what the account's vote moves. */
  ghost predicate Moves(t: Tables, t': Tables, b: Word) {
    && Placed(t, b) && Extends(t, t', b)
    && forall r ::
         Weight(t'.weights, r) + Vote(InfoGet(t, AccountOf(b)), r) == Weight(t.weights, r) + Vote(InfoFor(b), r)
  }

  lemma SendEffect(t: Tables, t': Tables, b: Word)
    requires Moves(t, t', b) && b.Send?
    ensures Sent(t, t', b)
  {
  }

  lemma ReceiveEffect(t: Tables, t': Tables, b: Word)
    requires Moves(t, t', b) && b.Receive?
    ensures Received(t, t', b)
  {
  }

  lemma OpenEffect(t: Tables, t': Tables, b: Word)
    requires Moves(t, t', b) && b.Open?
    ensures Opened(t, t', b)
  {
  }

  lemma ChangeEffect(t: Tables, t': Tables, b: Word)
    requires Moves(t, t', b) && b.Change?
    ensures Changed(t, t', b)
  {
  }

  lemma StateEffect(t: Tables, t': Tables, b: Word)
    requires Moves(t, t', b) && b.State?
    ensures Restated(t, t', b)
  {
    assert InfoFor(b) == Info(b, b, if b.prev == Zero then b else OpenOf(b.prev), b.balance, CountOf(b.prev) + 1);
  }

  /** A block that is taken has the effect that its fields say. */
  lemma TakenHasEffect(t: Tables, t': Tables, b: Word)
    requires Inv(t) && Extendable(t, b) && Appended(t, t', b)
    ensures Effect(t, t', b)
  {
    AppendedInv(t, t', b);
    IsPlaced(t, b);
    forall r
      ensures Weight(t'.weights, r) + Vote(InfoGet(t, AccountOf(b)), r) == Weight(t.weights, r) + Vote(InfoFor(b), r)
    {
      WeightsMoveExactly(t, t', b, r);
    }
    match b
    case Send(_, _, _) => SendEffect(t, t', b);
    case Receive(_, _) => ReceiveEffect(t, t', b);
    case Open(_, _, _) => OpenEffect(t, t', b);
    case Change(_, _) => ChangeEffect(t, t', b);
    case State(_, _, _, _, _) => StateEffect(t, t', b);
  }
}
