/**
Whole histories of a ledger: blocks arrive, blocks are rolled back, and the winner of a vote replaces what
had taken its place (rai/node/node.cpp).
*/
module LedgerHistory {
  import opened Lattice
  import opened LedgerTables
  import opened LedgerSteps
  import opened LedgerHashes
  import opened LedgerWeights
  import opened LedgerProcess
  import opened LedgerVerdicts
  import opened LedgerUndo
  import opened LedgerStore
  import opened LedgerObject
  import opened LedgerForks

  // ---------------------------------------------------------------- a rollback, visit by visit

  /** Visiting the given blocks one after the other, each the last of its account and uncollected. */
  predicate CanUnwind(t: Tables, xs: seq<Word>)
    decreases |xs|
  {
    xs == [] || (IsBlock(xs[0]) && Retractable(t, xs[0]) && CanUnwind(Undo(t, xs[0]), xs[1..]))
  }

  function Unwound(t: Tables, xs: seq<Word>): Tables
    requires CanUnwind(t, xs)
    decreases |xs|
  {
    if xs == [] then t else Unwound(Undo(t, xs[0]), xs[1..])
  }

  function Elements(xs: seq<Word>): set<Word> {
    set x | x in xs
  }

  /** `t'` is what becomes of `t` when exactly the dependents of `h` are visited, in some order. */
  ghost predicate RollsBack(t: Tables, t': Tables, h: Word) {
    exists xs :: CanUnwind(t, xs) && Elements(xs) == Dependents(t.blocks, h) && SameLedger(Unwound(t, xs), t')
  }

  lemma UndoInv(t: Tables, x: Word)
    requires Inv(t) && IsBlock(x) && Retractable(t, x)
    ensures Inv(Undo(t, x)) && Undo(t, x).blocks == t.blocks - {x}
  {
    ShapeNearby(t, x);
    WeightsSmall(t);
    UndoIsUndone(t, x);
    InvIsGood(t);
    UndoneGood(t, Undo(t, x), x, NO_OFFSET);
    InvIsGood(Undo(t, x));
  }

  lemma {:induction false} UnwoundInv(t: Tables, xs: seq<Word>)
    requires Inv(t) && CanUnwind(t, xs)
    ensures Inv(Unwound(t, xs)) && Unwound(t, xs).blocks == t.blocks - Elements(xs)
    decreases |xs|
  {
    if xs != [] {
      UndoInv(t, xs[0]);
      UnwoundInv(Undo(t, xs[0]), xs[1..]);
      assert Elements(xs) == {xs[0]} + Elements(xs[1..]);
    }
  }

  lemma {:induction false} GenesisStays(t: Tables, xs: seq<Word>)
    requires CanUnwind(t, xs)
    ensures GENESIS !in xs
    decreases |xs|
  {
    if xs != [] {
      GenesisStays(Undo(t, xs[0]), xs[1..]);
    }
  }

  // ---------------------------------------------------------------- there is an order

  lemma {:induction false} Biggest(d: set<Word>) returns (x: Word)
    requires d != {}
    ensures x in d && forall y :: y in d ==> Size(y) <= Size(x)
    decreases d
  {
    x :| x in d;
    if d != {x} {
      var y := Biggest(d - {x});
      if Size(x) < Size(y) {
        x := y;
      }
    }
  }

  /** With a block, everything in the ledger that depends on it. */
  ghost predicate UpClosed(blocks: set<Word>, d: set<Word>) {
    d <= blocks && forall x, y :: x in blocks && y in d && DependsOn(x, y) ==> x in d
  }

  lemma FollowerDepends(r: Word)
    requires Prev(r) != Zero
    ensures DependsOn(r, Prev(r)) && Size(Prev(r)) < Size(r)
  {
  }

  /** The biggest block of such a set is the last of its account and has not been collected. */
  lemma BiggestRetracts(t: Tables, d: set<Word>, x: Word)
    requires Shape(t) && UpClosed(t.blocks, d) && GENESIS !in d
    requires x in d && forall y :: y in d ==> Size(y) <= Size(x)
    ensures IsBlock(x) && Retractable(t, x)
  {
    assert BlockOk(t, x) && PlacedOk(t, x) && SendOk(t, x);
    var h := t.accounts[AccountOf(x)].head;
    if h != x {
      assert AccountOk(t, AccountOf(x));
      var r := Successor(t, h, x);
      FollowerDepends(r);
    }
    if Collected(t, x) {
      var r :| r in t.blocks && Source(r) == x;
      CollectorDepends(r);
      DependsSize(r, x);
    }
  }

  lemma UnwindOne(t: Tables, d: set<Word>) returns (x: Word)
    requires Inv(t) && UpClosed(t.blocks, d) && GENESIS !in d && d != {}
    ensures x in d && IsBlock(x) && Retractable(t, x)
    ensures Inv(Undo(t, x)) && UpClosed(Undo(t, x).blocks, d - {x})
  {
    x := Biggest(d);
    BiggestRetracts(t, d, x);
    UndoInv(t, x);
  }

  lemma {:induction false} Unwinding(t: Tables, d: set<Word>) returns (xs: seq<Word>)
    requires Inv(t) && UpClosed(t.blocks, d) && GENESIS !in d
    ensures CanUnwind(t, xs) && Elements(xs) == d
    decreases d
  {
    if d == {} {
      xs := [];
    } else {
      var x := UnwindOne(t, d);
      var rest := Unwinding(Undo(t, x), d - {x});
      xs := [x] + rest;
      assert xs[1..] == rest;
      assert Elements(xs) == {x} + Elements(rest);
    }
  }

  lemma DependentsUpClosed(blocks: set<Word>, h: Word)
    requires h != GENESIS && IsBlock(h)
    ensures UpClosed(blocks, Dependents(blocks, h)) && GENESIS !in Dependents(blocks, h)
  {
    forall x, y | x in blocks && y in Dependents(blocks, h) && DependsOn(x, y)
      ensures x in Dependents(blocks, h)
    {
      DependsTransitive(x, y, h);
    }
    NumDepends(0, h);
  }

  /** A valid ledger without the dependents of `h` is what their visits, in some order, make of it. */
  lemma RollsBackSo(t: Tables, t': Tables, h: Word)
    requires Inv(t) && Inv(t') && h in t.blocks && h != GENESIS
    requires t'.blocks == t.blocks - Dependents(t.blocks, h)
    ensures RollsBack(t, t', h)
  {
    assert BlockOk(t, h);
    DependentsUpClosed(t.blocks, h);
    var xs := Unwinding(t, Dependents(t.blocks, h));
    UnwoundInv(t, xs);
    SameBlocksSameLedger(Unwound(t, xs), t');
  }

  lemma RollsBackInv(t: Tables, t': Tables, h: Word)
    requires Inv(t) && RollsBack(t, t', h)
    ensures Inv(t') && t'.blocks == t.blocks - Dependents(t.blocks, h) && GENESIS !in Dependents(t.blocks, h)
  {
    var xs :| CanUnwind(t, xs) && Elements(xs) == Dependents(t.blocks, h) && SameLedger(Unwound(t, xs), t');
    UnwoundInv(t, xs);
    GenesisStays(t, xs);
    SameInv(Unwound(t, xs), t');
  }

  // ---------------------------------------------------------------- the successor of a root

  /** `root()`: the block before, or the account when there is none. */
  function Root(b: Word): Word {
    match b
    case Open(_, _, account) => account
    case State(account, prev, _, _, _) => if prev != Zero then prev else account
    case _ => Prev(b)
  }

  /** Some stored block follows the block of that hash. */
  ghost predicate HasFollower(t: Tables, root: Word) {
    exists x :: Follows(t.blocks, x) && SameHash(Prev(x), root)
  }

  /** `ledger::successor`: the first block of the account of that number, or else the stored successor of
      the block of that hash, or none. */
  ghost predicate IsSuccessor(t: Tables, root: Word, r: Word) {
    if Hash(root) in t.accounts then r == t.accounts[Hash(root)].openBlock
    else if HasFollower(t, root) then Follows(t.blocks, r) && SameHash(Prev(r), root)
    else r == Zero
  }

  method FindSuccessor(ledger: Ledger, root: Word) returns (r: Word)
    requires ledger.Valid()
    ensures IsSuccessor(ledger.View(), root, r)
  {
    if Hash(root) in ledger.accounts {
      return ledger.accounts[Hash(root)].openBlock;
    }
    if p :| p in ledger.successors && SameHash(p, root) {
      assert Follows(ledger.blocks, ledger.successors[p]);
      return ledger.successors[p];
    }
    assert forall x :: Follows(ledger.blocks, x) ==> Prev(x) in ledger.successors;
    return Zero;
  }

  lemma {:induction false} OpenInLedger(t: Tables, x: Word)
    requires Shape(t) && x in t.blocks
    ensures var r := OpenOf(x); r in t.blocks && AccountOf(r) == AccountOf(x) && Prev(r) == Zero
    decreases Size(x)
  {
    assert BlockOk(t, x) && PlacedOk(t, x);
    if Prev(x) != Zero {
      FollowerDepends(x);
      OpenInLedger(t, Prev(x));
    }
  }

  lemma SuccessorIn(t: Tables, root: Word, r: Word)
    requires Shape(t) && IsSuccessor(t, root, r) && r != Zero
    ensures r in t.blocks && IsBlock(r)
    ensures Hash(root) in t.accounts ==> AccountOf(r) == Hash(root) && Prev(r) == Zero
    ensures Hash(root) !in t.accounts ==>
              Prev(r) in t.blocks && SameHash(Prev(r), root) && AccountOf(r) == AccountOf(Prev(r))
  {
    if Hash(root) in t.accounts {
      assert AccountOk(t, Hash(root));
      OpenInLedger(t, t.accounts[Hash(root)].head);
    }
    assert BlockOk(t, r) && PlacedOk(t, r);
  }

  lemma OneSuccessor(t: Tables, root: Word, r: Word, r': Word)
    requires Shape(t) && IsSuccessor(t, root, r) && IsSuccessor(t, root, r')
    ensures r == r'
  {
    assert Zero in t.blocks ==> BlockOk(t, Zero);
    if r != r' {
      SuccessorIn(t, root, r);
      SuccessorIn(t, root, r');
      if Hash(root) !in t.accounts {
        HashNamesOneBlock(t, Prev(r), Prev(r'));
      }
      NoForkInside(t, r, r');
    }
  }

  /** A read block that follows a block with the hash of a stored one follows that one. */
  lemma ReadFollows(t: Tables, c: Word, x: Word)
    requires Shape(t) && ReadAs(t.blocks, c, c) && x in t.blocks && SameHash(x, Prev(c)) && Prev(c) != Zero
    ensures Prev(c) == x
  {
    assert HasHash(t.blocks, Prev(c));
    HashNamesOneBlock(t, x, Prev(c));
  }

  /** The successor of a block's root, if it is another block, is its rival exactly when the block opens an
      account that is open, or follows a block of its own account and that block's hash is not the number of
      an open account. */
  lemma SuccessorIsRival(t: Tables, c: Word, h: Word)
    requires Shape(t) && IsBlock(c) && ReadAs(t.blocks, c, c) && IsSuccessor(t, Root(c), h) && h != Zero && h != c
    ensures Rivals(h, c) <==> if Prev(c) == Zero then AccountOf(c) in t.accounts
                              else Hash(Prev(c)) !in t.accounts && AccountOf(Prev(c)) == AccountOf(c)
  {
    SuccessorIn(t, Root(c), h);
    assert Zero in t.accounts ==> AccountOk(t, Zero) && BlockOk(t, t.accounts[Zero].head);
    HashOfParts(Root(c));
    if Hash(Root(c)) !in t.accounts && Prev(c) != Zero {
      ReadFollows(t, c, Prev(h));
    }
    assert BlockOk(t, h);
    assert Zero in t.blocks ==> BlockOk(t, Zero);
  }

  /** Forcing a state block that follows another account's block takes the successor of that block away
      from its account, and then the state block is refused all the same. */
  lemma StrayForced(t: Tables, t': Tables, c: Word, h: Word)
    requires Stray(t, c) && Hash(c.prev) !in t.accounts && IsSuccessor(t, Root(c), h) && h != Zero
    requires RolledBack(t, t', h)
    ensures AccountOf(h) == AccountOf(c.prev) != AccountOf(c) && !Extendable(t', c)
  {
    assert BlockOk(t, c.prev);
    SuccessorIn(t, Root(c), h);
    HashNamesOneBlock(t, c.prev, Prev(h));
    assert AccountOf(c) in t'.accounts ==> AccountOk(t', AccountOf(c));
  }

  // ---------------------------------------------------------------- events

  /** Blocks arrive and win as numbers; `raw` is any word with those numbers. */
  datatype Event = Arrives(raw: Word, signer: Word) | Falls(block: Word) | Wins(raw: Word, signer: Word)

  ghost predicate WinsOverGenesis(t: Tables, raw: Word) {
    exists c :: ReadAs(t.blocks, raw, c) && IsSuccessor(t, Root(c), GENESIS) && !SameHash(GENESIS, c)
  }

  /** Events that the model follows: blocks, and no rollback of the genesis block. */
  ghost predicate Sensible(t: Tables, e: Event) {
    match e
    case Arrives(raw, _) => IsBlock(raw)
    case Falls(h) => h in t.blocks && h != GENESIS
    case Wins(raw, _) => IsBlock(raw) && !WinsOverGenesis(t, raw)
  }

  ghost predicate Taken(t: Tables, t': Tables, b: Word, signer: Word) {
    if Extendable(t, b) && signer == AccountOf(b) then Appended(t, t', b) else t' == t
  }

  ghost predicate Accepts(t: Tables, t': Tables, raw: Word, signer: Word) {
    exists b :: ReadAs(t.blocks, raw, b) && Taken(t, t', b, signer)
  }

  /** Nothing is in the way of `c`: its place is free, or a block with its hash has it. */
  predicate Unopposed(h: Word, c: Word) {
    h == Zero || SameHash(h, c)
  }

  /** What had taken the place of `c` is rolled back. */
  ghost predicate GivesWay(t: Tables, t': Tables, c: Word, h: Word) {
    IsSuccessor(t, Root(c), h) && if Unopposed(h, c) then t' == t else RollsBack(t, t', h)
  }

  ghost predicate Replaces(t: Tables, t': Tables, raw: Word, signer: Word) {
    exists c, h, between ::
      ReadAs(t.blocks, raw, c) && GivesWay(t, between, c, h) && Accepts(between, t', c, signer)
  }

  /** One event; what makes no sense is skipped. */
  ghost predicate Happens(t: Tables, e: Event, t': Tables) {
    if !Sensible(t, e) then t' == t
    else
      match e
      case Arrives(raw, signer) => Accepts(t, t', raw, signer)
      case Falls(h) => RollsBack(t, t', h)
      case Wins(raw, signer) => Replaces(t, t', raw, signer)
  }

  /** The events lead from `t` to `t'`. */
  ghost predicate Leads(t: Tables, events: seq<Event>, t': Tables) {
    if events == [] then t' == t
    else
      var n := |events| - 1;
      exists before :: Leads(t, events[..n], before) && Happens(before, events[n], t')
  }

  /** A history leads from the genesis block to `t`. */
  ghost predicate Reaches(events: seq<Event>, t: Tables) {
    Leads(GenesisTables(), events, t)
  }

  lemma LeadsNext(t: Tables, events: seq<Event>, e: Event, before: Tables, t': Tables)
    requires Leads(t, events, before) && Happens(before, e, t')
    ensures Leads(t, events + [e], t')
  {
    assert (events + [e])[..|events|] == events;
  }

  lemma {:induction false} LeadsOn(t: Tables, first: seq<Event>, second: seq<Event>, between: Tables, t': Tables)
    requires Leads(t, first, between) && Leads(between, second, t')
    ensures Leads(t, first + second, t')
  {
    if second == [] {
      assert first + second == first;
    } else {
      var n := |second| - 1;
      var before :| Leads(between, second[..n], before) && Happens(before, second[n], t');
      LeadsOn(t, first, second[..n], between, before);
      LeadsNext(t, first + second[..n], second[n], before, t');
      assert first + second == first + second[..n] + [second[n]];
    }
  }

  // ---------------------------------------------------------------- every history

  /** What every event keeps: the invariant, the genesis block, and that account numbers are written as
      numbers. */
  ghost predicate Sound(t: Tables) {
    Inv(t) && GENESIS in t.blocks && AllTidy(t.blocks)
  }

  lemma TakenSound(t: Tables, t': Tables, b: Word, signer: Word)
    requires Sound(t) && Tidy(b) && Taken(t, t', b, signer)
    ensures Sound(t')
  {
    if Extendable(t, b) && signer == AccountOf(b) {
      AppendedInv(t, t', b);
    }
  }

  lemma AcceptsSound(t: Tables, t': Tables, raw: Word, signer: Word)
    requires Sound(t) && Accepts(t, t', raw, signer)
    ensures Sound(t')
  {
    var b :| ReadAs(t.blocks, raw, b) && Taken(t, t', b, signer);
    ReadKeepsHash(t.blocks, raw, b);
    TakenSound(t, t', b, signer);
  }

  lemma RollsBackSound(t: Tables, t': Tables, h: Word)
    requires Sound(t) && RollsBack(t, t', h)
    ensures Sound(t') && t'.blocks == t.blocks - Dependents(t.blocks, h)
  {
    RollsBackInv(t, t', h);
  }

  lemma GivesWaySound(t: Tables, t': Tables, c: Word, h: Word)
    requires Sound(t) && GivesWay(t, t', c, h)
    ensures Sound(t') && t'.blocks == if Unopposed(h, c) then t.blocks else t.blocks - Dependents(t.blocks, h)
  {
    if !Unopposed(h, c) {
      RollsBackSound(t, t', h);
    }
  }

  lemma HappensSound(t: Tables, e: Event, t': Tables)
    requires Sound(t) && Happens(t, e, t')
    ensures Sound(t')
  {
    if Sensible(t, e) {
      match e
      case Arrives(raw, signer) => AcceptsSound(t, t', raw, signer);
      case Falls(h) => RollsBackSound(t, t', h);
      case Wins(raw, signer) =>
        var c, h, between :|
          ReadAs(t.blocks, raw, c) && GivesWay(t, between, c, h) && Accepts(between, t', c, signer);
        GivesWaySound(t, between, c, h);
        AcceptsSound(between, t', c, signer);
    }
  }

  /** Every state of every history keeps the invariant: conservation of the supply and of the weights, one
      chain per account, nothing collected twice. */
  lemma {:induction false} HistoryKeepsInv(events: seq<Event>, t: Tables)
    requires Reaches(events, t)
    ensures Inv(t) && Sound(t)
  {
    if events == [] {
      GenesisInv();
    } else {
      var n := |events| - 1;
      var before :| Leads(GenesisTables(), events[..n], before) && Happens(before, events[n], t);
      HistoryKeepsInv(events[..n], before);
      HappensSound(before, events[n], t);
    }
  }

  lemma SameExtendable(t: Tables, u: Tables, b: Word)
    requires SameLedger(t, u)
    ensures Extendable(t, b) == Extendable(u, b)
  {
  }

  lemma AcceptsSame(t: Tables, u: Tables, raw: Word, signer: Word, t': Tables, u': Tables)
    requires Sound(t) && Sound(u) && SameLedger(t, u) && Accepts(t, t', raw, signer) && Accepts(u, u', raw, signer)
    ensures SameLedger(t', u')
  {
    var b :| ReadAs(t.blocks, raw, b) && Taken(t, t', b, signer);
    var c :| ReadAs(u.blocks, raw, c) && Taken(u, u', c, signer);
    ReadOnce(t, raw, b, c);
    SameExtendable(t, u, b);
    AcceptsSound(t, t', raw, signer);
    AcceptsSound(u, u', raw, signer);
    SameBlocksSameLedger(t', u');
  }

  lemma RollsBackSame(t: Tables, u: Tables, h: Word, t': Tables, u': Tables)
    requires Inv(t) && Inv(u) && SameLedger(t, u) && RollsBack(t, t', h) && RollsBack(u, u', h)
    ensures SameLedger(t', u')
  {
    RollsBackInv(t, t', h);
    RollsBackInv(u, u', h);
    SameBlocksSameLedger(t', u');
  }

  lemma SameSuccessor(t: Tables, u: Tables, root: Word, r: Word)
    requires SameLedger(t, u)
    ensures IsSuccessor(t, root, r) == IsSuccessor(u, root, r)
  {
    assert HasFollower(t, root) == HasFollower(u, root);
  }

  lemma GivesWaySame(t: Tables, u: Tables, c: Word, h: Word, k: Word, t': Tables, u': Tables)
    requires Sound(t) && Sound(u) && SameLedger(t, u) && GivesWay(t, t', c, h) && GivesWay(u, u', c, k)
    ensures SameLedger(t', u')
  {
    SameSuccessor(t, u, Root(c), k);
    OneSuccessor(t, Root(c), h, k);
    GivesWaySound(t, t', c, h);
    GivesWaySound(u, u', c, k);
    SameBlocksSameLedger(t', u');
  }

  lemma ReplacesSame(t: Tables, u: Tables, raw: Word, signer: Word, t': Tables, u': Tables)
    requires Sound(t) && Sound(u) && SameLedger(t, u) && Replaces(t, t', raw, signer) && Replaces(u, u', raw, signer)
    ensures SameLedger(t', u')
  {
    var c, h, between :| ReadAs(t.blocks, raw, c) && GivesWay(t, between, c, h) && Accepts(between, t', c, signer);
    var d, k, between' :| ReadAs(u.blocks, raw, d) && GivesWay(u, between', d, k) && Accepts(between', u', d, signer);
    ReadOnce(t, raw, c, d);
    GivesWaySame(t, u, c, h, k, between, between');
    GivesWaySound(t, between, c, h);
    GivesWaySound(u, between', c, k);
    AcceptsSame(between, between', c, signer, t', u');
  }

  lemma SameSense(t: Tables, u: Tables, e: Event)
    requires SameLedger(t, u)
    ensures Sensible(t, e) == Sensible(u, e)
  {
    if e.Wins? {
      forall c
        ensures IsSuccessor(t, Root(c), GENESIS) == IsSuccessor(u, Root(c), GENESIS)
      {
        SameSuccessor(t, u, Root(c), GENESIS);
      }
      assert WinsOverGenesis(t, e.raw) == WinsOverGenesis(u, e.raw);
    }
  }

  lemma HappensSame(t: Tables, u: Tables, e: Event, t': Tables, u': Tables)
    requires Sound(t) && Sound(u) && SameLedger(t, u) && Happens(t, e, t') && Happens(u, e, u')
    ensures SameLedger(t', u')
  {
    SameSense(t, u, e);
    if Sensible(t, e) {
      match e
      case Arrives(raw, signer) => AcceptsSame(t, u, raw, signer, t', u');
      case Falls(h) => RollsBackSame(t, u, h, t', u');
      case Wins(raw, signer) => ReplacesSame(t, u, raw, signer, t', u');
    }
  }

  /** A history determines its ledger, in whatever order the blocks of each rollback are visited. */
  lemma {:induction false} HistoryDetermines(events: seq<Event>, t: Tables, u: Tables)
    requires Reaches(events, t) && Reaches(events, u)
    ensures SameLedger(t, u)
  {
    if events != [] {
      var n := |events| - 1;
      var before :| Leads(GenesisTables(), events[..n], before) && Happens(before, events[n], t);
      var before' :| Leads(GenesisTables(), events[..n], before') && Happens(before', events[n], u);
      HistoryDetermines(events[..n], before, before');
      HistoryKeepsInv(events[..n], before);
      HistoryKeepsInv(events[..n], before');
      HappensSame(before, before', events[n], t, u);
    }
  }

  /** Convergence: two histories that end with the same blocks end with the same ledger, whatever order the
      blocks came in and whatever came and went in between. */
  lemma HistoriesConverge(events: seq<Event>, events': seq<Event>, t: Tables, u: Tables)
    requires Reaches(events, t) && Reaches(events', u) && t.blocks == u.blocks
    ensures SameLedger(t, u)
  {
    HistoryKeepsInv(events, t);
    HistoryKeepsInv(events', u);
    SameBlocksSameLedger(t, u);
  }

  // ---------------------------------------------------------------- the ledger lives them

  lemma WhenOverGenesis(t: Tables, raw: Word, c: Word, h: Word)
    requires Shape(t) && ReadAs(t.blocks, raw, c) && IsSuccessor(t, Root(c), h)
    ensures WinsOverGenesis(t, raw) <==> h == GENESIS && !SameHash(GENESIS, c)
  {
    if d :| ReadAs(t.blocks, raw, d) && IsSuccessor(t, Root(d), GENESIS) && !SameHash(GENESIS, d) {
      ReadOnce(t, raw, c, d);
      OneSuccessor(t, Root(c), h, GENESIS);
    }
  }

  /** Rolls back what is in the way of `c`, unless its hash is that of `c`. */
  method MakeRoom(ledger: Ledger, c: Word) returns (h: Word)
    requires ledger.Valid() && IsBlock(c)
    requires IsSuccessor(ledger.View(), Root(c), GENESIS) ==> SameHash(GENESIS, c)
    modifies ledger
    ensures ledger.Valid() && GivesWay(old(ledger.View()), ledger.View(), c, h)
    ensures ledger.blocks == if Unopposed(h, c) then old(ledger.blocks)
                             else old(ledger.blocks) - Dependents(old(ledger.blocks), h)
    ensures Unopposed(h, c) ==> ledger.View() == old(ledger.View())
    ensures h != Zero ==> h in old(ledger.blocks)
    ensures Rivals(h, c) && !Unopposed(h, c) ==>
              && (Extendable(ledger.View(), c) <==> CanReplace(old(ledger.View()), h, c))
              && (Extendable(ledger.View(), c) <==> exists t0 :: Forked(t0, old(ledger.View()), h, c))
  {
    ghost var t := ledger.View();
    h := FindSuccessor(ledger, Root(c));
    if h != Zero {
      SuccessorIn(t, Root(c), h);
    }
    if h != Zero && !SameHash(h, c) {
      ledger.Rollback(h);
      RollsBackSo(t, ledger.View(), h);
      if Rivals(h, c) {
        ForkResolves(t, ledger.View(), h, c);
      }
    }
  }

  /** Processes a block that the ledger has read. */
  method ProcessRead(ledger: Ledger, c: Word, signer: Word) returns (code: Code)
    requires ledger.Valid() && IsBlock(c) && ReadAs(ledger.blocks, c, c)
    modifies ledger
    ensures ledger.Valid() && Accepts(old(ledger.View()), ledger.View(), c, signer)
    ensures ledger.blocks == old(ledger.blocks) + (if code == Progress then {c} else {})
    ensures code == Progress <==> Extendable(old(ledger.View()), c) && signer == AccountOf(c)
    ensures code == Old <==> HasHash(old(ledger.blocks), c)
  {
    ghost var t, b := ledger.View(), c;
    code, b := ledger.Process(c, signer);
    ReadOnce(t, c, b, c);
    assert Taken(t, ledger.View(), c, signer);
  }

  /** The winner of a vote replaces what had taken its place.  `c` is the winner as the ledger reads it, and `h`
      the successor of its root.  Unless the two have the same hash, the ledger loses exactly `h` and what
      depends on it; and it gains the winner if it is accepted.  If nothing was in the way, that is so exactly
      when the winner extended the ledger; if its rival was, exactly when the winner can replace it, or in
      other words the two once extended the same ledger, and their hashes differ. */
  method Force(ledger: Ledger, raw: Word, signer: Word) returns (code: Code, ghost c: Word, ghost h: Word)
    requires ledger.Valid() && Sensible(ledger.View(), Wins(raw, signer))
    modifies ledger
    ensures ledger.Valid() && ReadAs(old(ledger.blocks), raw, c) && IsSuccessor(old(ledger.View()), Root(c), h)
    ensures ledger.blocks == (if Unopposed(h, c) then old(ledger.blocks)
                              else old(ledger.blocks) - Dependents(old(ledger.blocks), h))
                             + (if code == Progress then {c} else {})
    ensures h == Zero ==> (code == Progress <==> Extendable(old(ledger.View()), c) && signer == AccountOf(c))
    ensures h != Zero && SameHash(h, c) ==> code == Old
    ensures Rivals(h, c) && h != Zero ==>
              (code == Progress <==> signer == AccountOf(c) && CanReplace(old(ledger.View()), h, c) && !SameHash(h, c))
    ensures Rivals(h, c) && h != Zero ==>
              (code == Progress <==>
                && signer == AccountOf(c) && (exists t0 :: Forked(t0, old(ledger.View()), h, c)) && !SameHash(h, c))
    ensures Happens(old(ledger.View()), Wins(raw, signer), ledger.View())
  {
    ghost var t := ledger.View();
    var winner := ledger.Read(raw);
    c := winner;
    ReadKeepsHash(t.blocks, raw, c);
    var successor := MakeRoom(ledger, winner);
    h := successor;
    ghost var between := ledger.View();
    ReadStands(t, between, raw, c);
    code := ProcessRead(ledger, winner, signer);
    assert h != Zero && SameHash(h, c) ==> HasHash(t.blocks, c);
    assert GivesWay(t, between, c, h);
  }

  method Happen(ledger: Ledger, e: Event)
    requires ledger.Valid()
    modifies ledger
    ensures ledger.Valid() && Happens(old(ledger.View()), e, ledger.View())
  {
    match e {
      case Arrives(raw, signer) =>
        if IsBlock(raw) {
          ghost var t := ledger.View();
          var _, b := ledger.Process(raw, signer);
          assert Taken(t, ledger.View(), b, signer);
        }
      case Falls(h) =>
        if h in ledger.blocks && h != GENESIS {
          ghost var t := ledger.View();
          ledger.Rollback(h);
          RollsBackSo(t, ledger.View(), h);
        }
      case Wins(raw, signer) =>
        if IsBlock(raw) {
          var c := ledger.Read(raw);
          var h := FindSuccessor(ledger, Root(c));
          WhenOverGenesis(ledger.View(), raw, c, h);
          if h != GENESIS || SameHash(GENESIS, c) {
            var _, _, _ := Force(ledger, raw, signer);
          }
        }
    }
  }

  lemma ReachesNext(events: seq<Event>, i: nat, before: Tables, t: Tables)
    requires i < |events| && Reaches(events[..i], before) && Happens(before, events[i], t)
    ensures Reaches(events[..i + 1], t)
  {
    assert events[..i + 1][..i] == events[..i];
  }

  /** Any history can be lived through, and the ledger ends where it leads. */
  method Play(events: seq<Event>) returns (ledger: Ledger)
    ensures fresh(ledger) && ledger.Valid() && Reaches(events, ledger.View())
  {
    ledger := new Ledger();
    for i := 0 to |events|
      invariant fresh(ledger) && ledger.Valid() && Reaches(events[..i], ledger.View())
    {
      ghost var before := ledger.View();
      Happen(ledger, events[i]);
      ReachesNext(events, i, before, ledger.View());
    }
    assert events[..|events|] == events;
  }

  // ---------------------------------------------------------------- a winner with the hash of the loser

  /** A block that extends the ledger can arrive. */
  lemma OneArrives(t: Tables, y: Word) returns (t': Tables)
    requires Sound(t) && Extendable(t, y) && Tidy(y)
    ensures Leads(t, [Arrives(y, AccountOf(y))], t') && Sound(t') && Extends(t, t', y)
  {
    t' := CanAppend(t, y);
    ExtendsAsItStands(t, y);
    assert Taken(t, t', y, AccountOf(y));
    TakenSound(t, t', y, AccountOf(y));
    LeadsNext(t, [], Arrives(y, AccountOf(y)), t, t');
    assert [] + [Arrives(y, AccountOf(y))] == [Arrives(y, AccountOf(y))];
  }

  /** Something the genesis account sends to itself. */
  const TO_SELF := Send(GENESIS, GENESIS_ACCOUNT, 0)

  lemma SentToSelf(t: Tables)
    requires Extends(GenesisTables(), t, TO_SELF)
    ensures Extendable(t, Receive(TO_SELF, TO_SELF)) && Hash(TO_SELF) !in t.accounts
  {
  }

  /** A history after which a receive block, and so also its twin, extends the ledger. */
  lemma TwinsArise() returns (events: seq<Event>, t: Tables, b: Word)
    ensures Reaches(events, t) && b.Receive? && Extendable(t, b) && Hash(b.prev) !in t.accounts
  {
    events := [Arrives(TO_SELF, AccountOf(TO_SELF))];
    b := Receive(TO_SELF, TO_SELF);
    HistoryKeepsInv([], GenesisTables());
    t := OneArrives(GenesisTables(), TO_SELF);
    SentToSelf(t);
  }

  lemma TwinAsRead(t1: Tables, p: Word, s: Word, c: Word)
    requires Shape(t1) && p in t1.blocks && ReadAs(t1.blocks, Change(p, s), c)
    ensures c == Change(p, Hash(s)) && SameHash(Receive(p, s), c)
  {
    StoredStands(t1, p);
    ReferenceIsOne(t1, p, p, c.prev);
    HashOfHash(s);
  }

  lemma TwinForked(t: Tables, t1: Tables, p: Word, s: Word, c: Word)
    requires Shape(t) && Extendable(t, Receive(p, s)) && Extends(t, t1, Receive(p, s)) && c == Change(p, Hash(s))
    ensures Forked(t, t1, Receive(p, s), c) && CanReplace(t1, Receive(p, s), c)
  {
    HashOfHash(s);
    ExtendsIsNew(t, Receive(p, s));
    assert SameHash(c, Receive(p, s));
  }

  /** A block with the hash of a stored one changes nothing. */
  lemma RefusesKnown(t: Tables, t': Tables, c: Word, h: Word, signer: Word)
    requires Shape(t) && h in t.blocks && SameHash(h, c) && Accepts(t, t', c, signer)
    ensures t' == t
  {
    var b :| ReadAs(t.blocks, c, b) && Taken(t, t', b, signer);
    ReadKeepsHash(t.blocks, c, b);
    assert HasHash(t.blocks, b);
    if Extendable(t, b) {
      ExtendsIsNew(t, b);
    }
  }

  /** A winner with the hash of what is in its place changes nothing. */
  lemma StaysTaken(t: Tables, t': Tables, raw: Word, c: Word, h: Word, signer: Word)
    requires Shape(t) && ReadAs(t.blocks, raw, c) && IsSuccessor(t, Root(c), h) && h in t.blocks && SameHash(h, c)
    requires Replaces(t, t', raw, signer)
    ensures t' == t
  {
    var d, k, between :| ReadAs(t.blocks, raw, d) && GivesWay(t, between, d, k) && Accepts(between, t', d, signer);
    ReadOnce(t, raw, c, d);
    OneSuccessor(t, Root(c), h, k);
    RefusesKnown(t, t', c, h, signer);
  }

  /** A change block never replaces the receive block with its fields.  The two once extended the same ledger,
      and it could stand in that place; but they have the same hash, and the ledger stays as it is. */
  lemma TwinNeverReplaces(t: Tables, t1: Tables, t2: Tables, p: Word, s: Word, c: Word, signer: Word)
    requires Inv(t) && Extendable(t, Receive(p, s)) && Appended(t, t1, Receive(p, s)) && Hash(p) !in t1.accounts
    requires ReadAs(t1.blocks, Change(p, s), c) && Replaces(t1, t2, Change(p, s), signer)
    ensures Forked(t, t1, Receive(p, s), c) && CanReplace(t1, Receive(p, s), c)
    ensures IsSuccessor(t1, Root(c), Receive(p, s)) && t2 == t1
  {
    var b := Receive(p, s);
    AppendedInv(t, t1, b);
    assert AccountOk(t, AccountOf(b));
    TwinAsRead(t1, p, s, c);
    TwinForked(t, t1, p, s, c);
    assert Follows(t1.blocks, b) && SameHash(Prev(b), Root(c));
    StaysTaken(t1, t2, Change(p, s), c, b, signer);
  }

  // ---------------------------------------------------------------- process and rollback together

  lemma SameAgain(t: Tables, t': Tables, b: Word)
    requires Inv(t) && Inv(t') && b !in t.blocks && IsBlock(b)
    requires t'.blocks == t.blocks + {b} - Dependents(t.blocks + {b}, b)
    ensures SameLedger(t, t')
  {
    NoneLeft(t, b);
    SameBlocksSameLedger(t, t');
  }

  /** Rolling back the block just processed restores the ledger. */
  method ProcessThenRollback(ledger: Ledger, raw: Word, signer: Word) returns (code: Code, ghost b: Word)
    requires IsBlock(raw) && ledger.Valid()
    modifies ledger
    ensures ledger.Valid() && ReadAs(old(ledger.blocks), raw, b) && SameLedger(old(ledger.View()), ledger.View())
    ensures code == Progress <==> old(Extendable(ledger.View(), b)) && signer == AccountOf(b)
  {
    ghost var t := ledger.View();
    var block := ledger.Read(raw);
    code, b := ledger.Process(raw, signer);
    ReadOnce(t, raw, block, b);
    if code == Progress {
      BalanceBefore(t, b);
      ledger.Rollback(block);
      SameAgain(t, ledger.View(), b);
    }
  }

  /** A block that was rolled back is accepted again. */
  method RollbackThenProcess(ledger: Ledger, h: Word) returns (code: Code)
    requires ledger.Valid() && h in ledger.blocks && h != GENESIS
    modifies ledger
    ensures ledger.Valid() && code == Progress
    ensures ledger.blocks == old(ledger.blocks) - Dependents(old(ledger.blocks), h) + {h}
  {
    ghost var t := ledger.View();
    assert BlockOk(t, h);
    ledger.Rollback(h);
    RolledBackExtends(t, ledger.View(), h);
    ExtendsAsItStands(ledger.View(), h);
    code := ProcessRead(ledger, h, AccountOf(h));
  }
}
