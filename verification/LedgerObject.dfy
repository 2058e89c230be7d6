/**
The ledger as an object: `process` and `rollback` of rai/ledger.cpp, updating the tables in place in the
order of the source.
*/
module LedgerObject {
  import opened Lattice
  import opened MapTotals
  import opened LedgerTables
  import opened LedgerSteps
  import opened LedgerHashes
  import opened LedgerWeights
  import opened LedgerProcess
  import opened LedgerUndo
  import opened LedgerVerdicts
  import opened LedgerEffects
  import opened LedgerStore
  import opened LedgerVisitors

  // ---------------------------------------------------------------- invariants during a rollback

  /** The invariant with weights that are off by a known amount: a state block gives its weight back
      before the blocks that collected it are rolled back. */
  ghost predicate Good(t: Tables, off: Word -> int) {
    Shape(t) && Supply(t) == MAX && UpTo(t, off) && Small(t.weights)
  }

  lemma InvIsGood(t: Tables)
    ensures Inv(t) <==> Good(t, NO_OFFSET)
  {
    if Inv(t) {
      ExactUpTo(t);
      WeightsSmall(t);
    }
    if Good(t, NO_OFFSET) {
      UpToExact(t);
    }
  }

  lemma RetractVotes(t: Tables, t': Tables, h: Word)
    requires AccountOf(h) in t.accounts && t.accounts[AccountOf(h)] == InfoFor(h)
    requires t'.accounts == AccountsWithout(t.accounts, h)
    ensures forall r :: VotesMove(t, t', InfoFor(h), InfoBefore(h), r)
  {
    forall r
      ensures VotesMove(t, t', InfoFor(h), InfoBefore(h), r)
    {
      if Prev(h) == Zero {
        VotesDel(t.accounts, AccountOf(h), r);
      } else {
        VotesPut(t.accounts, AccountOf(h), InfoFor(Prev(h)), r);
      }
    }
  }

  lemma HeadInfo(t: Tables, h: Word)
    requires Shape(t) && Retractable(t, h)
    ensures AccountOf(h) in t.accounts && t.accounts[AccountOf(h)] == InfoFor(h)
  {
    assert AccountOk(t, AccountOf(h));
  }

  lemma UndoneWeights(t: Tables, t': Tables, h: Word, off: Word -> int)
    requires UpTo(t, off) && Undone(t, t', h)
    requires AccountOf(h) in t.accounts && t.accounts[AccountOf(h)] == InfoFor(h)
    ensures UpTo(t', off)
  {
    RetractVotes(t, t', h);
    WeightsMove(t, t', InfoFor(h), InfoBefore(h), off);
  }

  lemma UndoneGood(t: Tables, t': Tables, h: Word, off: Word -> int)
    requires Good(t, off) && Retractable(t, h) && Undone(t, t', h) && Small(t'.weights)
    ensures Good(t', off)
  {
    HeadInfo(t, h);
    RetractShape(t, t', h);
    RetractSupply(t, t', h);
    UndoneWeights(t, t', h, off);
  }

  /** The offset while a state block has given its weight back but still stands. */
  ghost function Ahead(off: Word -> int, h: Word): Word -> int {
    r => off(r) + Shift(InfoFor(h), InfoBefore(h), r)
  }

  lemma AheadWeights(t: Tables, t': Tables, h: Word, off: Word -> int)
    requires UpTo(t, off) && t'.accounts == t.accounts
    requires forall r :: Shifted(t.weights, t'.weights, InfoFor(h), InfoBefore(h), r)
    ensures UpTo(t', Ahead(off, h))
  {
    forall r
      ensures UpToAt(t', Ahead(off, h), r)
    {
      assert UpToAt(t, off, r) && Shifted(t.weights, t'.weights, InfoFor(h), InfoBefore(h), r);
      var votes := Total(Votes(t.accounts, r));
      MoveAt(Weight(t.weights, r), Weight(t'.weights, r), votes + off(r), votes + Ahead(off, h)(r),
             Shift(InfoFor(h), InfoBefore(h), r));
    }
  }

  /** The shape of the tables does not involve the weights. */
  lemma SameShape(t: Tables, t': Tables)
    requires Shape(t) && t'.(weights := t.weights) == t
    ensures Shape(t')
  {
    forall b | b in t'.blocks
      ensures BlockOk(t', b)
    {
      assert BlockOk(t, b);
      assert Collected(t, b) ==> Collected(t', b);
    }
    forall a | a in t'.accounts
      ensures AccountOk(t', a)
    {
      assert AccountOk(t, a);
    }
    forall f | f in t'.frontiers
      ensures FrontierOk(t', f)
    {
      assert FrontierOk(t, f);
    }
    forall k | k in t'.pending
      ensures PendingOk(t', k)
    {
      assert PendingOk(t, k);
    }
  }

  lemma AheadGood(t: Tables, t': Tables, h: Word, off: Word -> int)
    requires Good(t, off) && t'.(weights := t.weights) == t && Small(t'.weights)
    requires forall r :: Shifted(t.weights, t'.weights, InfoFor(h), InfoBefore(h), r)
    ensures Good(t', Ahead(off, h))
  {
    SameShape(t, t');
    AheadWeights(t, t', h, off);
  }

  lemma CaughtUpAt(t: Tables, t': Tables, h: Word, off: Word -> int, r: Word)
    requires UpToAt(t, Ahead(off, h), r) && t'.weights == t.weights && VotesMove(t, t', InfoFor(h), InfoBefore(h), r)
    ensures UpToAt(t', off, r)
  {
    assert Total(Votes(t.accounts, r)) + Ahead(off, h)(r) == Total(Votes(t'.accounts, r)) + off(r);
  }

  lemma CaughtUpWeights(t: Tables, t': Tables, h: Word, off: Word -> int)
    requires UpTo(t, Ahead(off, h)) && t'.weights == t.weights && t'.accounts == AccountsWithout(t.accounts, h)
    requires AccountOf(h) in t.accounts && t.accounts[AccountOf(h)] == InfoFor(h)
    ensures UpTo(t', off)
  {
    RetractVotes(t, t', h);
    forall r
      ensures UpToAt(t', off, r)
    {
      assert UpToAt(t, Ahead(off, h), r) && VotesMove(t, t', InfoFor(h), InfoBefore(h), r);
      CaughtUpAt(t, t', h, off, r);
    }
  }

  lemma CaughtUp(t: Tables, t': Tables, h: Word, off: Word -> int)
    requires Good(t, Ahead(off, h)) && Retractable(t, h) && Retracts(t, t', h) && t'.weights == t.weights
    ensures Good(t', off)
  {
    HeadInfo(t, h);
    RetractShape(t, t', h);
    RetractSupply(t, t', h);
    CaughtUpWeights(t, t', h, off);
  }

  /** What a block collects is what the send took from the sender. */
  lemma CollectedInFull(t: Tables, b: Word)
    requires Shape(t) && b in t.blocks
    ensures var s := Source(b); s != Zero ==> AmountOf(b) == BalanceOf(Prev(s)) - BalanceOf(s)
  {
    var s := Source(b);
    assert BlockOk(t, b) && PlacedOk(t, b) && SourceOk(t, b);
    assert s != Zero ==> BlockOk(t, s) && PlacedOk(t, s);
  }

  // ---------------------------------------------------------------- dependence

  ghost function Dependents(blocks: set<Word>, h: Word): set<Word> {
    set x | x in blocks && DependsOn(x, h)
  }

  lemma NumDepends(n: nat, h: Word)
    ensures DependsOn(Num(n), h) <==> h == Num(n)
  {
  }

  lemma PrevSmaller(x: Word)
    requires Prev(x) != Zero
    ensures Prev(x) < x
  {
  }

  /** A block depends on what it follows and on what it collects, and on nothing else. */
  lemma SourceSmaller(x: Word, h: Word)
    requires DependsOn(x, h) && x != h && IsBlock(h) && !(Prev(x) != Zero && DependsOn(Prev(x), h))
    ensures Source(x) != Zero && Source(x) < x && DependsOn(Source(x), h)
  {
  }

  /** A ledger holds everything its blocks depend on. */
  lemma {:induction false} ClosedUnderDependence(t: Tables, x: Word, h: Word)
    requires Shape(t) && x in t.blocks && DependsOn(x, h) && IsBlock(h)
    ensures h in t.blocks
    decreases x
  {
    if x != h {
      assert BlockOk(t, x) && PlacedOk(t, x) && SourceOk(t, x);
      if Prev(x) != Zero && DependsOn(Prev(x), h) {
        PrevSmaller(x);
        ClosedUnderDependence(t, Prev(x), h);
      } else {
        SourceSmaller(x, h);
        ClosedUnderDependence(t, Source(x), h);
      }
    }
  }

  lemma Collector(t: Tables, s: Word) returns (r: Word)
    requires Shape(t) && s in t.blocks && IsSend(s) && Key(Destination(s), s) !in t.pending
    ensures r in t.blocks && Source(r) == s
    ensures Destination(s) in t.accounts && OnChain(r, t.accounts[Destination(s)].head)
  {
    assert BlockOk(t, s) && SendOk(t, s);
    r :| r in t.blocks && Source(r) == s;
    assert BlockOk(t, r) && PlacedOk(t, r) && SourceOk(t, r);
  }

  lemma GenesisDepends(s: Word)
    requires IsSend(s)
    ensures !DependsOn(GENESIS, s)
  {
    NumDepends(0, s);
  }

  lemma CollectorDepends(r: Word)
    requires Source(r) != Zero
    ensures DependsOn(r, Source(r)) && r != Source(r)
  {
    assert Size(Source(r)) < Size(r);
  }

  lemma CollectorChain(r: Word, s: Word, h: Word)
    requires Source(r) == s && IsSend(s) && OnChain(r, h)
    ensures DependsOn(h, s) && h != s && !DependsOn(s, h) && h != GENESIS
  {
    ChainDepends(r, h);
    CollectorDepends(r);
    DependsTransitive(h, r, s);
    ChainSize(r, h);
    DependsSize(r, s);
    if DependsOn(s, h) {
      DependsSize(s, h);
    }
    GenesisDepends(s);
  }

  /** A collected send: the last block of the account that collected it depends on it, is another block
      and is not the genesis block. */
  lemma CollectorLast(t: Tables, s: Word)
    requires Shape(t) && s in t.blocks && IsSend(s) && Key(Destination(s), s) !in t.pending
    ensures var d := Destination(s);
            && d in t.accounts && DependsOn(t.accounts[d].head, s) && t.accounts[d].head != s
            && t.accounts[d].head != GENESIS && !DependsOn(s, t.accounts[d].head)
  {
    var r := Collector(t, s);
    CollectorChain(r, s, t.accounts[Destination(s)].head);
  }

  /** A last block that is still there is still last. */
  lemma StillLast(t: Tables, t': Tables, s: Word)
    requires Shape(t) && Shape(t') && t'.blocks <= t.blocks && s in t'.blocks
    requires AccountOf(s) in t.accounts && t.accounts[AccountOf(s)].head == s
    ensures AccountOf(s) in t'.accounts && t'.accounts[AccountOf(s)].head == s
  {
    assert BlockOk(t', s) && PlacedOk(t', s);
    var h' := t'.accounts[AccountOf(s)].head;
    assert AccountOk(t', AccountOf(s));
    assert BlockOk(t, h') && PlacedOk(t, h');
    ChainAntisymmetric(s, h');
  }

  // ---------------------------------------------------------------- the object

  predicate IsBefore(h: Word, representative: Word, balance: nat) {
    representative == (if Prev(h) == Zero then Zero else RepBlockOf(Prev(h))) && balance == BalanceOf(Prev(h))
  }

  /** However the visitor went about it, just the two entries are gone. */
  lemma ClearedSo(t: Tables, before: map<Word, Word>, after: map<Word, Word>, h: Word)
    requires Shape(t) && FollowOk(t.blocks, before) && h in t.blocks
    requires || after == before - {h} - {Prev(h)} || (Prev(h) == Zero && after == before - {h})
             || after == (if Prev(h) in t.blocks then before - {Prev(h)} else before) - {h}
    ensures Cleared(before, after, h)
  {
    NoZeroSuccessor(t.blocks, before);
    assert BlockOk(t, h) && PlacedOk(t, h);
  }

  lemma NumbersHaveNoRecord(blocks: set<Word>, infos: map<Word, BlockInfo>, n: nat)
    requires InfosOk(blocks, infos)
    ensures Num(n) !in infos
  {
    assert Num(n) in infos ==> RecordOk(blocks, infos, Num(n));
  }

  /** The records after the visitor of a block of an older type. */
  function UndoneInfos(t: Tables, t': Tables, infos: map<Word, BlockInfo>, h: Word): map<Word, BlockInfo> {
    if h.Open? then infos
    else Forgotten(Recorded(infos, t'.accounts, AccountOf(h), false), h, InfoGet(t, AccountOf(h)).count)
  }

  lemma VisitedInfos(t: Tables, t': Tables, infos: map<Word, BlockInfo>, h: Word)
    requires Shape(t) && Shape(t') && InfosOk(t.blocks, infos) && Legacy(h) && Retractable(t, h) && Retracts(t, t', h)
    ensures InfosOk(t'.blocks, UndoneInfos(t, t', infos, h))
  {
    var a := AccountOf(h);
    assert AccountOk(t, a) && BlockOk(t, h);
    InfosDel(t, infos, h, CountOf(h));
    if !h.Open? {
      RecordedOk(t', Forgotten(infos, h, CountOf(h)), a, false);
      assert t'.accounts[a] == InfoFor(Prev(h)) && CountOf(h) == CountOf(Prev(h)) + 1;
    }
  }

  lemma FoundOnChain(t: Tables, hash: Word)
    requires Shape(t) && hash in t.blocks
    ensures AccountOf(hash) in t.accounts && Size(hash) <= Size(t.accounts[AccountOf(hash)].head)
  {
    assert BlockOk(t, hash) && PlacedOk(t, hash);
    ChainSize(hash, t.accounts[AccountOf(hash)].head);
  }

  /** The successor of a block is in its account and comes later. */
  lemma NextOnChain(t: Tables, successors: map<Word, Word>, block: Word)
    requires Shape(t) && FollowOk(t.blocks, successors) && block in t.blocks && block in successors
    ensures var r := successors[block];
            && r in t.blocks && r != Zero && r != Num(1) && AccountOf(r) == AccountOf(block) && Size(block) < Size(r)
            && AccountOf(r) in t.accounts && Size(r) <= Size(t.accounts[AccountOf(r)].head)
  {
    var r := successors[block];
    assert Follows(t.blocks, r) && Prev(r) == block;
    assert BlockOk(t, r) && PlacedOk(t, r);
    ChainSize(r, t.accounts[AccountOf(r)].head);
  }

  /** A legacy block without a successor is the last of its account, so it has a frontier. */
  lemma EndsInFrontier(t: Tables, successors: map<Word, Word>, block: Word)
    requires Shape(t) && FollowOk(t.blocks, successors) && block in t.blocks && block !in successors && !block.State?
    ensures FrontierGet(t, block) == AccountOf(block)
  {
    assert BlockOk(t, block) && PlacedOk(t, block);
    var a := AccountOf(block);
    assert AccountOk(t, a);
    var h := t.accounts[a].head;
    if h != block {
      var r := Successor(t, h, block);
      assert Follows(t.blocks, r);
    }
  }

  lemma NoZeroFrontier(t: Tables)
    requires Shape(t)
    ensures Zero !in t.frontiers
  {
    assert Zero in t.frontiers ==> FrontierOk(t, Zero);
  }

  lemma NoMoreDependents(older: set<Word>, newer: set<Word>, s: Word, h: Word)
    requires newer <= older && DependsOn(h, s)
    ensures Dependents(newer, h) <= Dependents(older, s)
  {
    forall x | x in Dependents(newer, h)
      ensures x in Dependents(older, s)
    {
      DependsTransitive(x, h, s);
    }
  }

  lemma FewerDependents(older: set<Word>, newer: set<Word>, s: Word, h: Word)
    requires newer <= older && s in older && DependsOn(h, s) && !DependsOn(s, h)
    ensures Dependents(newer, h) < Dependents(older, s)
  {
    NoMoreDependents(older, newer, s, h);
    assert s in Dependents(older, s) && s !in Dependents(newer, h);
  }

  lemma RemovedDepend(older: set<Word>, newer: set<Word>, s: Word, h: Word)
    requires DependsOn(h, s) && forall x :: x in older && x !in newer ==> DependsOn(x, h)
    ensures forall x :: x in older && x !in newer ==> DependsOn(x, s)
  {
    forall x | x in older && x !in newer
      ensures DependsOn(x, s)
    {
      DependsTransitive(x, h, s);
    }
  }

  lemma LastBlock(t: Tables, a: Word)
    requires Shape(t) && a in t.accounts
    ensures var h := t.accounts[a].head; h in t.blocks && AccountOf(h) == a && IsBlock(h)
  {
    assert AccountOk(t, a);
    assert BlockOk(t, t.accounts[a].head);
  }

  lemma StateReady(t: Tables, h: Word)
    requires Shape(t) && Small(t.weights) && h.State? && h in t.blocks
    ensures Small(UndoStateWeights(t.weights, h))
    ensures forall r :: Shifted(t.weights, UndoStateWeights(t.weights, h), InfoFor(h), InfoBefore(h), r)
  {
    assert BlockOk(t, h);
    assert Prev(h) != Zero ==> BlockOk(t, Prev(h));
    StateWeightsUndone(t.weights, h);
  }

  lemma LastDepends(t: Tables, h: Word)
    requires Shape(t) && h in t.blocks && h != GENESIS
    ensures AccountOf(h) in t.accounts && DependsOn(t.accounts[AccountOf(h)].head, h)
    ensures t.accounts[AccountOf(h)].head != GENESIS
  {
    assert BlockOk(t, h) && PlacedOk(t, h);
    ChainDepends(h, t.accounts[AccountOf(h)].head);
    NumDepends(0, h);
  }

  /** Once `h` is gone, so is everything that depends on it. */
  lemma NoneLeft(t: Tables, h: Word)
    requires Shape(t) && h !in t.blocks && IsBlock(h)
    ensures forall x :: x in t.blocks ==> !DependsOn(x, h)
  {
    forall x | x in t.blocks
      ensures !DependsOn(x, h)
    {
      if DependsOn(x, h) {
        ClosedUnderDependence(t, x, h);
      }
    }
  }

  class Ledger {
    var blocks: set<Word>
    var accounts: map<Word, Info>
    var pending: map<Key, Pending>
    var frontiers: map<Word, Word>
    var weights: map<Word, nat>
    var successors: map<Word, Word>
    var infos: map<Word, BlockInfo>

    function View(): Tables
      reads this
    {
      Tables(blocks, accounts, pending, frontiers, weights)
    }

    /** What the store keeps beside the tables is right. */
    ghost predicate Stored()
      reads this
    {
      FollowOk(blocks, successors) && InfosOk(blocks, infos)
    }

    ghost predicate Valid()
      reads this
    {
      Inv(View()) && Stored() && AllTidy(blocks)
    }

    /** `genesis::initialize`. */
    constructor ()
      ensures View() == GenesisTables() && Valid()
    {
      blocks := {GENESIS};
      accounts := map[GENESIS_ACCOUNT := InfoFor(GENESIS)];
      pending := map[];
      frontiers := map[GENESIS := GENESIS_ACCOUNT];
      weights := map[GENESIS_ACCOUNT := MAX];
      successors := map[];
      infos := map[];
      new;
      GenesisInv();
    }

    // -------------------------------------------------------------- the store

    /** `block_put`, which also tells the predecessor of its successor. */
    method PutBlock(b: Word)
      modifies this`blocks, this`successors
      ensures blocks == old(blocks) + {b} && successors == Followed(old(successors), b)
    {
      blocks := blocks + {b};
      if Prev(b) != Zero {
        successors := successors[Prev(b) := b];
      }
    }

    /** `block_del`: the block goes with the successor stored in it. */
    method DelBlock(h: Word)
      modifies this`blocks, this`successors
      ensures blocks == old(blocks) - {h} && successors == old(successors) - {h}
    {
      blocks := blocks - {h};
      successors := successors - {h};
    }

    /** `change_latest`. */
    method ChangeLatest(account: Word, hash: Word, repBlock: Word, balance: nat, count: nat, isState: bool)
      modifies this`accounts, this`infos
      ensures accounts == Latest(old(accounts), account, hash, repBlock, balance, count)
      ensures infos == Recorded(old(infos), accounts, account, isState)
    {
      var open := if account in accounts then accounts[account].openBlock else hash;
      if hash != Zero {
        accounts := accounts[account := Info(hash, repBlock, open, balance, count)];
        if count % BLOCK_INFO_MAX == 0 && !isState {
          infos := infos[Hash(hash) := BlockInfo(account, balance)];
        }
      } else {
        accounts := accounts - {account};
      }
    }

    /** `ledger::account`: follows the stored successors to a block that tells the account: a state block,
        one with a record, or the last one, which has a frontier. */
    method FindAccount(hash: Word) returns (account: Word)
      requires Shape(View()) && Stored() && hash in blocks
      ensures account == AccountOf(hash)
    {
      var block, successor := hash, Num(1);
      FoundOnChain(View(), hash);
      ghost var last := accounts[AccountOf(hash)].head;
      InfosRight(View(), infos);
      NumbersHaveNoRecord(blocks, infos, 1);
      while successor != Zero && !block.State? && Hash(successor) !in infos
        invariant block in blocks && AccountOf(block) == AccountOf(hash)
        invariant successor == Num(1) || successor == block || (successor == Zero && block !in successors)
        invariant AccountOf(hash) in accounts && last == accounts[AccountOf(hash)].head && Size(block) <= Size(last)
        decreases Size(last) - Size(block), successor != Zero
      {
        successor := if block in successors then successors[block] else Zero;
        if successor != Zero {
          NextOnChain(View(), successors, block);
          block := successor;
        }
      }
      if block.State? {
        account := Hash(block.account);
      } else if successor == Zero {
        EndsInFrontier(View(), successors, block);
        account := FrontierGet(View(), block);
      } else {
        account := infos[Hash(successor)].account;
      }
    }

    /** `ledger::balance`, with the records the ledger itself keeps: at the last block of an account, the balance
        in the account table. */
    method Balance(hash: Word) returns (balance: nat)
      requires Valid() && hash in blocks
      ensures balance == BalanceOf(hash)
      ensures forall a :: a in accounts && accounts[a].head == hash ==> balance == accounts[a].balance
    {
      ShapeLinked(View());
      InfosRight(View(), infos);
      balance := ComputeBalance(blocks, infos, hash);
      forall a | a in accounts && accounts[a].head == hash
        ensures balance == accounts[a].balance
      {
        assert AccountOk(View(), a);
      }
    }

    /** `ledger::amount`: the difference between the balance at a block and at its predecessor.  For a block that
        collects it is what the send took from the sender, and for a send that is still pending, what is pending. */
    method Amount(hash: Word) returns (amount: nat)
      requires Valid() && hash in blocks
      ensures amount == Diff(BalanceOf(hash), BalanceOf(Prev(hash)))
      ensures var s := Source(hash); s != Zero ==> amount == BalanceOf(Prev(s)) - BalanceOf(s)
      ensures forall k :: k in pending && k.hash == hash ==> amount == pending[k].amount
    {
      ShapeLinked(View());
      InfosRight(View(), infos);
      amount := ComputeAmount(blocks, infos, hash);
      CollectedInFull(View(), hash);
      forall k | k in pending && k.hash == hash
        ensures amount == pending[k].amount
      {
        assert PendingOk(View(), k);
      }
    }

    // -------------------------------------------------------------- process

    /** The frontier of an account moves, forward or back. */
    method MoveFrontier(from: Word, to: Word, account: Word)
      modifies this`frontiers
      ensures frontiers == (old(frontiers) - {from})[to := account]
    {
      frontiers := frontiers - {from};
      frontiers := frontiers[to := account];
    }

    method ApplySend(b: Word)
      requires b.Send?
      modifies this
      ensures View() == AfterSend(old(View()), b) && successors == Followed(old(successors), b)
      ensures infos == Recorded(old(infos), accounts, FrontierGet(old(View()), b.prev), false)
    {
      var account := FrontierGet(View(), b.prev);
      var info := InfoGet(View(), account);
      var amount := Sub(info.balance, b.balance);
      weights := RepAdd(weights, info.repBlock, Neg(amount));
      PutBlock(b);
      ChangeLatest(account, b, info.repBlock, b.balance, info.count + 1, false);
      pending := pending[Key(Destination(b), b) := Pending(account, amount)];
      MoveFrontier(b.prev, b, account);
    }

    method ApplyReceive(b: Word)
      requires b.Receive? && Key(FrontierGet(View(), b.prev), b.source) in pending
      modifies this
      ensures View() == AfterReceive(old(View()), b) && successors == Followed(old(successors), b)
      ensures infos == Recorded(old(infos), accounts, FrontierGet(old(View()), b.prev), false)
    {
      var account := FrontierGet(View(), b.prev);
      var info := InfoGet(View(), account);
      var key := Key(account, b.source);
      var amount := pending[key].amount;
      pending := pending - {key};
      PutBlock(b);
      ChangeLatest(account, b, info.repBlock, Plus(info.balance, amount), info.count + 1, false);
      weights := RepAdd(weights, info.repBlock, amount);
      MoveFrontier(b.prev, b, account);
    }

    method ApplyOpen(b: Word)
      requires b.Open? && Key(AccountOf(b), b.source) in pending
      modifies this
      ensures View() == AfterOpen(old(View()), b) && successors == Followed(old(successors), b)
      ensures infos == Recorded(old(infos), accounts, AccountOf(b), false)
    {
      var info := InfoGet(View(), AccountOf(b));
      var key := Key(AccountOf(b), b.source);
      var amount := pending[key].amount;
      pending := pending - {key};
      PutBlock(b);
      ChangeLatest(AccountOf(b), b, b, amount, info.count + 1, false);
      weights := RepAdd(weights, b, amount);
      frontiers := frontiers[b := AccountOf(b)];
    }

    /** The balance goes from the representative that block `from` names to the one that `to` names. */
    method SwapWeights(to: Word, from: Word, balance: nat)
      modifies this`weights
      ensures weights == RepAdd(RepAdd(old(weights), to, balance), from, Neg(balance))
    {
      weights := RepAdd(weights, to, balance);
      weights := RepAdd(weights, from, Neg(balance));
    }

    method ApplyChange(b: Word)
      requires b.Change? && b.prev in blocks && Linked(blocks + {b}) && InfosFor(blocks + {b}, infos)
      modifies this
      ensures View() == AfterChange(old(View()), b) && successors == Followed(old(successors), b)
      ensures infos == Recorded(old(infos), accounts, FrontierGet(old(View()), b.prev), false)
    {
      var account := FrontierGet(View(), b.prev);
      var info := InfoGet(View(), account);
      PutBlock(b);
      var balance := ComputeBalance(blocks, infos, b.prev);
      SwapWeights(b, info.repBlock, balance);
      ChangeLatest(account, b, b, info.balance, info.count + 1, false);
      MoveFrontier(b.prev, b, account);
    }

    /** What is sent becomes pending; what is collected is so no more. */
    method MoveFunds(b: Word, balance: nat)
      requires b.State?
      modifies this`pending
      ensures pending == if b.balance < balance then
                           old(pending)[Key(Destination(b), b) := Pending(AccountOf(b), Diff(balance, b.balance))]
                         else if b.link != Zero then old(pending) - {Key(AccountOf(b), b.link)}
                         else old(pending)
    {
      if b.balance < balance {
        pending := pending[Key(Destination(b), b) := Pending(AccountOf(b), Diff(balance, b.balance))];
      } else if b.link != Zero {
        pending := pending - {Key(AccountOf(b), b.link)};
      }
    }

    /** A state block of an account with an older last block removes that block's frontier. */
    method DropFrontier(head: Word)
      modifies this`frontiers
      ensures frontiers == old(frontiers) - {head}
    {
      if head in frontiers {
        frontiers := frontiers - {head};
      }
      assert head !in old(frontiers) ==> old(frontiers) - {head} == old(frontiers);
    }

    method MoveWeights(info: Info, b: Word)
      requires b.State?
      modifies this`weights
      ensures weights == RepAdd(if info.repBlock != Zero then RepAdd(old(weights), info.repBlock, Neg(info.balance))
                                else old(weights), b, b.balance)
    {
      if info.repBlock != Zero {
        weights := RepAdd(weights, info.repBlock, Neg(info.balance));
      }
      weights := RepAdd(weights, b, b.balance);
    }

    method ApplyState(b: Word)
      requires b.State?
      modifies this
      ensures View() == AfterState(old(View()), b) && successors == Followed(old(successors), b)
      ensures infos == Recorded(old(infos), accounts, AccountOf(b), true)
    {
      var info := InfoGet(View(), AccountOf(b));
      PutBlock(b);
      MoveWeights(info, b);
      MoveFunds(b, info.balance);
      ChangeLatest(AccountOf(b), b, b, b.balance, info.count + 1, true);
      DropFrontier(info.head);
    }

    method Apply(b: Word)
      requires Ready(View(), b) && Zero !in frontiers && Linked(blocks + {b})
      requires b.Change? ==> InfosFor(blocks + {b}, infos)
      modifies this
      ensures Appended(old(View()), View(), b) && successors == Followed(old(successors), b)
      ensures infos == Recorded(old(infos), accounts, AccountOf(b), b.State?)
    {
      ghost var t := View();
      match b {
        case Send(_, _, _) =>
          ApplySend(b);
          SendAppends(t, b);
        case Receive(_, _) =>
          ReceiveAppends(t, b);
          ApplyReceive(b);
        case Open(_, _, _) =>
          OpenAppends(t, b);
          ApplyOpen(b);
        case Change(_, _) =>
          ApplyChange(b);
          ChangeAppends(t, b);
        case State(_, _, _, _, _) =>
          ApplyState(b);
          StateAppends(t, b);
      }
    }

    method Take(b: Word)
      requires Valid() && Extendable(View(), b) && Tidy(b)
      modifies this
      ensures Valid() && Appended(old(View()), View(), b)
    {
      ghost var t, before := View(), infos;
      InvReady(t, b);
      NoZeroFrontier(t);
      LinkedPut(t, b);
      FollowPut(t, successors, b);
      if b.Change? {
        InfosForPut(t, infos, b);
      }
      InfosPut(blocks, infos, b);
      Apply(b);
      AppendedInv(t, View(), b);
      RecordedOk(View(), before, AccountOf(b), b.State?);
    }

    /** The stored block that a hash names, or the hash itself. */
    method Look(w: Word) returns (x: Word)
      ensures RefersTo(blocks, w, x)
    {
      if y :| y in blocks && SameHash(y, w) {
        return y;
      }
      return w;
    }

    /** A block that arrives, with the hashes in it looked up. */
    method Read(raw: Word) returns (b: Word)
      ensures ReadAs(blocks, raw, b)
    {
      match raw {
        case Send(p, d, n) =>
          var prev := Look(p);
          b := Send(prev, Hash(d), n);
        case Receive(p, s) =>
          var prev := Look(p);
          var source := Look(s);
          b := Receive(prev, source);
        case Open(s, r, a) =>
          var source := Look(s);
          b := Open(source, Hash(r), Hash(a));
        case Change(p, r) =>
          var prev := Look(p);
          b := Change(prev, Hash(r));
        case State(a, p, r, n, l) =>
          var prev := Look(p);
          var link := Look(l);
          b := State(Hash(a), prev, Hash(r), n, if n < BalanceOf(prev) then Hash(l) else link);
        case _ =>
          b := raw;
      }
    }

    /** `process`.  `b` is the block as the ledger reads it.  The ledger takes it exactly when its owner signed
        it and it extends its account, and then changes by that block alone; otherwise it reports why not and
        changes nothing. */
    method Process(raw: Word, signer: Word) returns (code: Code, ghost b: Word)
      requires IsBlock(raw) && Valid()
      modifies this
      ensures Valid() && ReadAs(old(blocks), raw, b)
      ensures code == Judge(old(View()), b, signer) && Explained(old(View()), b, signer, code)
      ensures code == Old <==> HasHash(old(blocks), raw)
      ensures code == Progress <==> old(Extendable(View(), b)) && signer == AccountOf(b)
      ensures code == Progress ==> Appended(old(View()), View(), b) && Effect(old(View()), View(), b)
      ensures code != Progress ==> View() == old(View())
    {
      ghost var t := View();
      var block := Read(raw);
      b := block;
      ReadKeepsHash(blocks, raw, block);
      code := Judge(View(), block, signer);
      AcceptedIffExtends(t, block, signer);
      VerdictExplained(t, block, signer);
      if code == Progress {
        Take(block);
        TakenHasEffect(t, View(), block);
      }
    }

    // -------------------------------------------------------------- rollback

    /** The last statements of the visitors: the predecessor has no successor any more, and the record of
        the block goes, if there can be one. */
    method ForgetBlock(h: Word, prev: Word, count: nat)
      modifies this`successors, this`infos
      ensures successors == old(successors) - {prev} && infos == Forgotten(old(infos), h, count)
    {
      successors := successors - {prev};
      if count % BLOCK_INFO_MAX == 0 {
        infos := infos - {Hash(h)};
      }
    }

    method VisitSend(h: Word)
      requires h.Send? && Key(Destination(h), h) in pending && h in blocks && Linked(blocks) && InfosFor(blocks, infos)
      modifies this
      ensures View() == UndoSend(old(View()), h) && successors == old(successors) - {h} - {h.prev}
      ensures var source := old(pending)[Key(Destination(h), h)].source;
              infos == Forgotten(Recorded(old(infos), accounts, source, false), h, InfoGet(old(View()), source).count)
    {
      assert LinkOk(blocks, h);
      var key := Key(Destination(h), h);
      var Pending(source, amount) := pending[key];
      var info := InfoGet(View(), source);
      var representative := ComputeRepresentative(blocks, h);
      var balance := ComputeBalance(blocks, infos, h.prev);
      pending := pending - {key};
      weights := RepAdd(weights, representative, amount);
      ChangeLatest(source, h.prev, info.repBlock, balance, if info.count > 0 then info.count - 1 else 0, false);
      DelBlock(h);
      MoveFrontier(h, h.prev, source);
      ForgetBlock(h, h.prev, info.count);
    }

    /** What the receive visitor looks up. */
    method ReadReceive(h: Word)
      returns (representative: Word, own: Word, balance: nat, amount: nat, account: Word, sender: Word)
      requires h.Receive? && h in blocks && Shape(View()) && Stored()
      ensures representative == RepBlockOf(h.prev) && own == RepBlockOf(h) && balance == BalanceOf(h.prev)
      ensures amount == AmountOf(h.source) && account == AccountOf(h) && sender == AccountOf(h.source)
    {
      ShapeLinked(View());
      InfosRight(View(), infos);
      assert LinkOk(blocks, h);
      representative := ComputeRepresentative(blocks, h.prev);
      amount := ComputeAmount(blocks, infos, h.source);
      account := FindAccount(h);
      sender := FindAccount(h.source);
      own := ComputeRepresentative(blocks, h);
      balance := ComputeBalance(blocks, infos, h.prev);
    }

    method VisitReceive(h: Word)
      requires h.Receive? && h in blocks && Shape(View()) && Stored()
      modifies this
      ensures View() == UndoReceive(old(View()), h) && successors == old(successors) - {h} - {h.prev}
      ensures infos == Forgotten(Recorded(old(infos), accounts, AccountOf(h), false), h,
                                 InfoGet(old(View()), AccountOf(h)).count)
    {
      var representative, own, balance, amount, account, sender := ReadReceive(h);
      var info := InfoGet(View(), account);
      weights := RepAdd(weights, own, Neg(amount));
      ChangeLatest(account, h.prev, representative, balance, if info.count > 0 then info.count - 1 else 0, false);
      DelBlock(h);
      pending := pending[Key(account, h.source) := Pending(sender, amount)];
      MoveFrontier(h, h.prev, account);
      ForgetBlock(h, h.prev, info.count);
    }

    method VisitOpen(h: Word)
      requires h.Open? && h in blocks && h != GENESIS && Shape(View()) && Stored()
      modifies this
      ensures View() == UndoOpen(old(View()), h) && successors == old(successors) - {h}
      ensures infos == old(infos)
    {
      ShapeLinked(View());
      InfosRight(View(), infos);
      assert LinkOk(blocks, h);
      var amount := ComputeAmount(blocks, infos, h.source);
      var account := FindAccount(h);
      var sender := FindAccount(h.source);
      var own := ComputeRepresentative(blocks, h);
      weights := RepAdd(weights, own, Neg(amount));
      ChangeLatest(account, Zero, Zero, 0, 0, false);
      DelBlock(h);
      pending := pending[Key(account, h.source) := Pending(sender, amount)];
      frontiers := frontiers - {h};
    }

    /** What the change visitor looks up. */
    method ReadChange(h: Word) returns (representative: Word, account: Word, balance: nat)
      requires h.Change? && h in blocks && Shape(View()) && Stored()
      ensures representative == RepBlockOf(h.prev) && account == AccountOf(h.prev) && balance == BalanceOf(h.prev)
    {
      ShapeLinked(View());
      InfosRight(View(), infos);
      assert LinkOk(blocks, h);
      representative := ComputeRepresentative(blocks, h.prev);
      account := FindAccount(h.prev);
      balance := ComputeBalance(blocks, infos, h.prev);
    }

    method VisitChange(h: Word)
      requires h.Change? && h in blocks && Shape(View()) && Stored()
      modifies this
      ensures View() == UndoChange(old(View()), h) && successors == old(successors) - {h} - {h.prev}
      ensures infos == Forgotten(Recorded(old(infos), accounts, AccountOf(h), false), h,
                                 InfoGet(old(View()), AccountOf(h)).count)
    {
      var representative, account, balance := ReadChange(h);
      var info := InfoGet(View(), account);
      SwapWeights(representative, h, balance);
      DelBlock(h);
      ChangeLatest(account, h.prev, representative, info.balance, if info.count > 0 then info.count - 1 else 0, false);
      MoveFrontier(h, h.prev, account);
      ForgetBlock(h, h.prev, info.count);
    }

    /** What a state block was put on: the block that names the representative, and the balance. */
    method ReadState(h: Word) returns (representative: Word, balance: nat)
      requires h.State? && h in blocks && Linked(blocks) && InfosFor(blocks, infos)
      ensures IsBefore(h, representative, balance)
    {
      assert LinkOk(blocks, h);
      representative := Zero;
      if h.prev != Zero {
        representative := ComputeRepresentative(blocks, h.prev);
      }
      balance := ComputeBalance(blocks, infos, h.prev);
    }

    method GiveBackWeights(h: Word, representative: Word, balance: nat)
      requires h.State? && IsBefore(h, representative, balance)
      modifies this`weights
      ensures weights == UndoStateWeights(old(weights), h)
    {
      weights := RepAdd(weights, h, Neg(h.balance));
      if representative != Zero {
        weights := RepAdd(weights, representative, balance);
      }
    }

    /** The predecessor has no successor any more, and a frontier if it is of an older type. */
    method LeavePrevious(h: Word)
      requires h.State?
      modifies this`successors, this`frontiers
      ensures successors == if h.prev in blocks then old(successors) - {h.prev} else old(successors)
      ensures frontiers == if h.prev in blocks && Legacy(h.prev) then old(frontiers)[h.prev := AccountOf(h)]
                           else old(frontiers)
    {
      if h.prev in blocks {
        successors := successors - {h.prev};
        if Legacy(h.prev) {
          frontiers := frontiers[h.prev := AccountOf(h)];
        }
      }
    }

    /** What was sent is not pending any more; what was collected is pending again. */
    method ReturnFunds(h: Word, balance: nat)
      requires h.State? && h in blocks && Shape(View()) && Stored() && balance == BalanceOf(h.prev)
      modifies this`pending
      ensures var returned := Pending(AccountOf(h.link), Sub(h.balance, balance));
              pending == if h.balance < balance then old(pending) - {Key(Destination(h), h)}
                         else if h.link != Zero then old(pending)[Key(AccountOf(h), h.link) := returned]
                         else old(pending)
    {
      ShapeLinked(View());
      assert LinkOk(blocks, h);
      if h.balance < balance {
        pending := pending - {Key(Destination(h), h)};
      } else if h.link != Zero {
        var sender := FindAccount(h.link);
        pending := pending[Key(AccountOf(h), h.link) := Pending(sender, Sub(h.balance, balance))];
      }
    }

    /** The account and the tables of blocks go back to the predecessor. */
    method DropState(h: Word, representative: Word, balance: nat, count: nat)
      requires h.State? && h in blocks
      modifies this`accounts, this`infos, this`successors, this`frontiers, this`blocks
      ensures accounts == Latest(old(accounts), AccountOf(h), h.prev, representative, balance, count)
      ensures blocks == old(blocks) - {h}
      ensures successors == (if h.prev in old(blocks) then old(successors) - {h.prev} else old(successors)) - {h}
      ensures frontiers == if h.prev in old(blocks) && Legacy(h.prev) then old(frontiers)[h.prev := AccountOf(h)]
                           else old(frontiers)
      ensures infos == Recorded(old(infos), accounts, AccountOf(h), false)
    {
      ChangeLatest(AccountOf(h), h.prev, representative, balance, count, false);
      LeavePrevious(h);
      DelBlock(h);
    }

    method RemoveState(h: Word, representative: Word, balance: nat)
      requires h.State? && h in blocks && Shape(View()) && Stored() && IsBefore(h, representative, balance)
      modifies this
      ensures View() == UndoStateTables(old(View()), h)
      ensures successors == (if h.prev in old(blocks) then old(successors) - {h.prev} else old(successors)) - {h}
      ensures infos == Recorded(old(infos), accounts, AccountOf(h), false)
    {
      ReturnFunds(h, balance);
      var info := InfoGet(View(), AccountOf(h));
      DropState(h, representative, balance, if info.count > 0 then info.count - 1 else 0);
    }

    method FinishState(h: Word, representative: Word, balance: nat, ghost off: Word -> int)
      requires Good(View(), Ahead(off, h)) && Stored() && h.State? && Retractable(View(), h)
      requires IsBefore(h, representative, balance)
      modifies this
      ensures Good(View(), off) && Stored() && blocks == old(blocks) - {h}
    {
      ghost var t, before, successors0 := View(), infos, successors;
      ShapeNearby(t, h);
      StateTablesUndone(t, h);
      RemoveState(h, representative, balance);
      CaughtUp(t, View(), h, off);
      ClearedSo(t, successors0, successors, h);
      FollowDel(t, successors0, successors, h);
      InfosDel(t, before, h, CountOf(h));
      RecordedOk(View(), before, AccountOf(h), false);
    }

    method RollbackState(h: Word, ghost off: Word -> int)
      requires Good(View(), off) && Stored() && h.State? && h in blocks && h != GENESIS
      requires AccountOf(h) in accounts && accounts[AccountOf(h)].head == h
      modifies this
      ensures Good(View(), off) && Stored() && h !in blocks && blocks <= old(blocks)
      ensures forall x :: x in old(blocks) && x !in blocks ==> DependsOn(x, h)
      decreases Dependents(blocks, h), 1, 0
    {
      ghost var t := View();
      ShapeLinked(t);
      InfosRight(t, infos);
      StateReady(t, h);
      var representative, balance := ReadState(h);
      GiveBackWeights(h, representative, balance);
      AheadGood(t, View(), h, off);
      if h.balance < balance {
        MakePending(h, Ahead(off, h));
      }
      FinishState(h, representative, balance, off);
    }

    method Visit(h: Word)
      requires Nearby(View(), h) && Legacy(h) && Small(weights) && Shape(View()) && Stored()
      modifies this
      ensures Undone(old(View()), View(), h) && Small(weights)
      ensures successors == if h.Open? then old(successors) - {h} else old(successors) - {h} - {h.prev}
      ensures infos == UndoneInfos(old(View()), View(), old(infos), h)
    {
      ghost var t := View();
      ShapeLinked(t);
      InfosRight(t, infos);
      match h {
        case Send(_, _, _) =>
          SendUndone(t, h);
          VisitSend(h);
        case Receive(_, _) =>
          ReceiveUndone(t, h);
          VisitReceive(h);
        case Open(_, _, _) =>
          OpenUndone(t, h);
          VisitOpen(h);
        case Change(_, _) =>
          ChangeUndone(t, h);
          VisitChange(h);
      }
    }

    method VisitLegacy(h: Word, ghost off: Word -> int)
      requires Good(View(), off) && Stored() && Legacy(h) && Retractable(View(), h)
      modifies this
      ensures Good(View(), off) && Stored() && blocks == old(blocks) - {h}
    {
      ghost var t, before, successors0 := View(), infos, successors;
      ShapeNearby(t, h);
      Visit(h);
      UndoneGood(t, View(), h, off);
      ClearedSo(t, successors0, successors, h);
      FollowDel(t, successors0, successors, h);
      VisitedInfos(t, View(), before, h);
    }

    /** Rolls back the last block of an account, and first whatever depends on it elsewhere. */
    method RollbackLast(a: Word, ghost off: Word -> int)
      requires Good(View(), off) && Stored() && a in accounts && accounts[a].head != GENESIS
      modifies this
      ensures Good(View(), off) && Stored()
      ensures old(accounts[a].head) !in blocks && old(accounts[a].head) in old(blocks) && blocks <= old(blocks)
      ensures forall x :: x in old(blocks) && x !in blocks ==> DependsOn(x, old(accounts[a].head))
      decreases Dependents(blocks, accounts[a].head), 1
    {
      var h := accounts[a].head;
      LastBlock(View(), a);
      if h.State? {
        RollbackState(h, off);
      } else {
        if h.Send? {
          MakePending(h, off);
        }
        VisitLegacy(h, off);
      }
    }

    /** `rollback` while the weights may be off: the account of `h` loses its last block until `h` is gone. */
    method Unwind(h: Word, ghost off: Word -> int)
      requires Good(View(), off) && Stored() && h in blocks && h != GENESIS
      modifies this
      ensures Good(View(), off) && Stored() && h !in blocks && blocks <= old(blocks)
      ensures forall x :: x in old(blocks) && x !in blocks ==> DependsOn(x, h)
      decreases Dependents(blocks, h), 2
    {
      var account := FindAccount(h);
      while h in blocks
        invariant Good(View(), off) && Stored()
        invariant blocks <= old(blocks) && forall x :: x in old(blocks) && x !in blocks ==> DependsOn(x, h)
        decreases blocks
      {
        ghost var t := View();
        LastDepends(t, h);
        ghost var last := accounts[account].head;
        NoMoreDependents(old(blocks), blocks, h, last);
        RollbackLast(account, off);
        RemovedDepend(t.blocks, blocks, h, last);
      }
    }

    /** Rolls the collecting account back until send `s` is pending again.  Only blocks that depend on
        `s` go, so `s` itself stays the last block of its own account. */
    method MakePending(s: Word, ghost off: Word -> int)
      requires Good(View(), off) && Stored() && s in blocks && IsSend(s)
      requires AccountOf(s) in accounts && accounts[AccountOf(s)].head == s
      modifies this
      ensures Good(View(), off) && Stored() && s in blocks && Key(Destination(s), s) in pending
      ensures AccountOf(s) in accounts && accounts[AccountOf(s)].head == s
      ensures blocks <= old(blocks) && forall x :: x in old(blocks) && x !in blocks ==> DependsOn(x, s)
      decreases Dependents(blocks, s), 0
    {
      while Key(Destination(s), s) !in pending
        invariant Good(View(), off) && Stored() && s in blocks
        invariant AccountOf(s) in accounts && accounts[AccountOf(s)].head == s
        invariant blocks <= old(blocks) && forall x :: x in old(blocks) && x !in blocks ==> DependsOn(x, s)
        decreases blocks
      {
        ghost var t := View();
        CollectorLast(t, s);
        var latest := accounts[Destination(s)].head;
        FewerDependents(old(blocks), blocks, s, latest);
        LastBlock(t, Destination(s));
        Unwind(latest, off);
        RemovedDepend(t.blocks, blocks, s, latest);
        StillLast(t, View(), s);
      }
    }

    /** `rollback`: afterwards the ledger holds exactly the blocks that do not depend on `h`. */
    method Rollback(h: Word)
      requires Valid() && h in blocks && h != GENESIS
      modifies this
      ensures Valid() && blocks == old(blocks) - Dependents(old(blocks), h)
    {
      InvIsGood(View());
      assert BlockOk(View(), h);
      Unwind(h, NO_OFFSET);
      InvIsGood(View());
      NoneLeft(View(), h);
    }
  }
}
