/**
The two elementary changes of a ledger, both described by the block alone: appending a block to its
account, and taking back the last block of an account.  Each keeps the invariant.
*/
module LedgerSteps {
  import opened Lattice
  import opened MapTotals
  import opened LedgerTables

  // ---------------------------------------------------------------- appending

  /** Everything a ledger demands of a block before it takes it, the signature apart. */
  predicate Extendable(t: Tables, b: Word) {
    var a := AccountOf(b);
    && IsBlock(b) && b !in t.blocks && a != Zero
    && (if Prev(b) == Zero then (b.Open? || b.State?) && a !in t.accounts && Source(b) != Zero
        else a in t.accounts && t.accounts[a].head == Prev(b) && (Legacy(b) ==> Legacy(Prev(b))))
    && Adds(b)
    && (Source(b) != Zero ==> Key(a, Source(b)) in t.pending)
    && (b.Receive? ==> Source(b) != Zero)
  }

  function PendingWith(pending: map<Key, Pending>, b: Word): map<Key, Pending> {
    if IsSend(b) then pending[Key(Destination(b), b) := Pending(AccountOf(b), AmountOf(b))]
    else if Source(b) != Zero then pending - {Key(AccountOf(b), Source(b))}
    else pending
  }

  function FrontiersWith(frontiers: map<Word, Word>, b: Word): map<Word, Word> {
    var rest := frontiers - {Prev(b)};
    if Legacy(b) then rest[b := AccountOf(b)] else rest
  }

  /** `t'` is `t` with block `b` appended, apart from the weights. */
  predicate Extends(t: Tables, t': Tables, b: Word) {
    && t'.blocks == t.blocks + {b}
    && t'.accounts == t.accounts[AccountOf(b) := InfoFor(b)]
    && t'.pending == PendingWith(t.pending, b)
    && t'.frontiers == FrontiersWith(t.frontiers, b)
  }

  lemma ChainStep(x: Word, b: Word)
    requires OnChain(x, Prev(b)) && Prev(b) != Zero
    ensures OnChain(x, b)
  {
  }

  /** The block extends the account it belongs to. */
  predicate Fits(t: Tables, t': Tables, b: Word) {
    && Extendable(t, b) && Extends(t, t', b) && BalanceOf(b) < LIMIT
    && (AccountOf(b) in t.accounts ==> AccountOk(t, AccountOf(b)))
  }

  lemma ExtendPlacedOld(t: Tables, t': Tables, b: Word, x: Word)
    requires Fits(t, t', b) && x in t.blocks && PlacedOk(t, x)
    ensures PlacedOk(t', x)
  {
    if AccountOf(x) == AccountOf(b) {
      ChainStep(x, b);
    }
  }

  lemma ExtendPlacedNew(t: Tables, t': Tables, b: Word)
    requires Fits(t, t', b) && (Prev(b) != Zero ==> PlacedOk(t, Prev(b)))
    ensures PlacedOk(t', b)
  {
  }

  lemma ExtendSource(t: Tables, t': Tables, b: Word, x: Word)
    requires Fits(t, t', b) && x in t'.blocks && (x != b ==> SourceOk(t, x))
    requires Source(b) != Zero ==> PendingOk(t, Key(AccountOf(b), Source(b)))
    ensures SourceOk(t', x)
  {
  }

  lemma ExtendSend(t: Tables, t': Tables, b: Word, x: Word)
    requires Fits(t, t', b) && x in t'.blocks && (x != b ==> SendOk(t, x))
    ensures SendOk(t', x)
  {
    if x != b && IsSend(x) {
      var k := Key(Destination(x), x);
      if k in t.pending {
        assert k in t'.pending || (b in t'.blocks && Source(b) == x);
      } else {
        var r :| r in t.blocks && Source(r) == x;
        assert r in t'.blocks;
      }
    }
  }

  lemma ExtendOnce(t: Tables, t': Tables, b: Word)
    requires Fits(t, t', b) && CollectedOnce(t) && (Source(b) != Zero ==> !Collected(t, Source(b)))
    ensures CollectedOnce(t')
  {
  }

  lemma ExtendAccounts(t: Tables, t': Tables, b: Word, a: Word)
    requires Fits(t, t', b) && a in t'.accounts && (a in t.accounts ==> AccountOk(t, a))
    ensures AccountOk(t', a)
  {
  }

  lemma ExtendFrontiers(t: Tables, t': Tables, b: Word, h: Word)
    requires Fits(t, t', b) && h in t'.frontiers && (h in t.frontiers ==> FrontierOk(t, h))
    ensures FrontierOk(t', h)
  {
  }

  lemma ExtendPending(t: Tables, t': Tables, b: Word, k: Key)
    requires Fits(t, t', b) && k in t'.pending && (k in t.pending ==> PendingOk(t, k))
    ensures PendingOk(t', k)
  {
  }

  lemma ExtendBlocks(t: Tables, t': Tables, b: Word)
    requires Shape(t) && Fits(t, t', b)
    ensures forall x :: x in t'.blocks ==> BlockOk(t', x)
  {
    if Source(b) != Zero {
      assert PendingOk(t, Key(AccountOf(b), Source(b)));
    }
    forall x | x in t'.blocks
      ensures BlockOk(t', x)
    {
      if x == b {
        assert Prev(b) != Zero ==> BlockOk(t, Prev(b));
        ExtendPlacedNew(t, t', b);
      } else {
        assert BlockOk(t, x);
        ExtendPlacedOld(t, t', b, x);
      }
      ExtendSource(t, t', b, x);
      ExtendSend(t, t', b, x);
    }
  }

  lemma ExtendShape(t: Tables, t': Tables, b: Word)
    requires Shape(t) && Extendable(t, b) && Extends(t, t', b) && BalanceOf(b) < LIMIT
    ensures Shape(t')
  {
    ExtendBlocks(t, t', b);
    forall a | a in t'.accounts
      ensures AccountOk(t', a)
    {
      ExtendAccounts(t, t', b, a);
    }
    forall h | h in t'.frontiers
      ensures FrontierOk(t', h)
    {
      ExtendFrontiers(t, t', b, h);
    }
    forall k | k in t'.pending
      ensures PendingOk(t', k)
    {
      ExtendPending(t, t', b, k);
    }
    if Source(b) != Zero {
      PendingNotCollected(t, Key(AccountOf(b), Source(b)));
    }
    ExtendOnce(t, t', b);
  }

  lemma BalanceBefore(t: Tables, b: Word)
    requires Shape(t) && Extendable(t, b)
    ensures (if AccountOf(b) in t.accounts then t.accounts[AccountOf(b)].balance else 0) == BalanceOf(Prev(b))
    ensures b != GENESIS
  {
    if AccountOf(b) in t.accounts {
      assert AccountOk(t, AccountOf(b));
    }
  }

  lemma SendAmount(b: Word)
    requires IsSend(b) && Adds(b)
    ensures AmountOf(b) == BalanceOf(Prev(b)) - BalanceOf(b)
  {
  }

  lemma ExtendAmounts(t: Tables, b: Word)
    requires Shape(t) && Extendable(t, b)
    ensures Total(Amounts(PendingWith(t.pending, b))) + BalanceOf(b) == Total(Amounts(t.pending)) + BalanceOf(Prev(b))
  {
    BalanceBefore(t, b);
    if IsSend(b) {
      var k := Key(Destination(b), b);
      assert k in t.pending ==> PendingOk(t, k);
      AmountsPut(t.pending, k, Pending(AccountOf(b), AmountOf(b)));
      SendAmount(b);
    } else if Source(b) != Zero {
      var k := Key(AccountOf(b), Source(b));
      assert PendingOk(t, k);
      AmountsDel(t.pending, k);
    }
  }

  /** What a send takes from a balance, and a collecting block from what is pending, reappears. */
  lemma ExtendSupply(t: Tables, t': Tables, b: Word)
    requires Shape(t) && Extendable(t, b) && Extends(t, t', b)
    ensures Supply(t') == Supply(t)
  {
    BalancesPut(t.accounts, AccountOf(b), InfoFor(b));
    BalanceBefore(t, b);
    ExtendAmounts(t, b);
  }

  // ---------------------------------------------------------------- taking back

  /** The last block of its account, not the genesis block, and if it sends, not yet collected. */
  predicate Retractable(t: Tables, h: Word) {
    var a := AccountOf(h);
    && h in t.blocks && h != GENESIS && a in t.accounts && t.accounts[a].head == h
    && (IsSend(h) ==> Key(Destination(h), h) in t.pending)
  }

  function AccountsWithout(accounts: map<Word, Info>, h: Word): map<Word, Info> {
    if Prev(h) == Zero then accounts - {AccountOf(h)} else accounts[AccountOf(h) := InfoFor(Prev(h))]
  }

  function PendingWithout(pending: map<Key, Pending>, h: Word): map<Key, Pending> {
    var s := Source(h);
    if IsSend(h) then pending - {Key(Destination(h), h)}
    else if s != Zero then pending[Key(AccountOf(h), s) := Pending(AccountOf(s), AmountOf(s))]
    else pending
  }

  function FrontiersWithout(frontiers: map<Word, Word>, h: Word): map<Word, Word> {
    var rest := frontiers - {h};
    if Legacy(Prev(h)) then rest[Prev(h) := AccountOf(h)] else rest
  }

  /** `t'` is `t` without its block `h`, apart from the weights. */
  predicate Retracts(t: Tables, t': Tables, h: Word) {
    && t'.blocks == t.blocks - {h}
    && t'.accounts == AccountsWithout(t.accounts, h)
    && t'.pending == PendingWithout(t.pending, h)
    && t'.frontiers == FrontiersWithout(t.frontiers, h)
  }

  /** What is needed of the retracted block itself. */
  ghost predicate Removable(t: Tables, t': Tables, h: Word) {
    && Retractable(t, h) && Retracts(t, t', h)
    && PlacedOk(t, h) && SourceOk(t, h) && AccountOk(t, AccountOf(h))
  }

  /** No other block of the account follows the last one, and none is on its chain but before it. */
  lemma BeforeLast(t: Tables, h: Word, x: Word)
    requires h in t.blocks && AccountOf(h) in t.accounts && t.accounts[AccountOf(h)].head == h
    requires PlacedOk(t, x) && IsBlock(h) && x != h
    ensures AccountOf(x) == AccountOf(h) ==> Prev(h) != Zero && OnChain(x, Prev(h))
    ensures Prev(x) != h
  {
    if AccountOf(x) == AccountOf(h) {
      ChainSize(x, h);
      assert OnChain(x, Prev(h)) && !OnChain(x, Zero);
    }
    assert Prev(x) != Zero ==> Size(Prev(x)) < Size(x);
  }

  lemma RetractPlaced(t: Tables, t': Tables, h: Word, x: Word)
    requires Removable(t, t', h) && x in t'.blocks && PlacedOk(t, x)
    ensures PlacedOk(t', x)
  {
    BeforeLast(t, h, x);
  }

  lemma RetractSource(t: Tables, t': Tables, h: Word, x: Word)
    requires Removable(t, t', h) && x in t'.blocks && SourceOk(t, x) && CollectedOnce(t)
    ensures SourceOk(t', x)
  {
    assert Source(x) != Zero && Source(h) != Zero ==> Source(x) != Source(h);
  }

  lemma RetractSend(t: Tables, t': Tables, h: Word, x: Word)
    requires Removable(t, t', h) && x in t'.blocks && SendOk(t, x)
    ensures SendOk(t', x)
  {
    if IsSend(x) && Key(Destination(x), x) !in t'.pending {
      var r :| r in t.blocks && Source(r) == x;
      assert r in t'.blocks;
    }
  }

  lemma RetractAccounts(t: Tables, t': Tables, h: Word, a: Word)
    requires Removable(t, t', h) && a in t'.accounts && (a in t.accounts ==> AccountOk(t, a))
    ensures AccountOk(t', a)
  {
  }

  lemma RetractFrontiers(t: Tables, t': Tables, h: Word, f: Word)
    requires Removable(t, t', h) && f in t'.frontiers && (f in t.frontiers ==> FrontierOk(t, f))
    ensures FrontierOk(t', f)
  {
  }

  lemma RetractPending(t: Tables, t': Tables, h: Word, k: Key)
    requires Removable(t, t', h) && k in t'.pending && (k in t.pending ==> PendingOk(t, k))
    ensures PendingOk(t', k)
  {
  }

  lemma RetractBlocks(t: Tables, t': Tables, h: Word)
    requires Shape(t) && Removable(t, t', h)
    ensures forall x :: x in t'.blocks ==> BlockOk(t', x)
  {
    forall x | x in t'.blocks
      ensures BlockOk(t', x)
    {
      assert BlockOk(t, x);
      RetractPlaced(t, t', h, x);
      RetractSource(t, t', h, x);
      RetractSend(t, t', h, x);
    }
  }

  lemma ShapeRemovable(t: Tables, t': Tables, h: Word)
    requires Shape(t) && Retractable(t, h) && Retracts(t, t', h)
    ensures Removable(t, t', h)
  {
    assert BlockOk(t, h) && AccountOk(t, AccountOf(h));
  }

  lemma RetractOnce(t: Tables, t': Tables)
    requires CollectedOnce(t) && t'.blocks <= t.blocks
    ensures CollectedOnce(t')
  {
  }

  lemma RetractTables(t: Tables, t': Tables, h: Word)
    requires Shape(t) && Removable(t, t', h)
    ensures forall a :: a in t'.accounts ==> AccountOk(t', a)
    ensures forall f :: f in t'.frontiers ==> FrontierOk(t', f)
    ensures forall k :: k in t'.pending ==> PendingOk(t', k)
  {
    forall a | a in t'.accounts
      ensures AccountOk(t', a)
    {
      RetractAccounts(t, t', h, a);
    }
    forall f | f in t'.frontiers
      ensures FrontierOk(t', f)
    {
      RetractFrontiers(t, t', h, f);
    }
    forall k | k in t'.pending
      ensures PendingOk(t', k)
    {
      RetractPending(t, t', h, k);
    }
  }

  lemma RetractShape(t: Tables, t': Tables, h: Word)
    requires Shape(t) && Retractable(t, h) && Retracts(t, t', h)
    ensures Shape(t')
  {
    ShapeRemovable(t, t', h);
    RetractBlocks(t, t', h);
    RetractTables(t, t', h);
    RetractOnce(t, t');
  }

  lemma RetractAmounts(t: Tables, h: Word)
    requires Shape(t) && Retractable(t, h)
    ensures Total(Amounts(PendingWithout(t.pending, h))) + BalanceOf(Prev(h))
         == Total(Amounts(t.pending)) + BalanceOf(h)
  {
    assert BlockOk(t, h) && PlacedOk(t, h) && SourceOk(t, h);
    if IsSend(h) {
      var k := Key(Destination(h), h);
      assert PendingOk(t, k);
      AmountsDel(t.pending, k);
      SendAmount(h);
    } else if Source(h) != Zero {
      AmountsPut(t.pending, Key(AccountOf(h), Source(h)), Pending(AccountOf(Source(h)), AmountOf(Source(h))));
    }
  }

  lemma RetractBalances(t: Tables, h: Word)
    requires Shape(t) && Retractable(t, h)
    ensures Total(Balances(AccountsWithout(t.accounts, h))) + BalanceOf(h)
         == Total(Balances(t.accounts)) + BalanceOf(Prev(h))
  {
    var a := AccountOf(h);
    assert AccountOk(t, a);
    if Prev(h) == Zero {
      BalancesDel(t.accounts, a);
    } else {
      BalancesPut(t.accounts, a, InfoFor(Prev(h)));
    }
  }

  lemma RetractSupply(t: Tables, t': Tables, h: Word)
    requires Shape(t) && Retractable(t, h) && Retracts(t, t', h)
    ensures Supply(t') == Supply(t)
  {
    RetractAmounts(t, h);
    RetractBalances(t, h);
  }
}
