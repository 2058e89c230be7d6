/**
The tables of the ledger (rai/blockstore.hpp), the invariant that ties them together, and the two
canonical changes: appending a block to an account and taking the last block of an account back.
*/
module LedgerTables {
  import opened Lattice
  import opened MapTotals

  /** The latest state of an account. */
  datatype Info = Info(head: Word, repBlock: Word, openBlock: Word, balance: nat, count: nat)

  datatype Key = Key(account: Word, hash: Word)

  /** An uncollected send: who sent it and how much. */
  datatype Pending = Pending(source: Word, amount: nat)

  /** `weights` are the voting weights of representatives; an absent weight is 0. */
  datatype Tables = Tables(blocks: set<Word>, accounts: map<Word, Info>, pending: map<Key, Pending>,
                           frontiers: map<Word, Word>, weights: map<Word, nat>)

  function Weight(weights: map<Word, nat>, r: Word): nat {
    if r in weights then weights[r] else 0
  }

  /** The information about an account whose last block is `h`. */
  function InfoFor(h: Word): Info {
    Info(h, RepBlockOf(h), OpenOf(h), BalanceOf(h), CountOf(h))
  }

  /** What reading an account gives: a missing account leaves a record of zeros. */
  function InfoGet(t: Tables, a: Word): Info {
    if a in t.accounts then t.accounts[a] else Info(Zero, Zero, Zero, 0, 0)
  }

  function Representative(i: Info): Word {
    RepresentativeOf(i.repBlock)
  }

  // ---------------------------------------------------------------- totals

  ghost function Balances(accounts: map<Word, Info>): (m: map<Word, nat>)
    ensures m.Keys == accounts.Keys
  {
    map a | a in accounts :: accounts[a].balance
  }

  ghost function Amounts(pending: map<Key, Pending>): (m: map<Key, nat>)
    ensures m.Keys == pending.Keys
  {
    map k | k in pending :: pending[k].amount
  }

  /** What each account contributes to the weight of representative `r`. */
  ghost function Votes(accounts: map<Word, Info>, r: Word): (m: map<Word, nat>)
    ensures m.Keys == accounts.Keys
  {
    map a | a in accounts :: if Representative(accounts[a]) == r then accounts[a].balance else 0
  }

  ghost function Supply(t: Tables): nat {
    Total(Balances(t.accounts)) + Total(Amounts(t.pending))
  }

  /** The balance an account lends to representative `r`. */
  function Vote(i: Info, r: Word): nat {
    if Representative(i) == r then i.balance else 0
  }

  lemma BalancesPut(accounts: map<Word, Info>, a: Word, i: Info)
    ensures Total(Balances(accounts[a := i])) + (if a in accounts then accounts[a].balance else 0)
         == Total(Balances(accounts)) + i.balance
  {
    assert Balances(accounts[a := i]) == Balances(accounts)[a := i.balance];
    TotalUpdate(Balances(accounts), a, i.balance);
  }

  lemma BalancesDel(accounts: map<Word, Info>, a: Word)
    requires a in accounts
    ensures Total(Balances(accounts - {a})) + accounts[a].balance == Total(Balances(accounts))
  {
    assert Balances(accounts - {a}) == Balances(accounts) - {a};
    TotalRemove(Balances(accounts), a);
  }

  lemma VotesPut(accounts: map<Word, Info>, a: Word, i: Info, r: Word)
    ensures Total(Votes(accounts[a := i], r)) + (if a in accounts then Vote(accounts[a], r) else 0)
         == Total(Votes(accounts, r)) + Vote(i, r)
  {
    assert Votes(accounts[a := i], r) == Votes(accounts, r)[a := Vote(i, r)];
    TotalUpdate(Votes(accounts, r), a, Vote(i, r));
  }

  lemma VotesDel(accounts: map<Word, Info>, a: Word, r: Word)
    requires a in accounts
    ensures Total(Votes(accounts - {a}, r)) + Vote(accounts[a], r) == Total(Votes(accounts, r))
  {
    assert Votes(accounts - {a}, r) == Votes(accounts, r) - {a};
    TotalRemove(Votes(accounts, r), a);
  }

  lemma AmountsPut(pending: map<Key, Pending>, k: Key, p: Pending)
    ensures Total(Amounts(pending[k := p])) + (if k in pending then pending[k].amount else 0)
         == Total(Amounts(pending)) + p.amount
  {
    assert Amounts(pending[k := p]) == Amounts(pending)[k := p.amount];
    TotalUpdate(Amounts(pending), k, p.amount);
  }

  lemma AmountsDel(pending: map<Key, Pending>, k: Key)
    requires k in pending
    ensures Total(Amounts(pending - {k})) + pending[k].amount == Total(Amounts(pending))
  {
    assert Amounts(pending - {k}) == Amounts(pending) - {k};
    TotalRemove(Amounts(pending), k);
  }

  lemma VotesWithinBalances(accounts: map<Word, Info>, r: Word)
    ensures Total(Votes(accounts, r)) <= Total(Balances(accounts))
  {
    TotalMonotonic(Votes(accounts, r), Balances(accounts));
  }

  // ---------------------------------------------------------------- the invariant

  ghost predicate Collected(t: Tables, s: Word) {
    exists r :: r in t.blocks && Source(r) == s
  }

  /** The balance of a block is that of its predecessor less what it sends or plus what it collects. */
  predicate Adds(b: Word) {
    if IsSend(b) then BalanceOf(b) <= BalanceOf(Prev(b))
    else b == GENESIS || BalanceOf(b) == BalanceOf(Prev(b)) + (if Source(b) == Zero then 0 else AmountOf(Source(b)))
  }

  predicate PlacedOk(t: Tables, b: Word) {
    var a := AccountOf(b);
    && IsBlock(b) && a != Zero && a in t.accounts && OnChain(b, t.accounts[a].head)
    && Adds(b) && BalanceOf(b) < LIMIT && IsBlock(RepBlockOf(b)) && (b.Receive? ==> Source(b) != Zero)
    && (if Prev(b) == Zero then (b.Open? || b.State?) && (Source(b) == Zero ==> b == GENESIS)
        else Prev(b) in t.blocks && AccountOf(Prev(b)) == a && (Legacy(b) ==> Legacy(Prev(b))))
  }

  predicate SourceOk(t: Tables, b: Word) {
    var s := Source(b);
    s != Zero ==> s in t.blocks && IsSend(s) && Destination(s) == AccountOf(b) && Key(AccountOf(b), s) !in t.pending
  }

  ghost predicate SendOk(t: Tables, b: Word) {
    IsSend(b) ==> Key(Destination(b), b) in t.pending || Collected(t, b)
  }

  ghost predicate BlockOk(t: Tables, b: Word) {
    PlacedOk(t, b) && SourceOk(t, b) && SendOk(t, b)
  }

  predicate AccountOk(t: Tables, a: Word)
    requires a in t.accounts
  {
    var h := t.accounts[a].head;
    && h in t.blocks && AccountOf(h) == a && t.accounts[a] == InfoFor(h)
    && (Legacy(h) ==> h in t.frontiers && t.frontiers[h] == a)
  }

  predicate FrontierOk(t: Tables, h: Word)
    requires h in t.frontiers
  {
    var a := t.frontiers[h];
    Legacy(h) && a in t.accounts && t.accounts[a].head == h
  }

  predicate PendingOk(t: Tables, k: Key)
    requires k in t.pending
  {
    && k.hash in t.blocks && IsSend(k.hash) && k.account == Destination(k.hash)
    && t.pending[k] == Pending(AccountOf(k.hash), AmountOf(k.hash))
  }

  /** No send is collected twice. */
  ghost predicate CollectedOnce(t: Tables) {
    forall r, r' :: r in t.blocks && r' in t.blocks && Source(r) == Source(r') && Source(r) != Zero ==> r == r'
  }

  ghost predicate Shape(t: Tables) {
    && (forall b {:trigger BlockOk(t, b)} :: b in t.blocks ==> BlockOk(t, b))
    && (forall a {:trigger AccountOk(t, a)} :: a in t.accounts ==> AccountOk(t, a))
    && (forall h {:trigger FrontierOk(t, h)} :: h in t.frontiers ==> FrontierOk(t, h))
    && (forall k {:trigger PendingOk(t, k)} :: k in t.pending ==> PendingOk(t, k))
    && CollectedOnce(t)
  }

  /** Nothing is created or destroyed, and each representative's weight is what its voters hold. */
  ghost predicate Conserved(t: Tables) {
    && Supply(t) == MAX
    && (forall r :: Weight(t.weights, r) == Total(Votes(t.accounts, r)))
  }

  ghost predicate Inv(t: Tables) {
    Shape(t) && Conserved(t)
  }

  function GenesisTables(): Tables {
    Tables({GENESIS}, map[GENESIS_ACCOUNT := InfoFor(GENESIS)], map[], map[GENESIS := GENESIS_ACCOUNT],
           map[GENESIS_ACCOUNT := MAX])
  }

  lemma GenesisInv()
    ensures Inv(GenesisTables())
  {
    var t := GenesisTables();
    assert BlockOk(t, GENESIS);
    assert AccountOk(t, GENESIS_ACCOUNT);
    assert Amounts(t.pending) == map[];
    var none: map<Word, Info> := map[];
    assert t.accounts == none[GENESIS_ACCOUNT := InfoFor(GENESIS)];
    BalancesPut(none, GENESIS_ACCOUNT, InfoFor(GENESIS));
    assert Balances(none) == map[];
    forall r
      ensures Weight(t.weights, r) == Total(Votes(t.accounts, r))
    {
      VotesPut(none, GENESIS_ACCOUNT, InfoFor(GENESIS), r);
      assert Votes(none, r) == map[];
    }
  }

  // ---------------------------------------------------------------- the blocks determine the tables

  lemma SameAccounts(t: Tables, t': Tables, a: Word)
    requires Shape(t) && Shape(t') && t.blocks == t'.blocks && a in t.accounts
    ensures a in t'.accounts && t'.accounts[a] == t.accounts[a]
  {
    assert AccountOk(t, a);
    var h := t.accounts[a].head;
    assert BlockOk(t', h);
    var h' := t'.accounts[a].head;
    assert AccountOk(t', a);
    assert BlockOk(t, h');
    ChainAntisymmetric(h, h');
  }

  /** What is pending has not been collected. */
  lemma PendingNotCollected(t: Tables, k: Key)
    requires Shape(t) && k in t.pending
    ensures !Collected(t, k.hash)
  {
    assert PendingOk(t, k);
    forall r | r in t.blocks
      ensures Source(r) != k.hash
    {
      assert BlockOk(t, r) && SourceOk(t, r);
      assert k == Key(Destination(k.hash), k.hash);
    }
  }

  lemma SamePending(t: Tables, t': Tables, k: Key)
    requires Shape(t) && Shape(t') && t.blocks == t'.blocks && k in t.pending
    ensures k in t'.pending && t'.pending[k] == t.pending[k]
  {
    PendingNotCollected(t, k);
    assert PendingOk(t, k);
    assert BlockOk(t', k.hash) && SendOk(t', k.hash);
    assert Collected(t', k.hash) ==> Collected(t, k.hash);
    assert PendingOk(t', k);
  }

  lemma SameFrontiers(t: Tables, t': Tables, h: Word)
    requires Shape(t) && Shape(t') && t.blocks == t'.blocks && h in t.frontiers
    ensures h in t'.frontiers && t'.frontiers[h] == t.frontiers[h]
  {
    assert FrontierOk(t, h);
    SameAccounts(t, t', t.frontiers[h]);
    assert AccountOk(t', t.frontiers[h]);
  }

  lemma EqualAccounts(t: Tables, t': Tables)
    requires Shape(t) && Shape(t') && t.blocks == t'.blocks
    ensures t.accounts == t'.accounts
  {
    forall a
      ensures a in t.accounts <==> a in t'.accounts
      ensures a in t.accounts ==> t'.accounts[a] == t.accounts[a]
    {
      if a in t.accounts {
        SameAccounts(t, t', a);
      } else if a in t'.accounts {
        SameAccounts(t', t, a);
      }
    }
  }

  lemma PendingWithin(t: Tables, t': Tables)
    requires Shape(t) && Shape(t') && t.blocks == t'.blocks
    ensures forall k :: k in t.pending ==> k in t'.pending && t'.pending[k] == t.pending[k]
  {
    forall k | k in t.pending
      ensures k in t'.pending && t'.pending[k] == t.pending[k]
    {
      SamePending(t, t', k);
    }
  }

  lemma EqualMaps<K, V>(m: map<K, V>, m': map<K, V>)
    requires forall k :: k in m ==> k in m' && m'[k] == m[k]
    requires forall k :: k in m' ==> k in m
    ensures m == m'
  {
  }

  lemma EqualPending(t: Tables, t': Tables)
    requires Shape(t) && Shape(t') && t.blocks == t'.blocks
    ensures t.pending == t'.pending
  {
    PendingWithin(t, t');
    PendingWithin(t', t);
    EqualMaps(t.pending, t'.pending);
  }

  lemma EqualFrontiers(t: Tables, t': Tables)
    requires Shape(t) && Shape(t') && t.blocks == t'.blocks
    ensures t.frontiers == t'.frontiers
  {
    forall h
      ensures h in t.frontiers <==> h in t'.frontiers
      ensures h in t.frontiers ==> t'.frontiers[h] == t.frontiers[h]
    {
      if h in t.frontiers {
        SameFrontiers(t, t', h);
      } else if h in t'.frontiers {
        SameFrontiers(t', t, h);
      }
    }
  }

  /** The tables are a function of the set of blocks: two ledgers that hold the same blocks, however they
      came to hold them, agree on every balance, every uncollected send, every frontier and every weight. */
  lemma BlocksDetermineTables(t: Tables, t': Tables)
    requires Inv(t) && Inv(t') && t.blocks == t'.blocks
    ensures t.accounts == t'.accounts && t.pending == t'.pending && t.frontiers == t'.frontiers
    ensures forall r :: Weight(t.weights, r) == Weight(t'.weights, r)
  {
    EqualAccounts(t, t');
    EqualPending(t, t');
    EqualFrontiers(t, t');
  }
}
