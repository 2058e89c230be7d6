/**
What the block store (rai/blockstore.cpp) keeps beside the tables of the ledger: with each block the hash
of its successor, and with some blocks their account and balance, so that a walk along a chain can stop
early.
*/
module LedgerStore {
  import opened Lattice
  import opened LedgerTables
  import opened LedgerSteps
  import opened LedgerHashes

  /** The account and balance at a block. */
  datatype BlockInfo = BlockInfo(account: Word, balance: nat)

  /** Every so many blocks of an account such a record is kept. */
  const BLOCK_INFO_MAX := 32

  // ---------------------------------------------------------------- blocks refer to blocks

  /** What a block relies on is there. */
  predicate LinkOk(blocks: set<Word>, b: Word) {
    && IsBlock(b) && BalanceOf(b) < LIMIT
    && (if Prev(b) == Zero then (b.Open? || b.State?) && (Source(b) == Zero ==> b == GENESIS)
        else Prev(b) in blocks && (Legacy(b) ==> Legacy(Prev(b))))
    && (Source(b) != Zero ==> Source(b) in blocks) && (b.Receive? ==> Source(b) != Zero)
  }

  ghost predicate Linked(blocks: set<Word>) {
    forall b {:trigger LinkOk(blocks, b)} :: b in blocks ==> LinkOk(blocks, b)
  }

  lemma ShapeLinked(t: Tables)
    requires Shape(t)
    ensures Linked(t.blocks)
  {
    forall b | b in t.blocks
      ensures LinkOk(t.blocks, b)
    {
      assert BlockOk(t, b) && PlacedOk(t, b) && SourceOk(t, b);
    }
  }

  lemma LinkedPut(t: Tables, b: Word)
    requires Shape(t) && Extendable(t, b) && BalanceOf(b) < LIMIT
    ensures Linked(t.blocks + {b})
  {
    ShapeLinked(t);
    var a := AccountOf(b);
    assert Prev(b) != Zero ==> AccountOk(t, a);
    assert Source(b) != Zero ==> PendingOk(t, Key(a, Source(b)));
    BalanceBefore(t, b);
    forall x | x in t.blocks + {b}
      ensures LinkOk(t.blocks + {b}, x)
    {
      assert x in t.blocks ==> LinkOk(t.blocks, x);
    }
  }

  // ---------------------------------------------------------------- successors

  predicate Follows(blocks: set<Word>, x: Word) {
    x in blocks && Prev(x) != Zero
  }

  /** The stored successors are exactly the blocks that follow one. */
  ghost predicate FollowOk(blocks: set<Word>, successors: map<Word, Word>) {
    && (forall x {:trigger Follows(blocks, x)} :: Follows(blocks, x) ==>
          Prev(x) in successors && successors[Prev(x)] == x)
    && (forall p :: p in successors ==> Follows(blocks, successors[p]) && Prev(successors[p]) == p)
  }

  lemma NoZeroSuccessor(blocks: set<Word>, successors: map<Word, Word>)
    requires FollowOk(blocks, successors)
    ensures Zero !in successors
  {
  }

  /** The successors once `b` is stored. */
  function Followed(successors: map<Word, Word>, b: Word): map<Word, Word> {
    if Prev(b) == Zero then successors else successors[Prev(b) := b]
  }

  lemma FollowPut(t: Tables, successors: map<Word, Word>, b: Word)
    requires Shape(t) && Extendable(t, b) && FollowOk(t.blocks, successors)
    ensures FollowOk(t.blocks + {b}, Followed(successors, b))
  {
    var blocks' := t.blocks + {b};
    if Prev(b) != Zero {
      assert AccountOk(t, AccountOf(b));
      assert BlockOk(t, Prev(b));
    }
    forall x | Follows(blocks', x) && x != b
      ensures Follows(t.blocks, x) && Prev(x) != Prev(b)
    {
      assert Follows(t.blocks, x) && BlockOk(t, x) && PlacedOk(t, x);
      if Prev(b) != Zero && x != Prev(b) {
        BeforeLast(t, Prev(b), x);
      }
      assert x == Prev(b) ==> Size(Prev(x)) < Size(x);
    }
  }

  /** The record of `h` and the successor of its predecessor are gone, and nothing else. */
  ghost predicate Cleared(before: map<Word, Word>, after: map<Word, Word>, h: Word) {
    forall p :: (p in after <==> p in before && p != h && p != Prev(h)) && (p in after ==> after[p] == before[p])
  }

  lemma FollowDel(t: Tables, before: map<Word, Word>, after: map<Word, Word>, h: Word)
    requires Shape(t) && Retractable(t, h) && FollowOk(t.blocks, before) && Cleared(before, after, h)
    ensures FollowOk(t.blocks - {h}, after)
  {
    assert BlockOk(t, h);
    forall x | Follows(t.blocks - {h}, x)
      ensures Prev(x) in after && after[Prev(x)] == x
    {
      assert Follows(t.blocks, x) && BlockOk(t, x);
      BeforeLast(t, h, x);
      assert Prev(x) in before && before[Prev(x)] == x;
      assert Prev(h) != Zero ==> Follows(t.blocks, h);
    }
    forall p | p in after
      ensures Follows(t.blocks - {h}, after[p]) && Prev(after[p]) == p
    {
      assert Follows(t.blocks, before[p]) && Prev(before[p]) == p;
    }
  }

  // ---------------------------------------------------------------- records

  /** What the walks rely on: a record under the hash of a stored block is about that block. */
  ghost predicate InfosFor(blocks: set<Word>, infos: map<Word, BlockInfo>) {
    forall b :: b in blocks && Hash(b) in infos ==> infos[Hash(b)] == BlockInfo(AccountOf(b), BalanceOf(b))
  }

  /** A stored block of an older type, at a position where records are kept, and its record. */
  predicate IsRecordOf(infos: map<Word, BlockInfo>, n: Word, b: Word)
    requires n in infos
  {
    Hash(b) == n && Legacy(b) && CountOf(b) % BLOCK_INFO_MAX == 0 && infos[n] == BlockInfo(AccountOf(b), BalanceOf(b))
  }

  /** A record is that of a stored block of an older type, or under the hash of a state block: such a record
      may outlive its block, but the hash of a state block covers its account and balance. */
  ghost predicate RecordOk(blocks: set<Word>, infos: map<Word, BlockInfo>, n: Word)
    requires n in infos
  {
    || (n.State? && infos[n] == BlockInfo(n.account, n.balance))
    || exists b :: b in blocks && IsRecordOf(infos, n, b)
  }

  ghost predicate InfosOk(blocks: set<Word>, infos: map<Word, BlockInfo>) {
    forall n :: n in infos ==> RecordOk(blocks, infos, n)
  }

  lemma RecordRight(t: Tables, infos: map<Word, BlockInfo>, b: Word)
    requires Shape(t) && InfosOk(t.blocks, infos) && IsBlock(b) && Hash(b) in infos
    ensures b in t.blocks ==> infos[Hash(b)] == BlockInfo(AccountOf(b), BalanceOf(b))
    ensures !b.State? ==> HasHash(t.blocks, b)
  {
    assert RecordOk(t.blocks, infos, Hash(b));
    if !b.State? {
      var x :| x in t.blocks && IsRecordOf(infos, Hash(b), x);
      if b in t.blocks {
        HashNamesOneBlock(t, x, b);
      }
    }
  }

  /** No record of a receive or change block outlives its block, so a block with the same hash never meets it;
      and so every record that can be met is right. */
  lemma InfosRight(t: Tables, infos: map<Word, BlockInfo>)
    requires Shape(t) && InfosOk(t.blocks, infos)
    ensures InfosFor(t.blocks, infos)
    ensures forall b :: IsBlock(b) && !b.State? && Hash(b) in infos ==> HasHash(t.blocks, b)
  {
    forall b | IsBlock(b) && Hash(b) in infos
      ensures b in t.blocks ==> infos[Hash(b)] == BlockInfo(AccountOf(b), BalanceOf(b))
      ensures !b.State? ==> HasHash(t.blocks, b)
    {
      RecordRight(t, infos, b);
    }
    forall b | b in t.blocks
      ensures IsBlock(b)
    {
      assert BlockOk(t, b);
    }
  }

  /** A block that extends the ledger meets no record, unless it is a state block. */
  lemma InfosForPut(t: Tables, infos: map<Word, BlockInfo>, b: Word)
    requires Shape(t) && InfosOk(t.blocks, infos) && Extendable(t, b) && !b.State?
    ensures InfosFor(t.blocks + {b}, infos)
  {
    InfosRight(t, infos);
    ExtendsIsNew(t, b);
  }

  /** The records after account `a` got a new last block, unless that is added as a state block. */
  function Recorded(infos: map<Word, BlockInfo>, accounts: map<Word, Info>, a: Word, isState: bool)
    : map<Word, BlockInfo>
  {
    if a in accounts && accounts[a].count % BLOCK_INFO_MAX == 0 && !isState then
      infos[Hash(accounts[a].head) := BlockInfo(a, accounts[a].balance)]
    else infos
  }

  /** A record is made of the last block of the account, with the account and its balance, exactly if the account
      now has a multiple of 32 blocks and the block is not added as a state block; no other record changes. */
  lemma RecordMeans(infos: map<Word, BlockInfo>, accounts: map<Word, Info>, a: Word, isState: bool, n: Word)
    ensures var after := Recorded(infos, accounts, a, isState);
            if !isState && a in accounts && accounts[a].count % 32 == 0 && n == Hash(accounts[a].head) then
              n in after && after[n] == BlockInfo(a, accounts[a].balance)
            else (n in after <==> n in infos) && (n in infos ==> after[n] == infos[n])
  {
  }

  /** The records after block `h`, the last one of an account with `count` blocks, is gone. */
  function Forgotten(infos: map<Word, BlockInfo>, h: Word, count: nat): map<Word, BlockInfo> {
    if count % BLOCK_INFO_MAX == 0 then infos - {Hash(h)} else infos
  }

  lemma SameRecord(blocks: set<Word>, before: map<Word, BlockInfo>, after: map<Word, BlockInfo>, n: Word)
    requires n in before && n in after && after[n] == before[n] && RecordOk(blocks, before, n)
    ensures RecordOk(blocks, after, n)
  {
    if !n.State? || before[n] != BlockInfo(n.account, n.balance) {
      var b :| b in blocks && IsRecordOf(before, n, b);
      assert IsRecordOf(after, n, b);
    }
  }

  /** Recording the last block of an account keeps the records right. */
  lemma RecordedOk(t: Tables, infos: map<Word, BlockInfo>, a: Word, isState: bool)
    requires Shape(t) && InfosOk(t.blocks, infos)
    ensures InfosOk(t.blocks, Recorded(infos, t.accounts, a, isState))
  {
    var after := Recorded(infos, t.accounts, a, isState);
    forall n | n in after
      ensures RecordOk(t.blocks, after, n)
    {
      if n in infos && after[n] == infos[n] {
        SameRecord(t.blocks, infos, after, n);
      } else {
        var h := t.accounts[a].head;
        assert AccountOk(t, a);
        assert BlockOk(t, h);
        assert Legacy(h) ==> IsRecordOf(after, n, h);
      }
    }
  }

  lemma InfosPut(blocks: set<Word>, infos: map<Word, BlockInfo>, b: Word)
    requires InfosOk(blocks, infos)
    ensures InfosOk(blocks + {b}, infos)
  {
    forall n | n in infos
      ensures RecordOk(blocks + {b}, infos, n)
    {
      assert RecordOk(blocks, infos, n);
    }
  }

  /** With its block goes the record of a block of an older type: it is kept at the same count as it is
      deleted.  `count` is the number of blocks of its account. */
  lemma InfosDel(t: Tables, infos: map<Word, BlockInfo>, h: Word, count: nat)
    requires Shape(t) && InfosOk(t.blocks, infos) && h in t.blocks
    requires Legacy(h) && !h.Open? ==> count == CountOf(h)
    ensures InfosOk(t.blocks - {h}, if Legacy(h) && !h.Open? then Forgotten(infos, h, count) else infos)
  {
    var after := if Legacy(h) && !h.Open? then Forgotten(infos, h, count) else infos;
    forall n | n in after
      ensures RecordOk(t.blocks - {h}, after, n)
    {
      assert RecordOk(t.blocks, infos, n);
      if !n.State? || infos[n] != BlockInfo(n.account, n.balance) {
        var b :| b in t.blocks && IsRecordOf(infos, n, b);
        assert b != h;
        assert IsRecordOf(after, n, b);
      }
    }
  }
}
