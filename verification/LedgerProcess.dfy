/**
`rai::ledger::process` (rai/ledger.cpp): which blocks a ledger accepts, and what it does with them.
The signer of a block is the account whose key made its signature, so a signature is valid for an
account exactly when that account is the signer.  References of a block to stored blocks are those blocks.
*/
module LedgerProcess {
  import opened Prelude
  import opened Lattice
  import opened MapTotals
  import opened LedgerTables
  import opened LedgerSteps
  import opened LedgerHashes
  import opened LedgerWeights

  datatype Code =
    | Progress | BadSignature | Old | NegativeSpend | Fork | Unreceivable | GapPrevious | GapSource
    | OpenedBurnAccount | BalanceMismatch | BlockPosition

  // ---------------------------------------------------------------- the verdict

  function FrontierGet(t: Tables, h: Word): Word {
    if h in t.frontiers then t.frontiers[h] else Zero
  }

  function JudgeSend(t: Tables, b: Word, signer: Word): Code
    requires b.Send?
  {
    if HasHash(t.blocks, b) then Old
    else if b.prev !in t.blocks then GapPrevious
    else if !Legacy(b.prev) then BlockPosition
    else
      var account := FrontierGet(t, b.prev);
      if account == Zero then Fork
      else if signer != account then BadSignature
      else if InfoGet(t, account).balance < b.balance then NegativeSpend
      else Progress
  }

  function JudgeReceive(t: Tables, b: Word, signer: Word): Code
    requires b.Receive?
  {
    if HasHash(t.blocks, b) then Old
    else if b.prev !in t.blocks then GapPrevious
    else if !Legacy(b.prev) then BlockPosition
    else if b.source !in t.blocks then GapSource
    else
      var account := FrontierGet(t, b.prev);
      if account == Zero then (if b.prev in t.blocks then Fork else GapPrevious)
      else if signer != account then BadSignature
      else if InfoGet(t, account).head != b.prev then GapPrevious
      else if Key(account, b.source) !in t.pending then Unreceivable
      else Progress
  }

  function JudgeOpen(t: Tables, b: Word, signer: Word): Code
    requires b.Open?
  {
    if HasHash(t.blocks, b) then Old
    else if b.source !in t.blocks then GapSource
    else if signer != AccountOf(b) then BadSignature
    else if AccountOf(b) in t.accounts then Fork
    else if Key(AccountOf(b), b.source) !in t.pending then Unreceivable
    else if AccountOf(b) == Zero then OpenedBurnAccount
    else Progress
  }

  function JudgeChange(t: Tables, b: Word, signer: Word): Code
    requires b.Change?
  {
    if HasHash(t.blocks, b) then Old
    else if b.prev !in t.blocks then GapPrevious
    else if !Legacy(b.prev) then BlockPosition
    else
      var account := FrontierGet(t, b.prev);
      if account == Zero then Fork
      else if signer != account then BadSignature
      else Progress
  }

  /** The second half of the checks on a state block: the balance against what it sends or collects. */
  function JudgeFunds(t: Tables, b: Word, sends: bool, amount: nat): Code
    requires b.State?
  {
    if sends then Progress
    else if b.link != Zero then
      if b.link !in t.blocks then GapSource
      else if Key(AccountOf(b), b.link) !in t.pending then Unreceivable
      else if amount != t.pending[Key(AccountOf(b), b.link)].amount then BalanceMismatch
      else Progress
    else if amount != 0 then BalanceMismatch
    else Progress
  }

  function JudgeState(t: Tables, b: Word, signer: Word): Code
    requires b.State?
  {
    if HasHash(t.blocks, b) then Old
    else if signer != AccountOf(b) then BadSignature
    else if AccountOf(b) == Zero then OpenedBurnAccount
    else if AccountOf(b) in t.accounts then
      var info := t.accounts[AccountOf(b)];
      if b.prev == Zero then Fork
      else if b.prev !in t.blocks then GapPrevious
      else if b.prev != info.head then Fork
      else JudgeFunds(t, b, b.balance < info.balance, Diff(info.balance, b.balance))
    else if b.prev != Zero then GapPrevious
    else if b.link == Zero then GapSource
    else JudgeFunds(t, b, false, b.balance)
  }

  function Judge(t: Tables, b: Word, signer: Word): Code
    requires IsBlock(b)
  {
    match b
    case Send(_, _, _) => JudgeSend(t, b, signer)
    case Receive(_, _) => JudgeReceive(t, b, signer)
    case Open(_, _, _) => JudgeOpen(t, b, signer)
    case Change(_, _) => JudgeChange(t, b, signer)
    case State(_, _, _, _, _) => JudgeState(t, b, signer)
  }

  /** What the account, frontier and pending tables say about the places a block refers to. */
  predicate Around(t: Tables, b: Word) {
    var a := AccountOf(b);
    && (a in t.accounts ==> AccountOk(t, a) && t.accounts[a].repBlock != Zero)
    && (Prev(b) in t.frontiers ==> FrontierOk(t, Prev(b)) && AccountOk(t, t.frontiers[Prev(b)]))
    && (Key(a, Source(b)) in t.pending ==> PendingOk(t, Key(a, Source(b))))
    && (b.State? && Key(a, b.link) in t.pending ==> PendingOk(t, Key(a, b.link)))
    && Zero !in t.blocks && GENESIS_ACCOUNT !in t.blocks && Zero !in t.accounts
  }

  lemma ShapeAround(t: Tables, b: Word)
    requires Shape(t)
    ensures Around(t, b)
  {
    var a := AccountOf(b);
    assert a in t.accounts ==> AccountOk(t, a) && BlockOk(t, t.accounts[a].head);
    assert Zero in t.blocks ==> BlockOk(t, Zero);
    assert GENESIS_ACCOUNT in t.blocks ==> BlockOk(t, GENESIS_ACCOUNT);
    assert Zero in t.accounts ==> AccountOk(t, Zero) && BlockOk(t, t.accounts[Zero].head);
  }

  lemma LegacyVerdict(t: Tables, b: Word, signer: Word)
    requires Around(t, b) && (Extendable(t, b) ==> !HasHash(t.blocks, b)) && (b.Send? || b.Change?)
    ensures Judge(t, b, signer) == Progress <==> Extendable(t, b) && signer == AccountOf(b)
  {
    assert b in t.blocks ==> SameHash(b, b);
  }

  lemma ReceiveVerdict(t: Tables, b: Word, signer: Word)
    requires Around(t, b) && (Extendable(t, b) ==> !HasHash(t.blocks, b)) && b.Receive?
    ensures Judge(t, b, signer) == Progress <==> Extendable(t, b) && signer == AccountOf(b)
  {
    assert b in t.blocks ==> SameHash(b, b);
  }

  lemma OpenVerdict(t: Tables, b: Word, signer: Word)
    requires Around(t, b) && (Extendable(t, b) ==> !HasHash(t.blocks, b)) && b.Open?
    ensures Judge(t, b, signer) == Progress <==> Extendable(t, b) && signer == AccountOf(b)
  {
    assert b in t.blocks ==> SameHash(b, b);
  }

  lemma StateVerdict(t: Tables, b: Word, signer: Word)
    requires Around(t, b) && (Extendable(t, b) ==> !HasHash(t.blocks, b)) && b.State?
    ensures Judge(t, b, signer) == Progress <==> Extendable(t, b) && signer == AccountOf(b)
  {
    assert b in t.blocks ==> SameHash(b, b);
  }

  /** A ledger accepts a block exactly when the owner of the account signed it and it extends the
      account: it follows the last block, or opens a new account; it spends no more than there is; and
      what it collects is pending for this account and enters the balance in full. */
  lemma AcceptedIffExtends(t: Tables, b: Word, signer: Word)
    requires Shape(t) && IsBlock(b)
    ensures Judge(t, b, signer) == Progress <==> Extendable(t, b) && signer == AccountOf(b)
  {
    ShapeAround(t, b);
    if Extendable(t, b) {
      ExtendsIsNew(t, b);
    }
    match b
    case Send(_, _, _) => LegacyVerdict(t, b, signer);
    case Change(_, _) => LegacyVerdict(t, b, signer);
    case Receive(_, _) => ReceiveVerdict(t, b, signer);
    case Open(_, _, _) => OpenVerdict(t, b, signer);
    case State(_, _, _, _, _) => StateVerdict(t, b, signer);
  }

  // ---------------------------------------------------------------- what processing does

  /** `change_latest`: the account table with a new last block; a zero hash deletes the account. */
  function Latest(accounts: map<Word, Info>, account: Word, hash: Word, repBlock: Word, balance: nat, count: nat)
    : map<Word, Info>
  {
    var open := if account in accounts then accounts[account].openBlock else hash;
    if hash == Zero then accounts - {account}
    else accounts[account := Info(hash, repBlock, open, balance, count)]
  }

  /** One account changes and all others stay; it is there afterwards exactly if the hash is not zero, and
      then has the given last block and keeps its first one. */
  lemma LatestMeans(accounts: map<Word, Info>, account: Word, hash: Word, repBlock: Word, balance: nat, count: nat)
    ensures var after := Latest(accounts, account, hash, repBlock, balance, count);
            && after.Keys - {account} == accounts.Keys - {account}
            && (forall a :: a in accounts && a != account ==> after[a] == accounts[a])
            && (account in after <==> hash != Zero)
            && (hash != Zero ==>
                  && after[account].head == hash && after[account].repBlock == repBlock
                  && after[account].balance == balance && after[account].count == count
                  && after[account].openBlock == if account in accounts then accounts[account].openBlock else hash)
  {
    var after := Latest(accounts, account, hash, repBlock, balance, count);
    forall a | a != account
      ensures a in after.Keys <==> a in accounts.Keys
    {
      assert a in after <==> a in accounts;
    }
  }

  function AfterSend(t: Tables, b: Word): Tables
    requires b.Send?
  {
    var account := FrontierGet(t, b.prev);
    var info := InfoGet(t, account);
    var amount := Sub(info.balance, b.balance);
    Tables(t.blocks + {b},
           Latest(t.accounts, account, b, info.repBlock, b.balance, info.count + 1),
           t.pending[Key(Destination(b), b) := Pending(account, amount)],
           (t.frontiers - {b.prev})[b := account],
           RepAdd(t.weights, info.repBlock, Neg(amount)))
  }

  function AfterReceive(t: Tables, b: Word): Tables
    requires b.Receive? && Key(FrontierGet(t, b.prev), b.source) in t.pending
  {
    var account := FrontierGet(t, b.prev);
    var info := InfoGet(t, account);
    var key := Key(account, b.source);
    var amount := t.pending[key].amount;
    Tables(t.blocks + {b},
           Latest(t.accounts, account, b, info.repBlock, Plus(info.balance, amount), info.count + 1),
           t.pending - {key},
           (t.frontiers - {b.prev})[b := account],
           RepAdd(t.weights, info.repBlock, amount))
  }

  function AfterOpen(t: Tables, b: Word): Tables
    requires b.Open? && Key(AccountOf(b), b.source) in t.pending
  {
    var key := Key(AccountOf(b), b.source);
    var amount := t.pending[key].amount;
    Tables(t.blocks + {b},
           Latest(t.accounts, AccountOf(b), b, b, amount, InfoGet(t, AccountOf(b)).count + 1),
           t.pending - {key},
           t.frontiers[b := AccountOf(b)],
           RepAdd(t.weights, b, amount))
  }

  function AfterChange(t: Tables, b: Word): Tables
    requires b.Change?
  {
    var account := FrontierGet(t, b.prev);
    var info := InfoGet(t, account);
    var balance := BalanceOf(b.prev);
    Tables(t.blocks + {b},
           Latest(t.accounts, account, b, b, info.balance, info.count + 1),
           t.pending,
           (t.frontiers - {b.prev})[b := account],
           RepAdd(RepAdd(t.weights, b, balance), info.repBlock, Neg(balance)))
  }

  function AfterState(t: Tables, b: Word): Tables
    requires b.State?
  {
    var info := InfoGet(t, AccountOf(b));
    var sends := b.balance < info.balance;
    Tables(t.blocks + {b},
           Latest(t.accounts, AccountOf(b), b, b, b.balance, info.count + 1),
           if sends then t.pending[Key(Destination(b), b) := Pending(AccountOf(b), Diff(info.balance, b.balance))]
           else if b.link != Zero then t.pending - {Key(AccountOf(b), b.link)}
           else t.pending,
           t.frontiers - {info.head},
           RepAdd(if info.repBlock != Zero then RepAdd(t.weights, info.repBlock, Neg(info.balance)) else t.weights,
                  b, b.balance))
  }

  /** The result is the block appended to its account, with the weights moved accordingly. */
  ghost predicate Appended(t: Tables, t': Tables, b: Word) {
    && Extends(t, t', b) && Small(t'.weights)
    && (forall r :: Shifted(t.weights, t'.weights, InfoGet(t, AccountOf(b)), InfoFor(b), r))
  }

  ghost predicate Ready(t: Tables, b: Word) {
    && Around(t, b) && Extendable(t, b) && Small(t.weights)
    && BalanceOf(b) < LIMIT && InfoGet(t, AccountOf(b)).balance < LIMIT
  }

  lemma BalanceWithinSupply(accounts: map<Word, Info>, a: Word)
    requires a in accounts
    ensures accounts[a].balance <= Total(Balances(accounts))
  {
    BalancesDel(accounts, a);
  }

  /** A collected amount cannot overflow the balance it enters: both are part of the supply. */
  lemma NoOverflow(t: Tables, b: Word)
    requires Inv(t) && Extendable(t, b)
    ensures BalanceOf(b) < LIMIT
  {
    var t' := Tables(t.blocks + {b}, t.accounts[AccountOf(b) := InfoFor(b)], PendingWith(t.pending, b),
                     FrontiersWith(t.frontiers, b), t.weights);
    ExtendSupply(t, t', b);
    BalanceWithinSupply(t'.accounts, AccountOf(b));
  }

  lemma InvReady(t: Tables, b: Word)
    requires Inv(t) && Extendable(t, b)
    ensures Ready(t, b)
  {
    ShapeAround(t, b);
    WeightsSmall(t);
    NoOverflow(t, b);
    if AccountOf(b) in t.accounts {
      BalanceWithinSupply(t.accounts, AccountOf(b));
    }
  }

  lemma SendAppends(t: Tables, b: Word)
    requires Ready(t, b) && b.Send?
    ensures Appended(t, AfterSend(t, b), b)
  {
    var info := InfoGet(t, AccountOf(b));
    SmallMod(info.balance - b.balance, LIMIT);
    forall r
      ensures Shifted(t.weights, AfterSend(t, b).weights, info, InfoFor(b), r)
    {
      RepAddMod(t.weights, info.repBlock, Neg(info.balance - b.balance), r);
    }
  }

  lemma ReceiveAppends(t: Tables, b: Word)
    requires Ready(t, b) && b.Receive?
    ensures Key(FrontierGet(t, b.prev), b.source) in t.pending && Appended(t, AfterReceive(t, b), b)
  {
    var info := InfoGet(t, AccountOf(b));
    var amount := t.pending[Key(AccountOf(b), b.source)].amount;
    SmallMod(info.balance + amount, LIMIT);
    forall r
      ensures Shifted(t.weights, AfterReceive(t, b).weights, info, InfoFor(b), r)
    {
      RepAddMod(t.weights, info.repBlock, amount, r);
    }
  }

  lemma OpenAppends(t: Tables, b: Word)
    requires Ready(t, b) && b.Open? && Zero !in t.frontiers
    ensures Key(AccountOf(b), b.source) in t.pending && Appended(t, AfterOpen(t, b), b)
  {
    var info := InfoGet(t, AccountOf(b));
    var amount := t.pending[Key(AccountOf(b), b.source)].amount;
    assert t.frontiers - {Zero} == t.frontiers;
    forall r
      ensures Shifted(t.weights, AfterOpen(t, b).weights, info, InfoFor(b), r)
    {
      RepAddMod(t.weights, b, amount, r);
    }
  }

  lemma ChangeAppends(t: Tables, b: Word)
    requires Ready(t, b) && b.Change?
    ensures Appended(t, AfterChange(t, b), b)
  {
    var info := InfoGet(t, AccountOf(b));
    forall r
      ensures Shifted(t.weights, AfterChange(t, b).weights, info, InfoFor(b), r)
    {
      RepAddTwiceMod(t.weights, b, info.balance, info.repBlock, Neg(info.balance), r);
    }
  }

  lemma StateAccounts(t: Tables, b: Word)
    requires Around(t, b) && Extendable(t, b) && b.State?
    ensures Latest(t.accounts, AccountOf(b), b, b, b.balance, InfoGet(t, AccountOf(b)).count + 1)
         == t.accounts[AccountOf(b) := InfoFor(b)]
  {
    assert AccountOf(b) in t.accounts ==> t.accounts[AccountOf(b)] == InfoFor(b.prev) && b.prev != Zero;
    assert AccountOf(b) !in t.accounts ==> b.prev == Zero && CountOf(Zero) == 0;
    assert RepBlockOf(b) == b && BalanceOf(b) == b.balance && CountOf(b) == CountOf(b.prev) + 1;
    assert OpenOf(b) == if b.prev == Zero then b else OpenOf(b.prev);
  }

  lemma StateExtends(t: Tables, b: Word)
    requires Ready(t, b) && b.State? && Zero !in t.frontiers
    ensures Extends(t, AfterState(t, b), b) && Small(AfterState(t, b).weights)
  {
    StateAccounts(t, b);
    assert AccountOf(b) !in t.accounts ==> t.frontiers - {Zero} == t.frontiers;
  }

  lemma StateAppends(t: Tables, b: Word)
    requires Ready(t, b) && b.State? && Zero !in t.frontiers
    ensures Appended(t, AfterState(t, b), b)
  {
    StateExtends(t, b);
    var info := InfoGet(t, AccountOf(b));
    forall r
      ensures Shifted(t.weights, AfterState(t, b).weights, info, InfoFor(b), r)
    {
      if info.repBlock != Zero {
        RepAddTwiceMod(t.weights, info.repBlock, Neg(info.balance), b, b.balance, r);
      } else {
        RepAddMod(t.weights, b, b.balance, r);
      }
    }
  }

  /** A block that extends a valid ledger can be appended. */
  lemma CanAppend(t: Tables, b: Word) returns (t': Tables)
    requires Inv(t) && Extendable(t, b)
    ensures Appended(t, t', b)
  {
    InvReady(t, b);
    assert Zero in t.frontiers ==> FrontierOk(t, Zero);
    match b
    case Send(_, _, _) =>
      SendAppends(t, b);
      t' := AfterSend(t, b);
    case Receive(_, _) =>
      ReceiveAppends(t, b);
      t' := AfterReceive(t, b);
    case Open(_, _, _) =>
      OpenAppends(t, b);
      t' := AfterOpen(t, b);
    case Change(_, _) =>
      ChangeAppends(t, b);
      t' := AfterChange(t, b);
    case State(_, _, _, _, _) =>
      StateAppends(t, b);
      t' := AfterState(t, b);
  }

  lemma ExtendVotes(t: Tables, t': Tables, b: Word)
    requires t'.accounts == t.accounts[AccountOf(b) := InfoFor(b)]
    ensures forall r :: VotesMove(t, t', InfoGet(t, AccountOf(b)), InfoFor(b), r)
  {
    forall r
      ensures VotesMove(t, t', InfoGet(t, AccountOf(b)), InfoFor(b), r)
    {
      VotesPut(t.accounts, AccountOf(b), InfoFor(b), r);
    }
  }

  lemma AppendedWeights(t: Tables, t': Tables, b: Word)
    requires Conserved(t) && Supply(t') == MAX && Appended(t, t', b)
    ensures Conserved(t')
  {
    ExactUpTo(t);
    ExtendVotes(t, t', b);
    WeightsMove(t, t', InfoGet(t, AccountOf(b)), InfoFor(b), NO_OFFSET);
    UpToExact(t');
  }

  /** Appending keeps the invariant. */
  lemma AppendedInv(t: Tables, t': Tables, b: Word)
    requires Inv(t) && Extendable(t, b) && Appended(t, t', b)
    ensures Inv(t')
  {
    NoOverflow(t, b);
    ExtendShape(t, t', b);
    ExtendSupply(t, t', b);
    AppendedWeights(t, t', b);
  }
}
