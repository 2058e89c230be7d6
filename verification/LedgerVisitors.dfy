/**
The loops that read a balance, an amount or a representative off stored blocks (`amount_visitor`,
`balance_visitor` and `representative_visitor` of rai/common.cpp).  They call each other; on every block
of a ledger they stop and find what the chain of blocks says.
*/
module LedgerVisitors {
  import opened Prelude
  import opened Lattice
  import opened LedgerWeights
  import opened LedgerStore

  /** What is still to be added while a balance is computed. */
  ghost function Rest(currentBalance: Word, currentAmount: Word): nat {
    BalanceOf(currentBalance) + (if currentAmount == Zero then 0 else AmountOf(currentAmount))
  }

  lemma AmountIsDifference(b: Word)
    ensures IsBlock(b) ==> AmountOf(b) == Diff(BalanceOf(b), BalanceOf(Prev(b)))
    ensures Legacy(b) && Source(b) != Zero ==> AmountOf(b) == AmountOf(Source(b))
  {
  }

  /** One block met by `balance_visitor`. */
  method Visit(blocks: set<Word>, infos: map<Word, BlockInfo>, b: Word, balance: nat)
    returns (balance': nat, currentBalance: Word, currentAmount: Word)
    requires InfosFor(blocks, infos) && b in blocks && LinkOk(blocks, b)
    requires balance + BalanceOf(b) < LIMIT && (b.State? ==> balance == 0)
    ensures balance' + Rest(currentBalance, currentAmount) == balance + BalanceOf(b)
    ensures currentBalance != Zero ==>
      currentBalance in blocks && Size(currentBalance) < Size(b) && !currentBalance.State?
    ensures currentAmount != Zero ==>
      (currentAmount in blocks || currentAmount == GENESIS_ACCOUNT) && Size(currentAmount) < Size(b)
  {
    balance', currentBalance, currentAmount := balance, Zero, Zero;
    match b {
      case Send(_, _, sent) =>
        SmallMod(balance + sent, LIMIT);
        balance' := Plus(balance, sent);
      case Receive(prev, source) =>
        if Hash(b) in infos {
          SmallMod(balance + infos[Hash(b)].balance, LIMIT);
          balance' := Plus(balance, infos[Hash(b)].balance);
        } else {
          currentAmount, currentBalance := source, prev;
        }
      case Open(source, _, _) =>
        currentAmount := source;
      case Change(prev, _) =>
        if Hash(b) in infos {
          SmallMod(balance + infos[Hash(b)].balance, LIMIT);
          balance' := Plus(balance, infos[Hash(b)].balance);
        } else {
          currentBalance := prev;
        }
      case State(_, _, _, stated, _) =>
        balance' := stated;
    }
  }

  /** `balance_visitor::compute`.  A state block overwrites what was added up before it; that is right
      because no block of an older type follows a state block. */
  method ComputeBalance(blocks: set<Word>, infos: map<Word, BlockInfo>, hash: Word) returns (balance: nat)
    requires Linked(blocks) && InfosFor(blocks, infos) && (hash in blocks || hash == Zero)
    ensures balance == BalanceOf(hash)
    decreases Size(hash)
  {
    balance := 0;
    var currentBalance, currentAmount := hash, Zero;
    if hash != Zero {
      assert LinkOk(blocks, hash);
    }
    while currentBalance != Zero || currentAmount != Zero
      invariant BalanceOf(hash) < LIMIT && balance + Rest(currentBalance, currentAmount) == BalanceOf(hash)
      invariant currentBalance != Zero ==> currentBalance in blocks && Size(currentBalance) <= Size(hash)
      invariant currentBalance.State? ==> balance == 0 && currentAmount == Zero
      invariant currentAmount != Zero ==>
        (currentAmount in blocks || currentAmount == GENESIS_ACCOUNT) && Size(currentAmount) < Size(hash)
      decreases if currentBalance != Zero then Size(currentBalance) else 0, currentAmount != Zero
    {
      if currentAmount != Zero {
        var amount := ComputeAmount(blocks, infos, currentAmount);
        SmallMod(balance + amount, LIMIT);
        balance := Plus(balance, amount);
        currentAmount := Zero;
      } else {
        assert LinkOk(blocks, currentBalance);
        balance, currentBalance, currentAmount := Visit(blocks, infos, currentBalance, balance);
      }
    }
  }

  /** `amount_visitor::compute`: the difference between the balance at a block and at its predecessor, which for a
      block of an older type that collects is the amount of the send. */
  method ComputeAmount(blocks: set<Word>, infos: map<Word, BlockInfo>, hash: Word) returns (amount: nat)
    requires Linked(blocks) && InfosFor(blocks, infos) && (hash in blocks || hash == GENESIS_ACCOUNT)
    ensures amount == AmountOf(hash)
    ensures hash in blocks ==> amount == Diff(BalanceOf(hash), BalanceOf(Prev(hash)))
    ensures hash in blocks && Legacy(hash) && Source(hash) != Zero ==> amount == AmountOf(Source(hash))
    decreases Size(hash)
  {
    amount := 0;
    AmountIsDifference(hash);
    assert hash in blocks ==> LinkOk(blocks, hash);
    var currentAmount, currentBalance := hash, Zero;
    while currentAmount != Zero || currentBalance != Zero
      invariant currentAmount != Zero ==>
        && currentBalance == Zero && (currentAmount in blocks || currentAmount == hash)
        && Size(currentAmount) <= Size(hash) && AmountOf(currentAmount) == AmountOf(hash)
      invariant currentAmount == Zero && currentBalance == Zero ==> amount == AmountOf(hash)
      invariant currentAmount == Zero && currentBalance != Zero ==>
        && currentBalance in blocks && Size(currentBalance) < Size(hash)
        && Diff(BalanceOf(currentBalance), amount) == AmountOf(hash)
      decreases if currentAmount != Zero then Size(currentAmount) else 0, currentBalance != Zero
    {
      if currentAmount != Zero {
        if currentAmount in blocks {
          assert LinkOk(blocks, currentAmount);
          match currentAmount {
            case Send(prev, _, balance) =>
              currentBalance, amount, currentAmount := prev, balance, Zero;
            case Receive(_, source) =>
              currentAmount := source;
            case Open(source, _, _) =>
              if source != GENESIS_ACCOUNT {
                currentAmount := source;
              } else {
                amount, currentAmount := MAX, Zero;
              }
            case Change(_, _) =>
              amount, currentAmount := 0, Zero;
            case State(_, prev, _, balance, _) =>
              currentBalance, amount, currentAmount := prev, balance, Zero;
          }
        } else if hash == GENESIS_ACCOUNT {
          amount, currentAmount := MAX, Zero;
        } else {
          assert false;
        }
      } else {
        var before := ComputeBalance(blocks, infos, currentBalance);
        amount := if amount < before then before - amount else amount - before;
        currentBalance := Zero;
      }
    }
  }

  /** `representative_visitor::compute`: the block that named the representative in force. */
  method ComputeRepresentative(blocks: set<Word>, hash: Word) returns (result: Word)
    requires Linked(blocks) && hash in blocks
    ensures result == RepBlockOf(hash) && result in blocks && !result.Send? && !result.Receive?
  {
    result := Zero;
    var current := hash;
    while result == Zero
      invariant current in blocks && RepBlockOf(current) == RepBlockOf(hash)
      invariant result != Zero ==> result == RepBlockOf(hash) && result in blocks && !result.Send? && !result.Receive?
      decreases if result == Zero then Size(current) + 1 else 0
    {
      assert LinkOk(blocks, current);
      match current {
        case Send(prev, _, _) => current := prev;
        case Receive(prev, _) => current := prev;
        case Open(_, _, _) => result := current;
        case Change(_, _) => result := current;
        case State(_, _, _, _, _) => result := current;
      }
    }
  }
}
