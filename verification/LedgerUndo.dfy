/**
What `rollback_visitor` (rai/ledger.cpp) does to the tables for the last block of an account, once
whatever had collected that block has been rolled back.
*/
module LedgerUndo {
  import opened Prelude
  import opened Lattice
  import opened LedgerTables
  import opened LedgerSteps
  import opened LedgerWeights
  import opened LedgerProcess

  /** The account table once the last block `h` is gone, with what the visitor computed for `prev`. */
  function Earlier(t: Tables, account: Word, h: Word, repBlock: Word, balance: nat): map<Word, Info> {
    var count := InfoGet(t, account).count;
    Latest(t.accounts, account, Prev(h), repBlock, balance, if count > 0 then count - 1 else 0)
  }

  function UndoSend(t: Tables, h: Word): Tables
    requires h.Send? && Key(Destination(h), h) in t.pending
  {
    var key := Key(Destination(h), h);
    var Pending(source, amount) := t.pending[key];
    Tables(t.blocks - {h},
           Earlier(t, source, h, InfoGet(t, source).repBlock, BalanceOf(h.prev)),
           t.pending - {key},
           (t.frontiers - {h})[h.prev := source],
           RepAdd(t.weights, RepBlockOf(h), amount))
  }

  function UndoReceive(t: Tables, h: Word): Tables
    requires h.Receive?
  {
    var amount := AmountOf(h.source);
    var account := AccountOf(h);
    Tables(t.blocks - {h},
           Earlier(t, account, h, RepBlockOf(h.prev), BalanceOf(h.prev)),
           t.pending[Key(account, h.source) := Pending(AccountOf(h.source), amount)],
           (t.frontiers - {h})[h.prev := account],
           RepAdd(t.weights, RepBlockOf(h), Neg(amount)))
  }

  function UndoOpen(t: Tables, h: Word): Tables
    requires h.Open?
  {
    var amount := AmountOf(h.source);
    var account := AccountOf(h);
    Tables(t.blocks - {h},
           Latest(t.accounts, account, Zero, Zero, 0, 0),
           t.pending[Key(account, h.source) := Pending(AccountOf(h.source), amount)],
           t.frontiers - {h},
           RepAdd(t.weights, RepBlockOf(h), Neg(amount)))
  }

  function UndoChange(t: Tables, h: Word): Tables
    requires h.Change?
  {
    var representative := RepBlockOf(h.prev);
    var account := AccountOf(h.prev);
    var balance := BalanceOf(h.prev);
    Tables(t.blocks - {h},
           Earlier(t, account, h, representative, InfoGet(t, account).balance),
           t.pending,
           (t.frontiers - {h})[h.prev := account],
           RepAdd(RepAdd(t.weights, representative, balance), h, Neg(balance)))
  }

  /** The weights a state block gives back; this is done before its collectors are rolled back. */
  function UndoStateWeights(weights: map<Word, nat>, h: Word): map<Word, nat>
    requires h.State?
  {
    var representative := if h.prev == Zero then Zero else RepBlockOf(h.prev);
    var taken := RepAdd(weights, h, Neg(h.balance));
    if representative == Zero then taken else RepAdd(taken, representative, BalanceOf(h.prev))
  }

  /** The other tables; `t.weights` have been dealt with already. */
  function UndoStateTables(t: Tables, h: Word): Tables
    requires h.State?
  {
    var representative := if h.prev == Zero then Zero else RepBlockOf(h.prev);
    var balance := BalanceOf(h.prev);
    Tables(t.blocks - {h},
           Earlier(t, AccountOf(h), h, representative, balance),
           if h.balance < balance then t.pending - {Key(Destination(h), h)}
           else if h.link != Zero then
             t.pending[Key(AccountOf(h), h.link) := Pending(AccountOf(h.link), Sub(h.balance, balance))]
           else t.pending,
           if h.prev in t.blocks && Legacy(h.prev) then t.frontiers[h.prev := AccountOf(h)] else t.frontiers,
           t.weights)
  }

  /** The account before its last block: a record of zeros when that was the first. */
  function InfoBefore(h: Word): Info {
    if Prev(h) == Zero then Info(Zero, Zero, Zero, 0, 0) else InfoFor(Prev(h))
  }

  predicate Nearby(t: Tables, h: Word) {
    var a := AccountOf(h);
    && Retractable(t, h) && PlacedOk(t, h) && SourceOk(t, h) && AccountOk(t, a)
    && (Prev(h) != Zero ==> PlacedOk(t, Prev(h)))
    && (IsSend(h) ==> PendingOk(t, Key(Destination(h), h)))
    && BalanceOf(h) < LIMIT && BalanceOf(Prev(h)) < LIMIT
    && (h in t.frontiers ==> FrontierOk(t, h)) && Zero !in t.blocks
  }

  /** `t'` is `t` without `h`, with the weights moved accordingly up to the modulus. */
  ghost predicate Undone(t: Tables, t': Tables, h: Word) {
    Retracts(t, t', h) && forall r :: Shifted(t.weights, t'.weights, InfoFor(h), InfoBefore(h), r)
  }

  lemma SendUndone(t: Tables, h: Word)
    requires Nearby(t, h) && h.Send?
    ensures Undone(t, UndoSend(t, h), h)
  {
    var amount := AmountOf(h);
    forall r
      ensures Shifted(t.weights, UndoSend(t, h).weights, InfoFor(h), InfoBefore(h), r)
    {
      RepAddMod(t.weights, RepBlockOf(h), amount, r);
    }
  }

  lemma ReceiveUndone(t: Tables, h: Word)
    requires Nearby(t, h) && h.Receive?
    ensures Undone(t, UndoReceive(t, h), h)
  {
    forall r
      ensures Shifted(t.weights, UndoReceive(t, h).weights, InfoFor(h), InfoBefore(h), r)
    {
      RepAddMod(t.weights, RepBlockOf(h), Neg(AmountOf(h.source)), r);
    }
  }

  lemma OpenUndone(t: Tables, h: Word)
    requires Nearby(t, h) && h.Open?
    ensures Undone(t, UndoOpen(t, h), h)
  {
    forall r
      ensures Shifted(t.weights, UndoOpen(t, h).weights, InfoFor(h), InfoBefore(h), r)
    {
      RepAddMod(t.weights, RepBlockOf(h), Neg(AmountOf(h.source)), r);
    }
  }

  lemma ChangeUndone(t: Tables, h: Word)
    requires Nearby(t, h) && h.Change?
    ensures Undone(t, UndoChange(t, h), h)
  {
    forall r
      ensures Shifted(t.weights, UndoChange(t, h).weights, InfoFor(h), InfoBefore(h), r)
    {
      RepAddTwiceMod(t.weights, RepBlockOf(h.prev), BalanceOf(h.prev), h, Neg(BalanceOf(h.prev)), r);
    }
  }

  lemma StateTablesUndone(t: Tables, h: Word)
    requires Nearby(t, h) && h.State?
    ensures Retracts(t, UndoStateTables(t, h), h)
  {
    if !IsSend(h) && h.link != Zero {
      SmallMod(h.balance - BalanceOf(h.prev), LIMIT);
    }
    assert h !in t.frontiers;
    assert t.frontiers - {h} == t.frontiers;
  }

  lemma StateWeightsUndone(weights: map<Word, nat>, h: Word)
    requires h.State? && (h.prev != Zero ==> IsBlock(RepBlockOf(h.prev)))
    ensures forall r :: Shifted(weights, UndoStateWeights(weights, h), InfoFor(h), InfoBefore(h), r)
  {
    forall r
      ensures Shifted(weights, UndoStateWeights(weights, h), InfoFor(h), InfoBefore(h), r)
    {
      if h.prev == Zero {
        RepAddMod(weights, h, Neg(h.balance), r);
      } else {
        RepAddTwiceMod(weights, h, Neg(h.balance), RepBlockOf(h.prev), BalanceOf(h.prev), r);
      }
    }
  }

  /** Balances and what is pending fit the amount type, because together they are the supply. */
  lemma BalancesFit(t: Tables, h: Word)
    requires Shape(t) && Supply(t) == MAX && Retractable(t, h)
    ensures BalanceOf(h) < LIMIT && BalanceOf(Prev(h)) < LIMIT
  {
    var a := AccountOf(h);
    assert AccountOk(t, a) && BlockOk(t, h) && PlacedOk(t, h);
    BalancesDel(t.accounts, a);
    if IsSend(h) {
      var k := Key(Destination(h), h);
      assert PendingOk(t, k);
      AmountsDel(t.pending, k);
      SendAmount(h);
    }
  }

  lemma ShapeNearby(t: Tables, h: Word)
    requires Shape(t) && Supply(t) == MAX && Retractable(t, h)
    ensures Nearby(t, h)
  {
    BalancesFit(t, h);
    assert BlockOk(t, h) && AccountOk(t, AccountOf(h));
    assert Prev(h) != Zero ==> BlockOk(t, Prev(h));
    assert IsSend(h) ==> PendingOk(t, Key(Destination(h), h));
    assert h in t.frontiers ==> FrontierOk(t, h);
    assert Zero in t.blocks ==> BlockOk(t, Zero);
  }

  /** What the visitor makes of the tables for the last block `h` of an account. */
  function Undo(t: Tables, h: Word): Tables
    requires IsBlock(h) && (h.Send? ==> Key(Destination(h), h) in t.pending)
  {
    match h
    case Send(_, _, _) => UndoSend(t, h)
    case Receive(_, _) => UndoReceive(t, h)
    case Open(_, _, _) => UndoOpen(t, h)
    case Change(_, _) => UndoChange(t, h)
    case State(_, _, _, _, _) => UndoStateTables(t.(weights := UndoStateWeights(t.weights, h)), h)
  }

  lemma StateUndone(t: Tables, h: Word)
    requires Nearby(t, h) && h.State?
    ensures Undone(t, Undo(t, h), h)
  {
    var moved := t.(weights := UndoStateWeights(t.weights, h));
    StateWeightsUndone(t.weights, h);
    StateTablesUndone(moved, h);
  }

  /** Each visitor gives the canonical ledger without the block. */
  lemma UndoIsUndone(t: Tables, h: Word)
    requires Nearby(t, h) && Small(t.weights)
    ensures Undone(t, Undo(t, h), h) && Small(Undo(t, h).weights)
  {
    match h
    case Send(_, _, _) => SendUndone(t, h);
    case Receive(_, _) => ReceiveUndone(t, h);
    case Open(_, _, _) => OpenUndone(t, h);
    case Change(_, _) => ChangeUndone(t, h);
    case State(_, _, _, _, _) => StateUndone(t, h);
  }
}
