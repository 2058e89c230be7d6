/**
What the codes of `rai::ledger::process` mean.  For each code there is a reason, said by the fields of the
block and what the ledger holds; of the reasons that hold, the one that comes first for the type of the block
is reported.
*/
module LedgerVerdicts {
  import opened Lattice
  import opened LedgerTables
  import opened LedgerSteps
  import opened LedgerHashes
  import opened LedgerProcess

  ghost predicate HasRival(t: Tables, b: Word) {
    exists r :: r in t.blocks && Rivals(r, b)
  }

  /** A state block of an open account that names a predecessor in some other account. */
  predicate Stray(t: Tables, b: Word) {
    b.State? && AccountOf(b) in t.accounts && b.prev in t.blocks && AccountOf(b.prev) != AccountOf(b)
  }

  /** The account an arriving block claims to belong to: the one it names, or that of its predecessor. */
  function Owner(b: Word): Word {
    if b.Open? || b.State? then Hash(b.account) else AccountOf(Prev(b))
  }

  /** A state block that leaves its account with less than it had. */
  predicate Spends(t: Tables, b: Word) {
    b.State? && Owner(b) in t.accounts && b.balance < t.accounts[Owner(b)].balance
  }

  /** `s` was sent to account `a` and nothing has collected it. */
  ghost predicate Awaits(t: Tables, a: Word, s: Word) {
    s in t.blocks && IsSend(s) && Destination(s) == a && !Collected(t, s)
  }

  /** What a state block that spends nothing must leave its account with. */
  function Due(b: Word): int
    requires b.State?
  {
    if b.link == Zero then BalanceOf(b.prev) else BalanceOf(b.prev) + BalanceOf(Prev(b.link)) - BalanceOf(b.link)
  }

  /** The codes that a block of this type can be refused with.  When several reasons hold, the earlier one is
      reported. */
  function Order(b: Word): seq<Code> {
    match b
    case Send(_, _, _) => [Old, GapPrevious, BlockPosition, Fork, BadSignature, NegativeSpend]
    case Receive(_, _) => [Old, GapPrevious, BlockPosition, GapSource, Fork, BadSignature, Unreceivable]
    case Open(_, _, _) => [Old, GapSource, BadSignature, Fork, Unreceivable, OpenedBurnAccount]
    case Change(_, _) => [Old, GapPrevious, BlockPosition, Fork, BadSignature]
    case State(_, _, _, _, _) =>
      [Old, BadSignature, OpenedBurnAccount, GapPrevious, Fork, GapSource, Unreceivable, BalanceMismatch]
    case _ => []
  }

  ghost predicate Reason(t: Tables, b: Word, signer: Word, code: Code) {
    match code
    case Progress => false
    case Old => HasHash(t.blocks, b)
    case BadSignature => signer != Owner(b)
    case OpenedBurnAccount => Owner(b) == Zero
    case NegativeSpend => b.Send? && BalanceOf(b.prev) < b.balance
    case BlockPosition => Prev(b).State?
    case Fork => HasRival(t, b) || Stray(t, b)
    case GapPrevious =>
      (match b
       case Open(_, _, _) => false
       case State(a, p, _, _, _) => p != Zero && (p !in t.blocks || Hash(a) !in t.accounts)
       case _ => Prev(b) !in t.blocks)
    case GapSource =>
      (match b
       case Receive(_, s) => s !in t.blocks
       case Open(s, _, _) => s !in t.blocks
       case State(_, p, _, _, l) => !Spends(t, b) && (if l == Zero then p == Zero else l !in t.blocks)
       case _ => false)
    case Unreceivable =>
      (match b
       case Receive(p, s) => !Awaits(t, AccountOf(p), s)
       case Open(s, _, a) => !Awaits(t, Hash(a), s)
       case State(a, _, _, _, l) => !Spends(t, b) && l != Zero && !Awaits(t, Hash(a), l)
       case _ => false)
    case BalanceMismatch => b.State? && !Spends(t, b) && b.balance != Due(b)
  }

  /** The first of the codes from position `i` on that holds; without any, progress. */
  function First(holds: Code -> bool, codes: seq<Code>, i: nat): Code
    requires i <= |codes|
    decreases |codes| - i
  {
    if i == |codes| then Progress else if holds(codes[i]) then codes[i] else First(holds, codes, i + 1)
  }

  /** The code is the first for which there is a reason. */
  ghost predicate Explained(t: Tables, b: Word, signer: Word, code: Code) {
    code == First(c => Reason(t, b, signer, c), Order(b), 0)
  }

  // ---------------------------------------------------------------- rivals

  /** Every block of a chain but the last has a successor in the ledger, and so has the place before the
      first one. */
  lemma {:induction false} Successor(t: Tables, h: Word, x: Word) returns (r: Word)
    requires Shape(t) && h in t.blocks && (x == Zero || (x != h && OnChain(x, h)))
    ensures r in t.blocks && AccountOf(r) == AccountOf(h) && Prev(r) == x
    decreases Size(h)
  {
    assert BlockOk(t, h) && PlacedOk(t, h);
    if Prev(h) == x {
      r := h;
    } else {
      assert !OnChain(x, Zero) || x == Zero;
      r := Successor(t, Prev(h), x);
    }
  }

  /** A legacy block of the ledger without a frontier has been followed. */
  lemma FollowedLegacy(t: Tables, b: Word)
    requires Shape(t) && Legacy(b) && !b.Open? && b !in t.blocks && b.prev in t.blocks && Legacy(b.prev)
    requires FrontierGet(t, b.prev) == Zero
    ensures HasRival(t, b)
  {
    assert BlockOk(t, b.prev) && PlacedOk(t, b.prev);
    var h := t.accounts[AccountOf(b.prev)].head;
    assert AccountOk(t, AccountOf(b.prev));
    assert b.prev in t.frontiers ==> FrontierOk(t, b.prev);
    ShapeAround(t, b);
    var r := Successor(t, h, b.prev);
    assert Rivals(r, b);
  }

  lemma OpenedBefore(t: Tables, b: Word)
    requires Shape(t) && b !in t.blocks && Prev(b) == Zero && AccountOf(b) in t.accounts
    ensures HasRival(t, b)
  {
    assert AccountOk(t, AccountOf(b));
    var r := Successor(t, t.accounts[AccountOf(b)].head, Zero);
    assert Rivals(r, b);
  }

  lemma FollowedState(t: Tables, b: Word)
    requires Shape(t) && b.State? && b !in t.blocks && AccountOf(b) in t.accounts
    requires b.prev in t.blocks && b.prev != t.accounts[AccountOf(b)].head
    ensures HasRival(t, b) || Stray(t, b)
  {
    if AccountOf(b.prev) == AccountOf(b) {
      assert BlockOk(t, b.prev) && PlacedOk(t, b.prev);
      assert AccountOk(t, AccountOf(b));
      var r := Successor(t, t.accounts[AccountOf(b)].head, b.prev);
      assert Rivals(r, b);
    }
  }

  /** A block that follows the last of its account, or opens one, has no rival. */
  lemma NoRivalAtEnd(t: Tables, b: Word)
    requires Shape(t) && (AccountOf(b) in t.accounts ==> Prev(b) == t.accounts[AccountOf(b)].head)
    ensures !HasRival(t, b)
  {
    if r :| r in t.blocks && Rivals(r, b) {
      assert BlockOk(t, r) && PlacedOk(t, r);
      assert AccountOk(t, AccountOf(b)) && BlockOk(t, Prev(b));
      BeforeLast(t, Prev(b), r);
    }
  }

  // ---------------------------------------------------------------- what can be received

  /** What is pending for an account was sent to it and has not been collected, and the other way round. */
  lemma PendingIff(t: Tables, a: Word, s: Word)
    requires Shape(t)
    ensures Key(a, s) in t.pending <==> Awaits(t, a, s)
    ensures Key(a, s) in t.pending ==> t.pending[Key(a, s)].amount == BalanceOf(Prev(s)) - BalanceOf(s)
  {
    if Key(a, s) in t.pending {
      PendingNotCollected(t, Key(a, s));
      assert PendingOk(t, Key(a, s));
      assert BlockOk(t, s) && PlacedOk(t, s);
    } else if s in t.blocks {
      assert BlockOk(t, s) && SendOk(t, s);
    }
  }

  // ---------------------------------------------------------------- type by type

  lemma FirstOfEight(holds: Code -> bool, c: seq<Code>)
    requires 5 <= |c| <= 8
    ensures First(holds, c, 0)
         == if holds(c[0]) then c[0] else if holds(c[1]) then c[1] else if holds(c[2]) then c[2]
            else if holds(c[3]) then c[3] else if holds(c[4]) then c[4] else if |c| == 5 then Progress
            else if holds(c[5]) then c[5] else if |c| == 6 then Progress
            else if holds(c[6]) then c[6] else if |c| == 7 then Progress
            else if holds(c[7]) then c[7] else Progress
  {
    assert |c| == 8 ==> First(holds, c, 7) == if holds(c[7]) then c[7] else Progress;
    assert |c| >= 7 ==> First(holds, c, 6) == if holds(c[6]) then c[6] else First(holds, c, 7);
    assert |c| >= 6 ==> First(holds, c, 5) == if holds(c[5]) then c[5] else First(holds, c, 6);
    assert First(holds, c, 4) == if holds(c[4]) then c[4] else First(holds, c, 5);
    assert First(holds, c, 3) == if holds(c[3]) then c[3] else First(holds, c, 4);
    assert First(holds, c, 2) == if holds(c[2]) then c[2] else First(holds, c, 3);
    assert First(holds, c, 1) == if holds(c[1]) then c[1] else First(holds, c, 2);
  }

  /** What the frontier of its predecessor says about a block of an older type that follows another. */
  ghost predicate PlaceKnown(t: Tables, b: Word) {
    var p := Prev(b);
    && (p in t.blocks ==> IsBlock(p))
    && (!HasHash(t.blocks, b) && p in t.blocks && Legacy(p) ==>
          if HasRival(t, b) then FrontierGet(t, p) == Zero
          else FrontierGet(t, p) == AccountOf(p) != Zero && InfoGet(t, AccountOf(p)) == InfoFor(p))
  }

  lemma LegacyPlace(t: Tables, b: Word)
    requires Shape(t) && Legacy(b) && !b.Open?
    ensures PlaceKnown(t, b)
  {
    ShapeAround(t, b);
    assert b.prev in t.blocks ==> BlockOk(t, b.prev) && PlacedOk(t, b.prev);
    if !HasHash(t.blocks, b) && b.prev in t.blocks && Legacy(b.prev) {
      assert b in t.blocks ==> SameHash(b, b);
      if FrontierGet(t, b.prev) == Zero {
        FollowedLegacy(t, b);
      } else {
        NoRivalAtEnd(t, b);
      }
    }
  }

  lemma SendExplained(t: Tables, b: Word, signer: Word)
    requires b.Send? && PlaceKnown(t, b)
    ensures Explained(t, b, signer, JudgeSend(t, b, signer))
  {
    FirstOfEight(c => Reason(t, b, signer, c), Order(b));
  }

  lemma ReceiveExplained(t: Tables, b: Word, signer: Word)
    requires b.Receive? && PlaceKnown(t, b)
    requires Key(AccountOf(b.prev), b.source) in t.pending <==> Awaits(t, AccountOf(b.prev), b.source)
    ensures Explained(t, b, signer, JudgeReceive(t, b, signer))
  {
    FirstOfEight(c => Reason(t, b, signer, c), Order(b));
  }

  lemma ChangeExplained(t: Tables, b: Word, signer: Word)
    requires b.Change? && PlaceKnown(t, b)
    ensures Explained(t, b, signer, JudgeChange(t, b, signer))
  {
    FirstOfEight(c => Reason(t, b, signer, c), Order(b));
  }

  lemma OpenExplained(t: Tables, b: Word, signer: Word)
    requires b.Open? && (!HasHash(t.blocks, b) ==> (AccountOf(b) in t.accounts <==> HasRival(t, b)))
    requires Key(AccountOf(b), b.source) in t.pending <==> Awaits(t, AccountOf(b), b.source)
    ensures Explained(t, b, signer, JudgeOpen(t, b, signer))
  {
    FirstOfEight(c => Reason(t, b, signer, c), Order(b));
  }

  /** What the account table says about a state block. */
  ghost predicate StateKnown(t: Tables, b: Word)
    requires b.State?
  {
    var a := AccountOf(b);
    && (Zero !in t.accounts)
    && (a in t.accounts && !HasHash(t.blocks, b) ==>
          (HasRival(t, b) || Stray(t, b) <==> b.prev == Zero || (b.prev in t.blocks && b.prev != t.accounts[a].head)))
    && (a in t.accounts ==> t.accounts[a] == InfoFor(t.accounts[a].head) && t.accounts[a].head != Zero)
    && (a !in t.accounts ==> !HasRival(t, b))
    && (Key(a, b.link) in t.pending <==> Awaits(t, a, b.link))
    && (Key(a, b.link) in t.pending ==> t.pending[Key(a, b.link)].amount == BalanceOf(Prev(b.link)) - BalanceOf(b.link))
  }

  lemma StateExplained(t: Tables, b: Word, signer: Word)
    requires b.State? && StateKnown(t, b)
    ensures Explained(t, b, signer, JudgeState(t, b, signer))
  {
    FirstOfEight(c => Reason(t, b, signer, c), Order(b));
  }

  lemma OpenKnown(t: Tables, b: Word)
    requires Shape(t) && b.Open? && !HasHash(t.blocks, b)
    ensures AccountOf(b) in t.accounts <==> HasRival(t, b)
  {
    assert b in t.blocks ==> SameHash(b, b);
    if AccountOf(b) in t.accounts {
      OpenedBefore(t, b);
    } else {
      NoRivalAtEnd(t, b);
    }
  }

  lemma StateRivals(t: Tables, b: Word)
    requires Shape(t) && b.State? && AccountOf(b) in t.accounts && !HasHash(t.blocks, b)
    ensures HasRival(t, b) || Stray(t, b)
       <==> b.prev == Zero || (b.prev in t.blocks && b.prev != t.accounts[AccountOf(b)].head)
  {
    assert AccountOk(t, AccountOf(b)) && BlockOk(t, t.accounts[AccountOf(b)].head);
    assert b in t.blocks ==> SameHash(b, b);
    if b.prev == Zero {
      OpenedBefore(t, b);
    } else if b.prev == t.accounts[AccountOf(b)].head {
      NoRivalAtEnd(t, b);
    } else if b.prev in t.blocks {
      FollowedState(t, b);
    }
    forall r | r in t.blocks && Rivals(r, b)
      ensures b.prev == Zero || b.prev in t.blocks
    {
      assert BlockOk(t, r) && PlacedOk(t, r);
    }
  }

  lemma StateIsKnown(t: Tables, b: Word)
    requires Shape(t) && b.State?
    ensures StateKnown(t, b)
  {
    var a := AccountOf(b);
    ShapeAround(t, b);
    PendingIff(t, a, b.link);
    if a !in t.accounts {
      NoRivalAtEnd(t, b);
    } else {
      assert AccountOk(t, a) && BlockOk(t, t.accounts[a].head);
      if !HasHash(t.blocks, b) {
        StateRivals(t, b);
      }
    }
  }

  /** The verdict is the first of the codes for which there is a reason. */
  lemma VerdictExplained(t: Tables, b: Word, signer: Word)
    requires Shape(t) && IsBlock(b)
    ensures Explained(t, b, signer, Judge(t, b, signer))
    ensures Judge(t, b, signer) == Old <==> HasHash(t.blocks, b)
  {
    match b
    case Send(_, _, _) =>
      LegacyPlace(t, b);
      SendExplained(t, b, signer);
    case Change(_, _) =>
      LegacyPlace(t, b);
      ChangeExplained(t, b, signer);
    case Receive(p, s) =>
      LegacyPlace(t, b);
      PendingIff(t, AccountOf(p), s);
      ReceiveExplained(t, b, signer);
    case Open(s, _, _) =>
      PendingIff(t, AccountOf(b), s);
      if !HasHash(t.blocks, b) {
        OpenKnown(t, b);
      }
      OpenExplained(t, b, signer);
    case State(_, _, _, _, _) =>
      StateIsKnown(t, b);
      StateExplained(t, b, signer);
  }

  // ---------------------------------------------------------------- code by code

  /** `c` holds and nothing before it does. */
  predicate IsFirst(holds: Code -> bool, codes: seq<Code>, c: Code) {
    exists i :: 0 <= i < |codes| && codes[i] == c && holds(c) && forall j :: 0 <= j < i ==> !holds(codes[j])
  }

  lemma {:induction false} FirstFound(holds: Code -> bool, codes: seq<Code>, i: nat)
    requires i <= |codes| && forall j :: 0 <= j < i ==> !holds(codes[j])
    ensures var c := First(holds, codes, i);
            if c == Progress then Progress in codes || forall d :: d in codes ==> !holds(d)
            else IsFirst(holds, codes, c)
    decreases |codes| - i
  {
    if i < |codes| && !holds(codes[i]) {
      FirstFound(holds, codes, i + 1);
    }
  }

  lemma FirstIff(holds: Code -> bool, codes: seq<Code>, c: Code)
    requires Progress !in codes
    ensures First(holds, codes, 0) == c
       <==> if c == Progress then forall d :: d in codes ==> !holds(d) else IsFirst(holds, codes, c)
  {
    FirstFound(holds, codes, 0);
  }

  /** For every code, exactly when it is reported.  A block makes progress if and only if there is no reason
      against it; and it is refused with a code if and only if that is one for its type, the reason for it
      holds, and none that comes before it does. */
  lemma VerdictIff(t: Tables, b: Word, signer: Word, code: Code)
    requires Shape(t) && IsBlock(b)
    ensures Judge(t, b, signer) == code
       <==> if code == Progress then forall c :: c in Order(b) ==> !Reason(t, b, signer, c)
            else IsFirst(c => Reason(t, b, signer, c), Order(b), code)
  {
    VerdictExplained(t, b, signer);
    FirstIff(c => Reason(t, b, signer, c), Order(b), code);
  }
}
