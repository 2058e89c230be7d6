/**
What becomes of a refused block.  The node files a block with a gap under a hash, and tries it again when a
block with that hash arrives (rai/node/node.cpp); blocks refused for other reasons are dropped.  This loses
nothing: as long as a ledger only grows, it never takes a block it has refused, except one with a gap, and
then only after the hash it was filed under has arrived.
*/
module LedgerRetries {
  import opened Lattice
  import opened LedgerTables
  import opened LedgerSteps
  import opened LedgerHashes
  import opened LedgerProcess
  import opened LedgerVerdicts

  /** `ledger::block_source`: what a block collects, by its fields. */
  function BlockSource(b: Word): Word {
    match b
    case Receive(_, s) => s
    case Open(s, _, _) => s
    case State(_, _, _, _, l) => if IsSend(b) then Zero else l
    case _ => Zero
  }

  /** The hash that a refused block is filed under. */
  function FiledUnder(b: Word, code: Code): Word {
    match code
    case GapPrevious => Prev(b)
    case GapSource => BlockSource(b)
    case _ => Zero
  }

  // ---------------------------------------------------------------- reason by reason

  /** What a block that extends a ledger refers to. */
  predicate Refers(u: Tables, b: Word) {
    && (Prev(b) == Zero ==> b.Open? || b.State?)
    && (Prev(b) != Zero ==> Prev(b) in u.blocks && AccountOf(Prev(b)) == AccountOf(b))
    && (Source(b) != Zero ==> Source(b) in u.blocks) && Source(b) != GENESIS_ACCOUNT
    && (Prev(b) == Zero ==> Source(b) != Zero) && (b.Receive? ==> Source(b) != Zero)
  }

  lemma ExtendsRefers(u: Tables, b: Word)
    requires Shape(u) && Extendable(u, b)
    ensures Refers(u, b) && Owner(b) == AccountOf(b)
  {
    var a := AccountOf(b);
    ShapeAround(u, b);
    assert Prev(b) != Zero ==> AccountOk(u, a);
    assert Source(b) != Zero ==> PendingOk(u, Key(a, Source(b)));
  }

  /** A state block whose place is free spends if its own balance is below that of its predecessor. */
  lemma SpendsIffSend(t: Tables, b: Word, signer: Word)
    requires Shape(t) && b.State? && !Reason(t, b, signer, Old)
    requires !Reason(t, b, signer, GapPrevious) && !Reason(t, b, signer, Fork)
    ensures Spends(t, b) <==> IsSend(b)
  {
    StateIsKnown(t, b);
  }

  lemma NoForkLater(t: Tables, u: Tables, b: Word)
    requires Shape(t) && Shape(u) && Extendable(u, b)
    ensures HasRival(t, b) ==> !(t.blocks <= u.blocks)
    ensures !Stray(t, b)
  {
    ShapeAround(t, b);
    ExtendsRefers(u, b);
    NoRivalAtEnd(u, b);
  }

  /** A stored predecessor belongs to an open account. */
  lemma PrevIsOpen(t: Tables, b: Word)
    requires Shape(t) && Prev(b) in t.blocks
    ensures AccountOf(Prev(b)) in t.accounts
  {
    assert BlockOk(t, Prev(b)) && PlacedOk(t, Prev(b));
  }

  /** Which reasons come before which. */
  lemma Precedence(t: Tables, b: Word, signer: Word, code: Code)
    requires IsFirst(c => Reason(t, b, signer, c), Order(b), code)
    ensures Reason(t, b, signer, code)
    ensures code == Unreceivable ==> !Reason(t, b, signer, GapSource)
    ensures b.State? && (code == GapSource || code == Unreceivable || code == BalanceMismatch) ==>
              !Reason(t, b, signer, Old) && !Reason(t, b, signer, GapPrevious) && !Reason(t, b, signer, Fork)
  {
    assert b.Receive? ==> Order(b)[3] == GapSource;
    assert b.Open? ==> Order(b)[1] == GapSource;
    assert b.State? ==> Order(b)[0] == Old && Order(b)[3] == GapPrevious && Order(b)[4] == Fork
                        && Order(b)[5] == GapSource;
  }

  /** The reason for a gap, if another ledger takes the block: what it was filed under is missing here and
      present there. */
  lemma GapIsFiled(t: Tables, u: Tables, b: Word, signer: Word, code: Code)
    requires Shape(t) && Shape(u) && Extendable(u, b) && (code == GapPrevious || code == GapSource)
    requires IsFirst(c => Reason(t, b, signer, c), Order(b), code)
    ensures FiledUnder(b, code) in u.blocks && FiledUnder(b, code) !in t.blocks
  {
    ExtendsRefers(u, b);
    Precedence(t, b, signer, code);
    if code == GapPrevious {
      if Prev(b) in t.blocks {
        PrevIsOpen(t, b);
      }
    } else if b.State? {
      SpendsIffSend(t, b, signer);
    }
  }

  lemma NotUnreceivable(t: Tables, u: Tables, b: Word, signer: Word)
    requires Shape(t) && Shape(u) && t.blocks <= u.blocks && Extendable(u, b)
    requires b.State? ==> (Spends(t, b) <==> IsSend(b))
    ensures Reason(t, b, signer, Unreceivable) ==> Reason(t, b, signer, GapSource)
  {
    ExtendsRefers(u, b);
    PendingIff(u, AccountOf(b), BlockSource(b));
    assert Collected(t, BlockSource(b)) ==> Collected(u, BlockSource(b));
  }

  /** No valid ledger takes what was refused for one of these reasons. */
  predicate Hopeless(code: Code) {
    code == BadSignature || code == OpenedBurnAccount || code == NegativeSpend || code == BlockPosition
    || code == BalanceMismatch
  }

  lemma NoHopelessReason(t: Tables, u: Tables, b: Word, signer: Word, code: Code)
    requires Shape(u) && Hopeless(code) && code in Order(b) && signer == AccountOf(b) && Extendable(u, b)
    requires code == BalanceMismatch ==> (Spends(t, b) <==> IsSend(b))
    ensures !Reason(t, b, signer, code)
  {
    ExtendsRefers(u, b);
    if b.State? {
      PendingIff(u, AccountOf(b), b.link);
    }
  }

  /** A block refused by one ledger and taken by another that holds at least as much was refused with a gap. */
  lemma OnlyGapsClose(t: Tables, u: Tables, b: Word, signer: Word)
    requires Shape(t) && Shape(u) && IsBlock(b) && Judge(t, b, signer) != Progress && Judge(u, b, signer) == Progress
    ensures !Hopeless(Judge(t, b, signer))
    ensures t.blocks <= u.blocks ==> Judge(t, b, signer) == GapPrevious || Judge(t, b, signer) == GapSource
  {
    var code := Judge(t, b, signer);
    AcceptedIffExtends(u, b, signer);
    ExtendsIsNew(u, b);
    VerdictIff(t, b, signer, code);
    Precedence(t, b, signer, code);
    NoForkLater(t, u, b);
    if b.State? && (code == Unreceivable || code == BalanceMismatch) {
      SpendsIffSend(t, b, signer);
    }
    if t.blocks <= u.blocks && code == Unreceivable {
      NotUnreceivable(t, u, b, signer);
    }
    if Hopeless(code) {
      NoHopelessReason(t, u, b, signer, code);
    }
  }

  // ---------------------------------------------------------------- read again later

  /** How two ledgers, the second of which holds all blocks of the first, read one reference. */
  predicate SameReference(t: Tables, x: Word, y: Word) {
    SameHash(x, y) && (x == y || (x !in t.blocks && y !in t.blocks)) && (x == Zero <==> y == Zero)
  }

  lemma ReferenceLater(t: Tables, u: Tables, w: Word, x: Word, y: Word)
    requires Shape(u) && t.blocks <= u.blocks && RefersTo(t.blocks, w, x) && RefersTo(u.blocks, w, y)
    ensures SameReference(t, x, y)
  {
    HashOfParts(x);
    HashOfParts(y);
    if z :| z in t.blocks && SameHash(z, w) {
      HashNamesOneBlock(u, x, y);
    } else {
      assert y in t.blocks ==> SameHash(y, w);
    }
  }

  /** The two readings of a block. */
  predicate SameReading(t: Tables, b: Word, c: Word) {
    match b
    case Send(p, d, n) => c.Send? && SameReference(t, p, c.prev) && c.destination == d && c.balance == n
    case Receive(p, s) => c.Receive? && SameReference(t, p, c.prev) && SameReference(t, s, c.source)
    case Open(s, r, a) => c.Open? && SameReference(t, s, c.source) && c.representative == r && c.account == a
    case Change(p, r) => c.Change? && SameReference(t, p, c.prev) && c.representative == r
    case State(a, p, r, n, l) =>
      && c.State? && SameReference(t, p, c.prev) && c.account == a && c.representative == r && c.balance == n
      && (p == c.prev ==> SameReference(t, l, c.link))
    case _ => c == b
  }

  lemma ReadLater(t: Tables, u: Tables, raw: Word, b: Word, c: Word)
    requires Shape(u) && t.blocks <= u.blocks && ReadAs(t.blocks, raw, b) && ReadAs(u.blocks, raw, c)
    ensures SameReading(t, b, c) && SameHash(b, c)
  {
    ReadKeepsHash(t.blocks, raw, b);
    ReadKeepsHash(u.blocks, raw, c);
    match raw
    case Send(p, _, _) => ReferenceLater(t, u, p, b.prev, c.prev);
    case Receive(p, s) =>
      ReferenceLater(t, u, p, b.prev, c.prev);
      ReferenceLater(t, u, s, b.source, c.source);
    case Open(s, _, _) => ReferenceLater(t, u, s, b.source, c.source);
    case Change(p, _) => ReferenceLater(t, u, p, b.prev, c.prev);
    case State(_, p, _, _, l) =>
      ReferenceLater(t, u, p, b.prev, c.prev);
      if b.prev == c.prev && !IsSend(b) {
        ReferenceLater(t, u, l, b.link, c.link);
      }
    case _ =>
  }

  /** Both readings get the same verdict: they differ only in what is missing. */
  lemma SameVerdict(t: Tables, b: Word, c: Word, signer: Word)
    requires IsBlock(b) && SameReading(t, b, c) && SameHash(b, c)
    ensures IsBlock(c) && Judge(t, b, signer) == Judge(t, c, signer)
  {
    assert HasHash(t.blocks, b) == HasHash(t.blocks, c);
  }

  lemma FiledAlike(t: Tables, b: Word, c: Word, signer: Word, code: Code)
    requires IsBlock(b) && SameReading(t, b, c) && IsFirst(d => Reason(t, b, signer, d), Order(b), code)
    ensures SameHash(FiledUnder(b, code), FiledUnder(c, code))
  {
    Precedence(t, b, signer, code);
  }

  lemma MissingByHash(t: Tables, u: Tables, x: Word, y: Word)
    requires Shape(u) && t.blocks <= u.blocks && SameHash(x, y) && y in u.blocks && y !in t.blocks
    ensures HasHash(u.blocks, x) && !HasHash(t.blocks, x)
  {
    if z :| z in t.blocks && SameHash(z, x) {
      HashNamesOneBlock(u, z, y);
    }
  }

  /** Nothing is lost by filing.  If a block that was refused is taken after the ledger has grown, it was refused
      with a gap, and the hash it was filed under was not stored then and is stored now. */
  lemma FiledUnderWhatIsMissing(t: Tables, u: Tables, raw: Word, b: Word, c: Word, signer: Word)
    requires Shape(t) && Shape(u) && t.blocks <= u.blocks
    requires ReadAs(t.blocks, raw, b) && ReadAs(u.blocks, raw, c) && IsBlock(b) && IsBlock(c)
    requires Judge(t, b, signer) != Progress && Judge(u, c, signer) == Progress
    ensures var code := Judge(t, b, signer);
            && (code == GapPrevious || code == GapSource)
            && !HasHash(t.blocks, FiledUnder(b, code)) && HasHash(u.blocks, FiledUnder(b, code))
  {
    var code := Judge(t, b, signer);
    ReadLater(t, u, raw, b, c);
    SameVerdict(t, b, c, signer);
    OnlyGapsClose(t, u, c, signer);
    VerdictIff(t, b, signer, code);
    VerdictIff(t, c, signer, code);
    AcceptedIffExtends(u, c, signer);
    GapIsFiled(t, u, c, signer, code);
    FiledAlike(t, b, c, signer, code);
    MissingByHash(t, u, FiledUnder(b, code), FiledUnder(c, code));
  }
}
