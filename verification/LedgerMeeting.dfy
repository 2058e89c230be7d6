/**
Ledgers that went different ways meet again: if no block of one is the rival of a block of the other, each can
take what it is missing, and both end with the same ledger.
*/
module LedgerMeeting {
  import opened Lattice
  import opened LedgerTables
  import opened LedgerSteps
  import opened LedgerHashes
  import opened LedgerProcess
  import opened LedgerVerdicts
  import opened LedgerObject
  import opened LedgerForks
  import opened LedgerHistory

  ghost predicate NoRivals(t: Tables, u: Tables) {
    forall x, y :: x in t.blocks && y in u.blocks ==> !Rivals(x, y)
  }

  lemma NoRival(t: Tables, u: Tables, x: Word, y: Word)
    requires NoRivals(t, u) && x in t.blocks && y in u.blocks
    ensures !Rivals(x, y)
  {
  }

  // ---------------------------------------------------------------- what is missing

  /** If the predecessor of a missing block is here, it is the last of its account. */
  lemma PlaceIsFree(t: Tables, u: Tables, y: Word)
    requires Shape(t) && NoRivals(t, u) && y in u.blocks && y !in t.blocks && IsBlock(y)
    requires Prev(y) != Zero ==> Prev(y) in t.blocks && AccountOf(Prev(y)) == AccountOf(y)
    ensures Prev(y) == Zero ==> AccountOf(y) !in t.accounts
    ensures Prev(y) != Zero ==> AccountOf(y) in t.accounts && t.accounts[AccountOf(y)].head == Prev(y)
  {
    var a := AccountOf(y);
    assert Prev(y) in t.blocks ==> BlockOk(t, Prev(y)) && PlacedOk(t, Prev(y));
    if a in t.accounts {
      var h := t.accounts[a].head;
      assert AccountOk(t, a) && BlockOk(t, h);
      if h != Prev(y) {
        var r := Successor(t, h, Prev(y));
        NoRival(t, u, r, y);
      }
    }
  }

  /** What a missing block collects there is pending here, if it is here at all. */
  lemma SourceIsFree(t: Tables, u: Tables, y: Word)
    requires Shape(t) && Shape(u) && y in u.blocks && y !in t.blocks && Source(y) != Zero && Source(y) in t.blocks
    requires Prev(y) == Zero ==> AccountOf(y) !in t.accounts
    requires Prev(y) != Zero ==>
               Prev(y) in u.blocks && AccountOf(y) in t.accounts && t.accounts[AccountOf(y)].head == Prev(y)
    ensures Key(AccountOf(y), Source(y)) in t.pending
  {
    var s := Source(y);
    assert BlockOk(u, y) && SourceOk(u, y);
    assert BlockOk(t, s) && SendOk(t, s);
    if r :| r in t.blocks && Source(r) == s {
      assert BlockOk(t, r) && PlacedOk(t, r) && SourceOk(t, r);
      ChainDepends(r, Prev(y));
      ClosedUnderDependence(u, Prev(y), r);
    }
  }

  /** The smallest missing block extends the ledger. */
  lemma SmallestExtends(t: Tables, u: Tables, y: Word)
    requires Shape(t) && Shape(u) && NoRivals(t, u) && GENESIS in t.blocks && y in u.blocks && y !in t.blocks
    requires forall x :: x in u.blocks && Size(x) < Size(y) ==> x in t.blocks
    ensures Extendable(t, y)
  {
    assert BlockOk(u, y) && PlacedOk(u, y) && SourceOk(u, y);
    if Prev(y) != Zero {
      FollowerDepends(y);
    }
    PlaceIsFree(t, u, y);
    if Source(y) != Zero {
      CollectorDepends(y);
      DependsSize(y, Source(y));
      SourceIsFree(t, u, y);
    }
  }

  lemma {:induction false} Smallest(d: set<Word>) returns (x: Word)
    requires d != {}
    ensures x in d && forall y :: y in d ==> Size(x) <= Size(y)
    decreases d
  {
    x :| x in d;
    if d != {x} {
      var y := Smallest(d - {x});
      if Size(y) < Size(x) {
        x := y;
      }
    }
  }

  // ---------------------------------------------------------------- it arrives

  lemma StillNoRivals(t: Tables, t': Tables, u: Tables, y: Word)
    requires Shape(u) && NoRivals(t, u) && y in u.blocks && t'.blocks == t.blocks + {y}
    ensures NoRivals(t', u)
  {
    forall x, z | x in t'.blocks && z in u.blocks
      ensures !Rivals(x, z)
    {
      NoForkInside(u, y, z);
    }
  }

  lemma OneLessMissing(here: set<Word>, there: set<Word>, y: Word)
    requires y in there
    ensures there - (here + {y}) == there - here - {y} && here + {y} + there == here + there
  {
  }

  lemma NothingMissing(here: set<Word>, there: set<Word>)
    requires there - here == {}
    ensures here + there == here
  {
    assert forall x :: x in there ==> x !in there - here;
  }

  /** The smallest missing block arrives. */
  lemma NextArrives(t: Tables, u: Tables, missing: set<Word>) returns (y: Word, t': Tables)
    requires Sound(t) && Sound(u) && NoRivals(t, u) && missing == u.blocks - t.blocks && missing != {}
    ensures y in missing && Leads(t, [Arrives(y, AccountOf(y))], t') && Sound(t') && NoRivals(t', u)
    ensures u.blocks - t'.blocks == missing - {y} && t'.blocks + u.blocks == t.blocks + u.blocks
  {
    y := Smallest(missing);
    SmallestExtends(t, u, y);
    t' := OneArrives(t, y);
    StillNoRivals(t, t', u, y);
    OneLessMissing(t.blocks, u.blocks, y);
  }

  /** A ledger takes what another has and it has not. */
  lemma {:induction false} CatchesUp(t: Tables, u: Tables, missing: set<Word>) returns (events: seq<Event>, w: Tables)
    requires Sound(t) && Sound(u) && NoRivals(t, u) && missing == u.blocks - t.blocks
    ensures Leads(t, events, w) && Inv(w) && w.blocks == t.blocks + u.blocks
    decreases missing
  {
    if missing == {} {
      events, w := [], t;
      NothingMissing(t.blocks, u.blocks);
    } else {
      var y, t' := NextArrives(t, u, missing);
      var rest;
      rest, w := CatchesUp(t', u, missing - {y});
      LeadsOn(t, [Arrives(y, AccountOf(y))], rest, t', w);
      events := [Arrives(y, AccountOf(y))] + rest;
    }
  }

  // ---------------------------------------------------------------- and they meet

  lemma HistoryGoesOn(events: seq<Event>, events': seq<Event>, t: Tables, u: Tables)
    returns (more: seq<Event>, w: Tables)
    requires Reaches(events, t) && Reaches(events', u) && NoRivals(t, u)
    ensures Reaches(events + more, w) && Inv(w) && w.blocks == t.blocks + u.blocks
  {
    HistoryKeepsInv(events, t);
    HistoryKeepsInv(events', u);
    more, w := CatchesUp(t, u, u.blocks - t.blocks);
    LeadsOn(GenesisTables(), events, more, t, w);
  }

  lemma SameUnion(t: Tables, u: Tables, w: Tables, w': Tables)
    requires Inv(w) && Inv(w') && w.blocks == t.blocks + u.blocks && w'.blocks == u.blocks + t.blocks
    ensures SameLedger(w, w')
  {
    assert t.blocks + u.blocks == u.blocks + t.blocks;
    SameBlocksSameLedger(w, w');
  }

  /** Two histories without rivals across them can both go on to the ledger that holds the blocks of both. */
  lemma HistoriesMeet(events: seq<Event>, events': seq<Event>, t: Tables, u: Tables)
    returns (more: seq<Event>, more': seq<Event>, w: Tables, w': Tables)
    requires Reaches(events, t) && Reaches(events', u) && NoRivals(t, u)
    ensures Reaches(events + more, w) && Reaches(events' + more', w')
    ensures w.blocks == t.blocks + u.blocks && SameLedger(w, w')
  {
    more, w := HistoryGoesOn(events, events', t, u);
    more', w' := HistoryGoesOn(events', events, u, t);
    SameUnion(t, u, w, w');
  }

  /** Some history leads to a ledger with the blocks of both. */
  ghost predicate Compatible(t: Tables, u: Tables) {
    exists events, w :: Reaches(events, w) && t.blocks + u.blocks <= w.blocks
  }

  /** Only rivals keep two ledgers apart: some ledger holds the blocks of both if and only if no block of the
      one is a rival of a block of the other. */
  lemma OnlyRivalsDivide(events: seq<Event>, events': seq<Event>, t: Tables, u: Tables)
    requires Reaches(events, t) && Reaches(events', u)
    ensures Compatible(t, u) <==> NoRivals(t, u)
  {
    if NoRivals(t, u) {
      var more, more', w, w' := HistoriesMeet(events, events', t, u);
    }
    if more, w :| Reaches(more, w) && t.blocks + u.blocks <= w.blocks {
      HistoryKeepsInv(more, w);
      forall x, y | x in t.blocks && y in u.blocks
        ensures !Rivals(x, y)
      {
        NoForkInside(w, x, y);
      }
    }
  }
}
