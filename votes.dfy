/** Players joining and leaving, and the unanimous vote that adds three cards
    to the board. */
module VoteProofs {
  import opened Seqs
  import opened Cards
  import opened Grid
  import opened Game
  import opened ReplaceProofs
  import opened TurnProofs

  /** With a deck whose size is a multiple of three, `addCards` throws only on
      an empty deck, and then before it has changed anything. */
  lemma AddCardsThrowsOnlyWhenEmpty(s: BoardState)
    requires Valid(s)
    ensures AddCardsThrows(s) <==> |s.deck| == 0
    ensures AddCardsThrows(s) ==> AddCards(s) == s
  {
    if |s.deck| != 0 {
      NonEmptyDeck(s);
    }
  }

  /** Adding a column moves three cards from the deck to the grid and nothing
      else: the cards in play are the same. */
  lemma AddCardsKeepsCards(s: BoardState)
    requires Valid(s) && !AddCardsThrows(s)
    ensures InPlay(AddCards(s)) == InPlay(s)
  {
    var r := AddCards(s);
    FlattenAddColumn(s.grid, s.deck[..Rows]);
    assert s.deck == s.deck[..Rows] + s.deck[Rows..];
    calc {
      InPlay(r);
      multiset(Flatten(r.grid)) + multiset(r.deck);
      multiset(Flatten(s.grid)) + multiset(s.deck[..Rows]) + multiset(s.deck[Rows..]);
      InPlay(s);
    }
  }

  /** `addCards` keeps the invariant: every row gains one card, so the grid
      stays rectangular, and no card is duplicated. */
  lemma AddCardsKeepsValid(s: BoardState)
    requires Valid(s)
    ensures Valid(AddCards(s))
  {
    AddCardsThrowsOnlyWhenEmpty(s);
    if !AddCardsThrows(s) {
      var r := AddCards(s);
      AddCardsKeepsCards(s);
      DistinctSmaller(Flatten(r.grid) + r.deck, Flatten(s.grid) + s.deck);
      assert |r.grid[0]| == |s.grid[0]| + 1;
    }
  }

  /** `checkVotes` keeps the invariant. */
  lemma CheckVotesKeepsValid(s: BoardState, newDeck: seq<Card>)
    requires Valid(s) && IsShuffledDeck(s.columns, newDeck)
    ensures Valid(CheckVotes(s, newDeck))
  {
    AddCardsKeepsValid(s);
    var s1 := AddCards(s).(votes := {});
    if |s.votes| == |s.scores.Keys| && !AddCardsThrows(s) && Exhausted(s1) {
      FreshDeckSize(s.columns, newDeck);
      ResetKeepsValid(s1, newDeck);
    }
  }

  /** Short of unanimity, or on an empty deck, `checkVotes` changes
      nothing. */
  lemma CheckVotesWaits(s: BoardState, newDeck: seq<Card>)
    requires Valid(s) && IsShuffledDeck(s.columns, newDeck)
    requires |s.votes| != |s.scores.Keys| || |s.deck| == 0
    ensures CheckVotes(s, newDeck) == s
  {
    AddCardsThrowsOnlyWhenEmpty(s);
  }

  /** When every player has voted and the deck is not empty, each row gains
      the next deck card in order, the deck loses its first three cards and
      the votes are cleared -- unless that exhausts the game, which restarts
      it. */
  lemma CheckVotesAddsColumn(s: BoardState, newDeck: seq<Card>)
    requires Valid(s) && IsShuffledDeck(s.columns, newDeck)
    requires |s.votes| == |s.scores.Keys| && |s.deck| >= Rows
    ensures var r := CheckVotes(s, newDeck);
      && (!Exhausted(AddCards(s)) ==>
            && r.grid == AddColumn(s.grid, s.deck[..Rows]) && r.deck == s.deck[Rows..]
            && r.votes == {} && r.scores == s.scores && r.held == s.held && r.active == s.active)
      && (Exhausted(AddCards(s)) ==>
            && Flatten(r.grid) + r.deck == newDeck
            && r.votes == {} && r.scores == map[] && r.held == [] && r.active == NoPlayer)
  {
    var s1 := AddCards(s).(votes := {});
    if Exhausted(s1) {
      FreshDeckSize(s.columns, newDeck);
    }
  }

  /** `vote` keeps the invariant. */
  lemma VoteKeepsValid(s: BoardState, p: string, newDeck: seq<Card>)
    requires Valid(s) && IsShuffledDeck(s.columns, newDeck)
    ensures Valid(Vote(s, p, newDeck))
  {
    if |s.deck| > 0 {
      CheckVotesKeepsValid(s.(votes := s.votes + {p}), newDeck);
    }
  }

  /** A vote on a non-empty deck is recorded, and when it completes the
      unanimity the three cards are added at once and the votes cleared. */
  lemma VoteRecorded(s: BoardState, p: string, newDeck: seq<Card>)
    requires Valid(s) && IsShuffledDeck(s.columns, newDeck) && |s.deck| > 0
    ensures |s.deck| >= Rows
    ensures var r := Vote(s, p, newDeck); var v := s.votes + {p};
      && (|v| != |s.scores.Keys| ==> r == s.(votes := v))
      && (|v| == |s.scores.Keys| && !Exhausted(AddCards(s)) ==>
            r.grid == AddColumn(s.grid, s.deck[..Rows]) && r.deck == s.deck[Rows..] && r.votes == {})
  {
    NonEmptyDeck(s);
    var t := s.(votes := s.votes + {p});
    if |t.votes| == |t.scores.Keys| {
      CheckVotesAddsColumn(t, newDeck);
      assert Exhausted(AddCards(t)) == Exhausted(AddCards(s));
    } else {
      CheckVotesWaits(t, newDeck);
    }
  }

  /** `addPlayer` keeps the invariant and changes only the scores. */
  lemma AddPlayerKeepsValid(s: BoardState, p: string)
    requires Valid(s)
    ensures Valid(AddPlayer(s, p))
  {
  }

  /** `removePlayer` keeps the invariant. */
  lemma RemovePlayerKeepsValid(s: BoardState, p: string, now: int, newDeck: seq<Card>)
    requires Valid(s) && IsShuffledDeck(s.columns, newDeck)
    ensures Valid(RemovePlayer(s, p, now, newDeck))
  {
    DepartKeepsValid(s, p, now);
    CheckVotesKeepsValid(Depart(s, p, now), newDeck);
  }

  /** A player who leaves loses their score but not their vote: short of
      unanimity the departed vote stays recorded. */
  lemma RemovePlayerKeepsVote(s: BoardState, p: string, newDeck: seq<Card>)
    requires Valid(s) && IsShuffledDeck(s.columns, newDeck)
    requires p in s.votes && |s.votes| != |s.scores.Keys - {p}|
    ensures var r := RemovePlayerAsWritten(s, p, newDeck);
      && p !in r.scores && r.scores.Keys == s.scores.Keys - {p}
      && p in r.votes && r.votes == s.votes
  {
  }

  /** The departed vote still counts: if all but one player have voted and a
      voter leaves, the count matches the smaller table and the cards are
      added, although the one player who never voted is still there. */
  lemma DepartedVoteCounts(s: BoardState, p: string, q: string, newDeck: seq<Card>)
    requires Valid(s) && IsShuffledDeck(s.columns, newDeck) && |s.deck| >= Rows
    requires p in s.scores && p in s.votes && q in s.scores && q !in s.votes
    requires |s.votes| == |s.scores.Keys| - 1
    ensures var r := RemovePlayerAsWritten(s, p, newDeck);
      !Exhausted(AddCards(s)) ==>
        && q in r.scores && q !in s.votes
        && r.grid == AddColumn(s.grid, s.deck[..Rows]) && r.deck == s.deck[Rows..] && r.votes == {}
  {
    var t := s.(scores := s.scores - {p});
    DropOneFewer(s.scores, p);
    CheckVotesAddsColumn(t, newDeck);
    SameCardsSameAddition(s, t);
  }

  /** When the last player leaves with no votes cast, zero votes equal zero
      players and three cards are added to the board. */
  lemma LastPlayerLeavingAddsCards(s: BoardState, p: string, newDeck: seq<Card>)
    requires Valid(s) && IsShuffledDeck(s.columns, newDeck) && |s.deck| >= Rows
    requires s.scores.Keys == {p} && s.votes == {}
    ensures var r := RemovePlayerAsWritten(s, p, newDeck);
      && r.scores == map[]
      && (!Exhausted(AddCards(s)) ==>
            r.grid == AddColumn(s.grid, s.deck[..Rows]) && r.deck == s.deck[Rows..])
  {
    var t := s.(scores := s.scores - {p});
    assert t.scores.Keys == {};
    CheckVotesAddsColumn(t, newDeck);
    SameCardsSameAddition(s, t);
  }

  /** The corrected departure changes only the turn and the queue: the
      scores, the votes and the cards come out as `removePlayer` leaves them,
      so the vote behaviour above holds of it too. */
  lemma CorrectionOnlyMovesTurn(s: BoardState, p: string, now: int, newDeck: seq<Card>)
    requires Valid(s) && IsShuffledDeck(s.columns, newDeck)
    ensures var r := RemovePlayer(s, p, now, newDeck);
      var w := RemovePlayerAsWritten(s, p, newDeck);
      && r.scores == w.scores && r.votes == w.votes && r.grid == w.grid && r.deck == w.deck
  {
    DepartKeepsValid(s, p, now);
    CheckVotesOnCards(Depart(s, p, now), s.(scores := s.scores - {p}), newDeck);
  }

  /** `checkVotes` reads only the scores, the votes and the cards, and writes
      them from those alone. */
  lemma CheckVotesOnCards(s: BoardState, t: BoardState, newDeck: seq<Card>)
    requires |s.grid| == Rows && 1 <= s.columns <= 27 && |s.deck| % 3 == 0
    requires IsShuffledDeck(s.columns, newDeck)
    requires s.grid == t.grid && s.deck == t.deck && s.columns == t.columns
    requires s.scores == t.scores && s.votes == t.votes
    ensures var r, u := CheckVotes(s, newDeck), CheckVotes(t, newDeck);
      && r.scores == u.scores && r.votes == u.votes && r.grid == u.grid && r.deck == u.deck
  {
    if |s.votes| == |s.scores.Keys| && !AddCardsThrows(s) {
      SameCardsSameAddition(s, t);
    }
  }

  /** Dropping a registered player leaves one player fewer. */
  lemma DropOneFewer(scores: map<string, int>, p: string)
    requires p in scores
    ensures |(scores - {p}).Keys| == |scores.Keys| - 1
  {
    assert (scores - {p}).Keys + {p} == scores.Keys && p !in (scores - {p}).Keys;
  }

  /** Adding cards depends only on the grid and the deck. */
  lemma SameCardsSameAddition(s: BoardState, t: BoardState)
    requires |s.grid| == Rows && s.grid == t.grid && s.deck == t.deck
    ensures AddCards(s).grid == AddCards(t).grid && AddCards(s).deck == AddCards(t).deck
    ensures Exhausted(AddCards(s)) == Exhausted(AddCards(t))
  {
  }

  /** As written, `removePlayer` wedges the turn of a departing declarer: it
      still declares, every `timedOut` for it throws before changing anything,
      and its third pick throws after holding the square and cancelling the
      timer, so three squares stay held and (by `FourthPick`) the next pick
      holds a fourth. */
  lemma DepartedDeclarerWedgesTurn(s: BoardState, p: string, a: Square, now: int, newDeck: seq<Card>)
    requires Valid(s) && IsShuffledDeck(s.columns, newDeck)
    requires p == s.active && p != NoPlayer && p in s.scores && |s.votes| != |s.scores.Keys| - 1
    requires |s.held| == 2 && a !in s.held
    ensures var r := RemovePlayerAsWritten(s, p, newDeck);
      && r.active == p && p !in r.scores && Valid(r)
      && TimedOutThrows(r, p) && TimedOut(r, p, now) == r
      && var r1 := r.(held := r.held + [a], timer := Cancelled);
      && Pick(r, a, p, now, newDeck) == r1 && Valid(r1) && |r1.held| == 3 && r1.active == p
  {
    var t := s.(scores := s.scores - {p});
    assert |t.scores.Keys| == |s.scores.Keys| - 1 by {
      assert t.scores.Keys + {p} == s.scores.Keys;
    }
    assert RemovePlayerAsWritten(s, p, newDeck) == t;
    ThirdPickOfUnregistered(t, p, a, now, newDeck);
  }
}
