/** What replacing a found set does to the cards in play: the refill branch
    swaps the held cards for the next three deck cards square by square, the
    condense branch drops them and repacks the rest one column narrower, and
    either way the three held cards are exactly what leaves the game. */
module ReplaceProofs {
  import opened Seqs
  import opened Cards
  import opened Grid
  import opened Game

  /** The cards of the grid and the deck together. */
  ghost function InPlay(s: BoardState): multiset<Card> {
    multiset(Flatten(s.grid) + s.deck)
  }

  /** The refill branch changes only the three held squares, which receive
      the first three deck cards in holding order, and leaves the grid's
      shape alone. */
  lemma RefillSquares(s: BoardState)
    requires |s.held| == 3 && |s.deck| >= 3 && Distinct(s.held)
    requires forall sq | sq in s.held :: InBounds(s.grid, sq)
    ensures var r := Refill(s);
      && |r.grid| == |s.grid| && (forall i | 0 <= i < |s.grid| :: |r.grid[i]| == |s.grid[i]|)
      && (forall k | 0 <= k < 3 :: CardAt(r.grid, s.held[k]) == s.deck[k])
      && (forall sq | InBounds(s.grid, sq) && sq !in s.held :: CardAt(r.grid, sq) == CardAt(s.grid, sq))
      && r.deck == s.deck[3..]
  {
    DistinctAt(s.held, 0, 1);
    DistinctAt(s.held, 0, 2);
    DistinctAt(s.held, 1, 2);
    assert s.held[0] in s.held && s.held[1] in s.held && s.held[2] in s.held;
  }

  /** Three held squares' cards are exchanged for three deck cards. */
  lemma RefillExchanges(s: BoardState)
    requires |s.held| == 3 && |s.deck| >= 3 && Distinct(s.held)
    requires forall sq | sq in s.held :: InBounds(s.grid, sq)
    ensures multiset(Flatten(Refill(s).grid)) + multiset(HeldCards(s))
            == multiset(Flatten(s.grid)) + multiset(s.deck[..3])
  {
    var h, d := s.held, s.deck;
    assert h[0] in h && h[1] in h && h[2] in h;
    DistinctAt(h, 0, 1);
    DistinctAt(h, 0, 2);
    DistinctAt(h, 1, 2);
    var c := HeldCards(s);
    var g1 := SetCard(s.grid, h[0], d[0]);
    var g2 := SetCard(g1, h[1], d[1]);
    var g3 := SetCard(g2, h[2], d[2]);
    assert Refill(s).grid == g3;
    FlattenSetCard(s.grid, h[0], d[0]);
    FlattenSetCard(g1, h[1], d[1]);
    FlattenSetCard(g2, h[2], d[2]);
    assert CardAt(g1, h[1]) == c[1] && CardAt(g2, h[2]) == c[2];
    ExchangeThree(multiset(Flatten(s.grid)), multiset(Flatten(g1)), multiset(Flatten(g2)), multiset(Flatten(g3)),
                  c[0], c[1], c[2], d[0], d[1], d[2]);
    MultisetOfThree(c);
    MultisetOfThree(d[..3]);
  }

  /** The refill branch takes the held cards out of play. */
  lemma RefillDiscardsHeld(s: BoardState)
    requires |s.held| == 3 && |s.deck| >= 3 && Distinct(s.held)
    requires forall sq | sq in s.held :: InBounds(s.grid, sq)
    ensures InPlay(Refill(s)) + multiset(HeldCards(s)) == InPlay(s)
  {
    var r := Refill(s);
    var front, rest := multiset(s.deck[..3]), multiset(s.deck[3..]);
    assert InPlay(r) == multiset(Flatten(r.grid)) + rest;
    assert InPlay(s) == multiset(Flatten(s.grid)) + front + rest by {
      assert s.deck == s.deck[..3] + s.deck[3..];
    }
    RefillExchanges(s);
  }

  /** The condense branch takes the held cards out of play. */
  lemma CondenseDiscardsHeld(s: BoardState)
    requires Valid(s) && |s.held| == 3 && Distinct(s.held)
    requires forall sq | sq in s.held :: InBounds(s.grid, sq)
    ensures InPlay(Condense(s)) + multiset(HeldCards(s)) == InPlay(s)
  {
    var r := Condense(s);
    calc {
      InPlay(r) + multiset(HeldCards(s));
      multiset(Flatten(r.grid)) + multiset(HeldCards(s)) + multiset(s.deck);
      InPlay(s);
    }
  }

  /** Discarding a found set removes exactly the three held cards from the
      grid and deck together. */
  lemma DiscardRemovesHeld(s: BoardState)
    requires Valid(s) && |s.held| == 3 && Distinct(s.held)
    requires forall sq | sq in s.held :: InBounds(s.grid, sq)
    ensures InPlay(Discard(s)) + multiset(HeldCards(s)) == InPlay(s)
  {
    if |s.deck| == 0 || Width(s) > s.columns {
      CondenseDiscardsHeld(s);
    } else {
      NonEmptyDeck(s);
      RefillDiscardsHeld(s);
    }
  }

  /** Replacing a found set keeps the representation invariant: the grid
      stays rectangular with at least one column, and no card appears twice. */
  lemma ReplaceKeepsValid(s: BoardState, newDeck: seq<Card>)
    requires Valid(s) && |s.held| == 3 && Distinct(s.held)
    requires forall sq | sq in s.held :: InBounds(s.grid, sq)
    requires IsShuffledDeck(s.columns, newDeck)
    ensures Valid(Replace(s, newDeck))
  {
    var s1 := Discard(s);
    if |s.deck| == 0 || Width(s) > s.columns {
      CondenseKeepsValid(s);
    } else {
      NonEmptyDeck(s);
      RefillKeepsValid(s);
    }
    if Exhausted(s1) {
      FreshDeckSize(s.columns, newDeck);
      ResetKeepsValid(s1, newDeck);
    }
  }

  /** The condensed board is valid unless it is left without cards, which
      happens only when its one column was the held set and the deck is empty
      (and then the board is reset). */
  lemma CondenseKeepsValid(s: BoardState)
    requires Valid(s) && |s.held| == 3 && Distinct(s.held)
    requires forall sq | sq in s.held :: InBounds(s.grid, sq)
    requires |s.deck| == 0 || Width(s) > s.columns
    ensures var r := Condense(s);
      Valid(r) || (Flatten(r.grid) == [] && r.deck == [])
  {
    var r := Condense(s);
    if Width(s) == 1 {
      assert |s.deck| == 0;
      FlattenLength(r.grid, 0);
    } else {
      CondenseDiscardsHeld(s);
      DistinctSmaller(Flatten(r.grid) + r.deck, Flatten(s.grid) + s.deck);
    }
  }

  /** The refilled board is valid. */
  lemma RefillKeepsValid(s: BoardState)
    requires Valid(s) && |s.held| == 3 && Distinct(s.held) && |s.deck| >= 3
    requires forall sq | sq in s.held :: InBounds(s.grid, sq)
    ensures Valid(Refill(s))
  {
    var r := Refill(s);
    assert |r.grid| == Rows && Rectangular(r.grid, |r.grid[0]|) && |r.grid[0]| >= 1 && |r.deck| % 3 == 0 by {
      RefillSquares(s);
    }
    assert Distinct(Flatten(r.grid) + r.deck) by {
      RefillDiscardsHeld(s);
      DistinctSmaller(Flatten(r.grid) + r.deck, Flatten(s.grid) + s.deck);
    }
  }

  /** A reset to a distinct deck long enough to deal, whose size is a
      multiple of three, yields a valid board. */
  lemma ResetKeepsValid(s: BoardState, cards: seq<Card>)
    requires 1 <= s.columns <= 27 && Rows * s.columns <= |cards|
    requires Distinct(cards) && |cards| % 3 == 0
    ensures Valid(Reset(s, cards))
  {
    var r := Reset(s, cards);
    assert Distinct(Flatten(r.grid) + r.deck);
    ResetDeckLength(s, cards);
  }

  /** After a reset the deck holds what the grid did not take. */
  lemma ResetDeckLength(s: BoardState, cards: seq<Card>)
    requires 0 <= s.columns && Rows * s.columns <= |cards|
    ensures |Reset(s, cards).deck| == |cards| - Rows * s.columns
  {
    var r := Reset(s, cards);
    FlattenLength(r.grid, s.columns);
  }
}
