/** The mutable board: one object whose fields the operations update in place,
    each operation proved to move the fields exactly as the matching function
    of `Game` moves a `BoardState`, and to keep the representation invariant. */
module SetBoard {
  import opened Seqs
  import opened Cards
  import opened Grid
  import G = Grid  // `G.SetCard` names the grid function that the method `Board.SetCard` shadows
  import opened Game
  import opened ReplaceProofs
  import opened TurnProofs
  import opened VoteProofs

  /** The inner loops of `resetGame` and `condenseCards`: a counter walks
      `cards` from the front, filling `Rows` rows of `cols` cards each. */
  method DealRows(cards: seq<Card>, cols: nat) returns (g: seq<seq<Card>>)
    requires Rows * cols <= |cards|
    ensures g == Deal(cards, cols)
  {
    g := [];
    var counter := 0;
    for i := 0 to Rows
      invariant counter == i * cols
      invariant |g| == i
      invariant forall r | 0 <= r < i :: g[r] == cards[r * cols..(r + 1) * cols]
    {
      assert (i + 1) * cols <= Rows * cols && (i + 1) * cols == counter + cols;
      var newRow := DealRow(cards, counter, cols);
      counter := counter + cols;
      g := g + [newRow];
    }
  }

  /** The innermost loop: `cols` cards taken one by one from `from` on. */
  method DealRow(cards: seq<Card>, from: nat, cols: nat) returns (row: seq<Card>)
    requires from + cols <= |cards|
    ensures row == cards[from..from + cols]
  {
    row := [];
    for j := 0 to cols
      invariant row == cards[from..from + j]
    {
      row := row + [cards[from + j]];
    }
  }

  /** The middle loop of `condenseCards`: each row in turn loses the cards of
      `xs`, and what it keeps is collected, row after row. */
  method StripRows(g: seq<seq<Card>>, xs: set<Card>) returns (allCards: seq<Card>)
    requires |g| == Rows
    ensures allCards == RemoveAll(Flatten(g), xs)
  {
    allCards := [];
    for i := 0 to Rows
      invariant allCards == RemoveAll(Flatten(g[..i]), xs)
    {
      var row := RemoveAll(g[i], xs);
      StripOneMore(g, xs, i);
      allCards := allCards + row;
    }
    assert g[..Rows] == g;
  }

  /** Stripping one more row adds what that row keeps. */
  lemma StripOneMore(g: seq<seq<Card>>, xs: set<Card>, i: nat)
    requires i < |g|
    ensures RemoveAll(Flatten(g[..i + 1]), xs) == RemoveAll(Flatten(g[..i]), xs) + RemoveAll(g[i], xs)
  {
    assert g[..i + 1] == g[..i] + [g[i]];
    FlattenAppendRow(g[..i], g[i]);
    RemoveAllConcat(Flatten(g[..i]), g[i], xs);
  }

  /** The grid after the first `k` held squares have received, in holding
      order, the first `k` deck cards. */
  ghost function RefilledUpTo(s: BoardState, k: nat): (g: seq<seq<Card>>)
    requires k <= 3 && |s.held| == 3 && |s.deck| >= 3
    requires forall sq | sq in s.held :: InBounds(s.grid, sq)
    ensures forall sq :: InBounds(g, sq) <==> InBounds(s.grid, sq)
  {
    if k == 0 then s.grid
    else
      assert s.held[k - 1] in s.held;
      SetCard(RefilledUpTo(s, k - 1), s.held[k - 1], s.deck[k - 1])
  }

  class Board {
    var grid: seq<seq<Card>>      // gameBoard
    var scores: map<string, int>  // scores
    var deck: seq<Card>           // cardsRemaining
    var active: string            // activePlayer
    var held: seq<Square>         // squaresHeld
    var votes: set<string>        // votes
    var queue: seq<string>        // declareQueue
    var timeOut: int              // timeOut
    var timer: Timer              // result
    const columns: int            // defaultColumns

    /** The fields as a value. */
    function State(): BoardState
      reads this
    {
      BoardState(grid, scores, deck, active, held, votes, queue, timeOut, timer, columns)
    }

    ghost predicate Valid()
      reads this
    {
      Game.Valid(State())
    }

    /** `Board(cards, attributes)`: a board of `attributes` columns dealt from
        `cards`; a distinct deck whose size is a multiple of three gives a
        valid board. */
    constructor (cards: seq<Card>, attributes: int)
      requires 0 <= attributes && Rows * attributes <= |cards|
      ensures State() == Initial(cards, attributes)
      ensures 1 <= attributes <= 27 && Distinct(cards) && |cards| % 3 == 0 ==> Valid()
    {
      columns := attributes;
      timeOut := 0;
      timer := Unscheduled;
      new;
      ghost var s0 := State();
      ResetGame(cards);
      if 1 <= attributes <= 27 && Distinct(cards) && |cards| % 3 == 0 {
        ResetKeepsValid(s0, cards);
      }
    }

    /** `resetGame(cards)`. */
    method ResetGame(cards: seq<Card>)
      requires 0 <= columns && Rows * columns <= |cards|
      modifies this
      ensures State() == Reset(old(State()), cards)
    {
      var cardsCopy := cards;
      grid := DealRows(cardsCopy, columns);
      scores := map[];
      deck := cardsCopy[Rows * columns..];
      active := NoPlayer;
      held := [];
      votes := {};
      queue := [];
    }

    // -------------------------------------------------------------------------
    // Queries

    /** `isPlayer`. */
    function IsPlayer(p: string): (b: bool)
      reads this
      ensures b <==> p in State().scores
    {
      p in scores
    }

    /** `getNumRows`: always `DEFAULT_ROWS`. */
    function NumRows(): (n: int)
      reads this
      requires Valid()
      ensures n == Rows
    {
      |grid|
    }

    /** `getNumCols`: the common length of the rows. */
    function NumCols(): (n: int)
      reads this
      requires Valid()
      ensures n >= 1 && Rectangular(grid, n)
      ensures |Flatten(grid)| == Rows * n
    {
      FlattenLength(grid, |grid[0]|);
      |grid[0]|
    }

    /** `getRow`: a copy of one row, square by square. */
    function GetRow(row: int): (r: seq<Card>)
      reads this
      requires 0 <= row < |grid|
      ensures |r| == |grid[row]|
      ensures forall col | 0 <= col < |r| :: r[col] == CardAt(grid, Square(row, col))
    {
      grid[row]
    }

    /** `getCard`: the card on a square, which is one of the board's cards. */
    function GetCard(sq: Square): (c: Card)
      reads this
      requires InBounds(grid, sq)
      ensures c in Flatten(grid)
    {
      CardAtInFlatten(grid, sq);
      grid[sq.row][sq.col]
    }

    /** `numPlayers`. */
    function NumPlayers(): (n: nat)
      reads this
      ensures n == |State().scores.Keys|
    {
      |scores.Keys|
    }

    /** `getColumn(col)`: the card of every row at `col`, top to bottom. */
    method GetColumn(col: int) returns (column: seq<Card>)
      requires Valid() && 0 <= col < NumCols()
      ensures |column| == Rows
      ensures forall i | 0 <= i < Rows :: column[i] == CardAt(grid, Square(i, col))
    {
      column := [];
      for i := 0 to |grid|
        invariant |column| == i
        invariant forall k | 0 <= k < i :: column[k] == CardAt(grid, Square(k, col))
      {
        column := column + [grid[i][col]];
      }
    }

    /** `checkSet`: the parity test over the cards under the held squares,
        which for three squares decides exactly whether they form a set. It
        throws, changing nothing, when a held square is off the grid. */
    method CheckSet() returns (b: bool, thrown: bool)
      ensures thrown <==> exists sq | sq in held :: !InBounds(grid, sq)
      ensures !thrown ==> b == HeldFormSet(State())
      ensures !thrown && |held| == 3 ==>
        (b <==> IsSet(CardAt(grid, held[0]), CardAt(grid, held[1]), CardAt(grid, held[2])))
    {
      var colors: set<Color> := {};
      var numbers: set<Number> := {};
      var shadings: set<Shading> := {};
      var shapes: set<Shape> := {};
      ghost var read: seq<Card> := [];
      for i := 0 to |held|
        invariant |read| == i
        invariant forall k | 0 <= k < i :: InBounds(grid, held[k]) && read[k] == CardAt(grid, held[k])
        invariant colors == ColorsOf(read) && numbers == NumbersOf(read)
        invariant shadings == ShadingsOf(read) && shapes == ShapesOf(read)
      {
        if !InBounds(grid, held[i]) {
          assert held[i] in held;
          return false, true;
        }
        var card := GetCard(held[i]);
        AttributesOfAppend(read, card);
        read := read + [card];
        colors := colors + {card.color};
        numbers := numbers + {card.number};
        shadings := shadings + {card.shading};
        shapes := shapes + {card.shape};
      }
      assert read == HeldCards(State());
      b := (|colors| * |numbers| * |shadings| * |shapes|) % 2 != 0;
      thrown := false;
      if |held| == 3 {
        ParityDecidesSetOf(read);
      }
    }

    /** `existsSet`: some two cards of the grid have their completing third
        card on the grid too. */
    method ExistsSet() returns (b: bool)
      ensures b == HasSet(Flatten(grid))
    {
      var allCards := Flatten(grid);
      var allCardsSet := Elements(allCards);
      for i := 0 to |allCards|
        invariant forall i', j' | 0 <= i' < i && i' < j' < |allCards| :: MissingCard(allCards[i'], allCards[j']) !in allCards
      {
        for j := i + 1 to |allCards|
          invariant forall j' | i < j' < j :: MissingCard(allCards[i], allCards[j']) !in allCards
        {
          var missing := MissingCard(allCards[i], allCards[j]);
          if missing in allCardsSet {
            assert 0 <= i < j < |allCards| && MissingCard(allCards[i], allCards[j]) in allCards;
            return true;
          }
        }
      }
      return false;
    }

    // -------------------------------------------------------------------------
    // Changing single fields

    /** `setCard`: one square gets `c`. */
    method SetCard(sq: Square, c: Card)
      requires InBounds(grid, sq)
      modifies this
      ensures State() == old(State()).(grid := G.SetCard(old(grid), sq, c))
    {
      grid := grid[sq.row := grid[sq.row][sq.col := c]];
    }

    /** `resetTimeout` at time `now`. */
    method ResetTimeout(now: int)
      modifies this
      ensures State() == old(State()).(timeOut := now + TimeLimit)
    {
      timeOut := now + TimeLimit;
    }

    // -------------------------------------------------------------------------
    // Players

    /** `addPlayer`: true exactly when the id was free. */
    method AddPlayer(p: string) returns (added: bool)
      requires Valid()
      modifies this
      ensures added <==> p !in old(scores)
      ensures State() == Game.AddPlayer(old(State()), p) && Valid()
    {
      if p in scores {
        return false;
      }
      scores := scores[p := 0];
      return true;
    }

    /** `removePlayer(p)` at time `now`, with the departure corrected: the
        player leaves the scores and the declare queue, a departing declarer
        hands the turn on, then unanimity is re-checked. */
    method RemovePlayer(p: string, now: int, newDeck: seq<Card>) returns (thrown: bool)
      requires Valid() && IsShuffledDeck(columns, newDeck)
      modifies this
      ensures State() == Game.RemovePlayer(old(State()), p, now, newDeck) && Valid()
      ensures thrown == CheckVotesThrows(Depart(old(State()), p, now))
    {
      RemovePlayerKeepsValid(State(), p, now, newDeck);
      DepartKeepsValid(State(), p, now);
      Leave(p, now);
      thrown := CheckVotes(newDeck);
    }

    /** The departure of `p`: score, queue place and, for the declarer, the
        turn. */
    method Leave(p: string, now: int)
      requires Distinct(queue) && active !in queue
      modifies this
      ensures State() == Depart(old(State()), p, now)
    {
      DropScore(p);
      queue := RemoveFirst(queue, p);
      if p == active && p != NoPlayer {
        held := [];
        ghost var s1 := State();
        if |queue| > 0 {
          active := queue[0];
          queue := queue[1..];
          ResetTimeout(now);
          timer := Pending;
        } else {
          active := NoPlayer;
        }
        assert State() == Promote(s1, now, true);
      }
    }

    /** The first step of `removePlayer`: forget the player's score. */
    method DropScore(p: string)
      modifies this
      ensures State() == old(State()).(scores := old(scores) - {p})
    {
      scores := scores - {p};
    }

    // -------------------------------------------------------------------------
    // Adding cards

    /** `addCards`: each row in turn takes the next deck card; an empty deck
        throws, leaving the rows before it extended. */
    method AddCards() returns (thrown: bool)
      requires |grid| == Rows
      modifies this
      ensures State() == Game.AddCards(old(State()))
      ensures thrown == AddCardsThrows(old(State()))
    {
      ghost var s0 := State();
      for row := 0 to Rows
        invariant row <= |s0.deck| && deck == s0.deck[row..] && |grid| == Rows
        invariant forall i | 0 <= i < Rows :: grid[i] == if i < row then s0.grid[i] + [s0.deck[i]] else s0.grid[i]
        invariant State() == s0.(grid := grid, deck := deck)
      {
        if deck == [] {
          AddCardsRows(s0, grid, row);
          return true;
        }
        ExtendRow(row);
      }
      AddCardsRows(s0, grid, Rows);
      return false;
    }

    /** One row of `addCards`: the row takes the card removed from the front
        of the deck. */
    method ExtendRow(row: nat)
      requires row < |grid| && deck != []
      modifies this
      ensures State() == old(State()).(grid := old(grid)[row := old(grid)[row] + [old(deck)[0]]], deck := old(deck)[1..])
    {
      var newCard := deck[0];
      deck := deck[1..];
      grid := grid[row := grid[row] + [newCard]];
    }

    /** `checkVotes`: on unanimity add three cards, clear the votes, and
        restart from `newDeck` if the game is exhausted. */
    method CheckVotes(newDeck: seq<Card>) returns (thrown: bool)
      requires Valid() && IsShuffledDeck(columns, newDeck)
      modifies this
      ensures State() == Game.CheckVotes(old(State()), newDeck) && Valid()
      ensures thrown == CheckVotesThrows(old(State()))
    {
      CheckVotesKeepsValid(State(), newDeck);
      thrown := false;
      if |votes| == NumPlayers() {
        thrown := AddCards();
        if thrown {
          return;
        }
        votes := {};
        if |deck| == 0 {
          var found := ExistsSet();
          if !found {
            FreshDeckSize(columns, newDeck);
            ResetGame(newDeck);
          }
        }
      }
    }

    /** `vote`: ignored on an empty deck, otherwise recorded and counted. */
    method Vote(p: string, newDeck: seq<Card>)
      requires Valid() && IsShuffledDeck(columns, newDeck)
      modifies this
      ensures State() == Game.Vote(old(State()), p, newDeck) && Valid()
    {
      VoteKeepsValid(State(), p, newDeck);
      if |deck| == 0 {
        return;
      }
      votes := votes + {p};
      var _ := CheckVotes(newDeck);
    }

    // -------------------------------------------------------------------------
    // Replacing a found set

    /** The first loop of `condenseCards`: the cards under the held squares,
        in holding order. */
    method CardsHeld() returns (cardsHeld: seq<Card>)
      requires forall sq | sq in held :: InBounds(grid, sq)
      ensures cardsHeld == HeldCards(State())
    {
      cardsHeld := [];
      for i := 0 to |held|
        invariant |cardsHeld| == i
        invariant forall k | 0 <= k < i :: cardsHeld[k] == CardAt(grid, held[k])
      {
        assert held[i] in held;
        var card := GetCard(held[i]);
        cardsHeld := cardsHeld + [card];
      }
    }

    /** `condenseCards`: drop the held cards from every row and deal the rest
        into rows one column narrower. */
    method CondenseCards()
      requires Valid() && |held| == 3 && Distinct(held)
      requires forall sq | sq in held :: InBounds(grid, sq)
      modifies this
      ensures State() == Condense(old(State()))
    {
      ghost var s0 := State();
      CondenseSize(s0);
      var cols := NumCols();
      var cardsHeld := CardsHeld();
      var allCards := StripRows(grid, Elements(cardsHeld));
      grid := DealRows(allCards, cols - 1);
    }

    /** `replaceCards`, with `newDeck` the next generated deck. */
    method ReplaceCards(newDeck: seq<Card>)
      requires Valid() && |held| == 3 && Distinct(held)
      requires forall sq | sq in held :: InBounds(grid, sq)
      requires IsShuffledDeck(columns, newDeck)
      modifies this
      ensures State() == Replace(old(State()), newDeck)
    {
      ghost var s0 := State();
      if |deck| == 0 || NumCols() > columns {
        CondenseCards();
      } else {
        NonEmptyDeck(s0);
        RefillHeld();
      }
      assert State() == Discard(s0);
      if |deck| == 0 {
        var found := ExistsSet();
        if !found {
          FreshDeckSize(columns, newDeck);
          ResetGame(newDeck);
        }
      }
    }

    /** The refill branch of `replaceCards`: each held square in turn takes
        the card removed from the front of the deck. */
    method RefillHeld()
      requires |held| == 3 && |deck| >= 3
      requires forall sq | sq in held :: InBounds(grid, sq)
      modifies this
      ensures State() == Refill(old(State()))
    {
      ghost var s0 := State();
      for i := 0 to 3
        invariant deck == s0.deck[i..]
        invariant State() == s0.(grid := RefilledUpTo(s0, i), deck := deck)
      {
        var sq := held[i];
        assert sq in s0.held;
        var newCard := deck[0];
        deck := deck[1..];
        SetCard(sq, newCard);
      }
      assert RefilledUpTo(s0, 3) == Refill(s0).grid by {
        var h, d := s0.held, s0.deck;
        assert h[0] in h && h[1] in h && h[2] in h;
        assert RefilledUpTo(s0, 1) == G.SetCard(s0.grid, h[0], d[0]);
        assert RefilledUpTo(s0, 2) == G.SetCard(RefilledUpTo(s0, 1), h[1], d[1]);
      }
    }

    // -------------------------------------------------------------------------
    // Declaring and picking

    /** `declareSet` at time `now`. */
    method DeclareSet(p: string, now: int)
      requires Valid()
      modifies this
      ensures State() == Declare(old(State()), p, now) && Valid()
    {
      DeclareKeepsValid(State(), p, now);
      if active == p || p in queue {
        return;
      } else if active != NoPlayer {
        queue := queue + [p];
        return;
      } else {
        active := p;
        ResetTimeout(now);
        timer := Pending;
      }
    }

    /** `timedOut(p)` at time `now`. */
    method TimedOut(p: string, now: int) returns (thrown: bool)
      requires Valid()
      modifies this
      ensures State() == Game.TimedOut(old(State()), p, now) && Valid()
      ensures thrown == TimedOutThrows(old(State()), p)
    {
      TimedOutKeepsValid(State(), p, now);
      if p !in scores {
        return true;
      }
      var score := scores[p];
      scores := scores[p := score - PointsLost];
      held := [];
      ghost var s1 := State();
      if |queue| > 0 {
        active := queue[0];
        queue := queue[1..];
        ResetTimeout(now);
        timer := Pending;
      } else {
        active := NoPlayer;
      }
      assert State() == Promote(s1, now, true);
      return false;
    }

    /** `pickCard(sq, p)` at time `now`, with `newDeck` the deck a restart
        would use. */
    method PickCard(sq: Square, p: string, now: int, newDeck: seq<Card>) returns (thrown: bool)
      requires Valid() && IsShuffledDeck(columns, newDeck)
      modifies this
      ensures State() == Pick(old(State()), sq, p, now, newDeck) && Valid()
      ensures thrown == PickThrows(old(State()), sq, p)
    {
      ghost var s0 := State();
      PickKeepsValid(s0, sq, p, now, newDeck);
      if p != active {
        return false;
      }
      if sq in held {
        held := RemoveFirst(held, sq);
        return false;
      }
      held := held + [sq];
      if |held| == Rows {
        if timer == Unscheduled {
          return true;
        }
        timer := Cancelled;
        ghost var s2 := Settling(s0, sq);
        assert State() == s2;
        DistinctAppendOne(s0.held, sq);
        thrown := SettlePick(p, now, newDeck);
        if !thrown {
          assert ThirdPick(s0, sq, p);
          PickSettles(s0, sq, p, now, newDeck);
        }
        return;
      }
      return false;
    }

    /** The rest of `pickCard` once the third square is held and the timer
        cancelled: look up the score (which throws for an unknown player),
        test the held cards (which throws for a square off the grid), then
        reward and replace a set or penalise a miss, and let go of the held
        squares. */
    method SettlePick(p: string, now: int, newDeck: seq<Card>) returns (thrown: bool)
      requires Valid() && |held| == 3 && IsShuffledDeck(columns, newDeck)
      modifies this
      ensures thrown == ResolutionThrows(old(State()), p)
      ensures thrown ==> State() == old(State())
      ensures !thrown ==> State() == Settle(old(State()), p, now, newDeck)
    {
      if p !in scores {
        return true;
      }
      var isSet, checkThrown := CheckSet();
      if checkThrown {
        return true;
      }
      if isSet {
        RewardSet(p, newDeck);
      } else {
        PenaliseMiss(p, now);
      }
      return false;
    }

    /** The set branch of `pickCard`: the finder gains `PointsWon`, votes and
        the declare queue are cleared, nobody declares, the held cards are
        replaced and the held squares let go. */
    method RewardSet(p: string, newDeck: seq<Card>)
      requires Valid() && |held| == 3 && !ResolutionThrows(State(), p) && IsShuffledDeck(columns, newDeck)
      modifies this
      ensures State() == Found(old(State()), p, newDeck)
    {
      AwardPoints(p);
      ReplaceCards(newDeck);
      held := [];
    }

    /** The bookkeeping of the set branch before the cards are replaced. */
    method AwardPoints(p: string)
      requires p in scores
      modifies this
      ensures State() == Award(old(State()), p)
    {
      var score := scores[p];
      scores := scores[p := score + PointsWon];
      votes := {};
      queue := [];
      active := NoPlayer;
    }

    /** The miss branch of `pickCard`: the picker loses `PointsLost`, the queue
        head (without a new timer) or nobody declares, and the held squares
        are let go. */
    method PenaliseMiss(p: string, now: int)
      requires p in scores
      modifies this
      ensures State() == Missed(old(State()), p, now)
    {
      var score := scores[p];
      scores := scores[p := score - PointsLost];
      ghost var s1 := State();
      if |queue| > 0 {
        active := queue[0];
        queue := queue[1..];
        ResetTimeout(now);
      } else {
        active := NoPlayer;
      }
      held := [];
      assert State() == Promote(s1, now, false).(held := []);
    }
  }
}
