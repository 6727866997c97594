/** The state of a board as plain values and every state-changing operation of
    the board as a function from the state before to the state after. A Java
    exception is modelled by the state as the operation left it at the throw;
    the matching `...Throws` predicate says when that happens. */
module Game {
  import opened Seqs
  import opened Cards
  import opened DeckGen
  import opened Grid

  /** `TIME_LIMIT_IN_MILLIS`. */
  const TimeLimit: int := 5000
  /** The points `pickCard` awards for a set and deducts for a miss, and the
      points `timedOut` deducts. */
  const PointsWon: int := 10
  const PointsLost: int := 5
  /** The player id the board uses for "nobody is declaring". */
  const NoPlayer: string := ""

  /** The future `result` of the declare timer: never scheduled (still null),
      scheduled and not cancelled by the board, or cancelled by a third pick. */
  datatype Timer = Unscheduled | Pending | Cancelled

  datatype BoardState = BoardState(
    grid: Grid,                  // gameBoard
    scores: map<string, int>,    // scores
    deck: seq<Card>,             // cardsRemaining, head first
    active: string,              // activePlayer
    held: seq<Square>,           // squaresHeld
    votes: set<string>,          // votes
    queue: seq<string>,          // declareQueue, head first
    timeOut: int,                // timeOut
    timer: Timer,                // result
    columns: int)                // defaultColumns

  /** The representation invariant the operations keep: three rectangular rows
      of at least one column, no card twice among the grid and the deck, a deck
      that runs out exactly at a multiple of three, no square held twice, no
      player queued twice or queued while declaring, and, whenever someone
      declares, a timer that was scheduled at least once: pending, or
      cancelled by a third pick (after a miss the next declarer keeps the
      cancelled timer). */
  ghost predicate Valid(s: BoardState) {
    && 1 <= s.columns <= 27
    && |s.grid| == Rows && Rectangular(s.grid, |s.grid[0]|) && |s.grid[0]| >= 1
    && Distinct(Flatten(s.grid) + s.deck)
    && |s.deck| % 3 == 0
    && Distinct(s.held)
    && Distinct(s.queue) && s.active !in s.queue
    && (s.active != NoPlayer ==> s.timer != Unscheduled)
  }

  /** `getNumCols`. */
  function Width(s: BoardState): int
    requires |s.grid| > 0
  {
    |s.grid[0]|
  }

  /** The cards under the held squares, in holding order. */
  function HeldCards(s: BoardState): (r: seq<Card>)
    requires forall sq | sq in s.held :: InBounds(s.grid, sq)
    ensures |r| == |s.held|
    ensures forall k | 0 <= k < |s.held| :: r[k] == CardAt(s.grid, s.held[k])
  {
    seq(|s.held|, k requires 0 <= k < |s.held| => CardAt(s.grid, s.held[k]))
  }

  /** What `checkSet` answers: the parity test on the held cards. */
  predicate HeldFormSet(s: BoardState)
    requires forall sq | sq in s.held :: InBounds(s.grid, sq)
  {
    OddDistinctProduct(HeldCards(s))
  }

  /** A deck `generateRandomCards(columns)` may return: a shuffle of the
      generated cards. */
  ghost predicate IsShuffledDeck(columns: int, cards: seq<Card>) {
    multiset(cards) == multiset(UnshuffledDeck(columns))
  }

  // ---------------------------------------------------------------------------
  // Dealing

  /** `resetGame(cards)`: deal `Rows` rows of `columns` cards from the front,
      queue the rest, and forget scores, declarer, held squares, votes and
      the declare queue. The timeout and the timer are left alone. */
  function Reset(s: BoardState, cards: seq<Card>): (r: BoardState)
    requires 0 <= s.columns && Rows * s.columns <= |cards|
    ensures Rectangular(r.grid, s.columns) && Flatten(r.grid) + r.deck == cards
    ensures r.scores == map[] && r.active == NoPlayer && r.held == [] && r.votes == {} && r.queue == []
    ensures r.columns == s.columns && r.timer == s.timer && r.timeOut == s.timeOut
  {
    assert cards == cards[..Rows * s.columns] + cards[Rows * s.columns..];
    s.(grid := Deal(cards, s.columns), scores := map[], deck := cards[Rows * s.columns..],
       active := NoPlayer, held := [], votes := {}, queue := [])
  }

  /** The constructor: `defaultColumns := attributes`, then `resetGame`. */
  function Initial(cards: seq<Card>, attributes: int): (r: BoardState)
    requires 0 <= attributes && Rows * attributes <= |cards|
    ensures r.columns == attributes && r.timer == Unscheduled
  {
    Reset(BoardState([], map[], [], NoPlayer, [], {}, [], 0, Unscheduled, attributes), cards)
  }

  // ---------------------------------------------------------------------------
  // Replacing a found set

  /** `condenseCards`: take the held cards out of every row and deal what is
      left row-major into rows one column narrower. Exactly the held cards
      leave the grid, and the deck is untouched. */
  ghost function Condense(s: BoardState): (r: BoardState)
    requires Valid(s) && |s.held| == 3 && Distinct(s.held)
    requires forall sq | sq in s.held :: InBounds(s.grid, sq)
    ensures Rectangular(r.grid, Width(s) - 1)
    ensures Flatten(r.grid) == RemoveAll(Flatten(s.grid), Elements(HeldCards(s)))
    ensures multiset(Flatten(r.grid)) + multiset(HeldCards(s)) == multiset(Flatten(s.grid))
    ensures r.deck == s.deck && r.held == s.held
  {
    CondenseSize(s);
    var rest := RemoveAll(Flatten(s.grid), Elements(HeldCards(s)));
    s.(grid := Deal(rest, Width(s) - 1))
  }

  /** The refill branch of `replaceCards`: the held squares, in holding order,
      get the next three deck cards. */
  function Refill(s: BoardState): (r: BoardState)
    requires |s.held| == 3 && |s.deck| >= 3 && forall sq | sq in s.held :: InBounds(s.grid, sq)
    ensures r.deck == s.deck[3..] && r.(grid := s.grid, deck := s.deck) == s
  {
    assert s.held[0] in s.held && s.held[1] in s.held && s.held[2] in s.held;
    var g1 := SetCard(s.grid, s.held[0], s.deck[0]);
    var g2 := SetCard(g1, s.held[1], s.deck[1]);
    var g3 := SetCard(g2, s.held[2], s.deck[2]);
    s.(grid := g3, deck := s.deck[3..])
  }

  /** The first half of `replaceCards`: condense when the deck is empty or the
      grid is wider than `defaultColumns`, refill otherwise. */
  ghost function Discard(s: BoardState): (r: BoardState)
    requires Valid(s) && |s.held| == 3 && Distinct(s.held)
    requires forall sq | sq in s.held :: InBounds(s.grid, sq)
    ensures r.scores == s.scores && r.active == s.active && r.queue == s.queue && r.votes == s.votes
    ensures r.held == s.held && r.columns == s.columns && r.timer == s.timer && r.timeOut == s.timeOut
  {
    if |s.deck| == 0 || Width(s) > s.columns then Condense(s) else (NonEmptyDeck(s); Refill(s))
  }

  /** The game is over when the deck is empty and no set is left on the grid;
      `replaceCards` and `checkVotes` then restart it. */
  ghost predicate Exhausted(s: BoardState) {
    |s.deck| == 0 && !HasSet(Flatten(s.grid))
  }

  /** `replaceCards`: discard the held cards; then, if the game is exhausted,
      reset to `newDeck`, the next generated deck. */
  ghost function Replace(s: BoardState, newDeck: seq<Card>): (r: BoardState)
    requires Valid(s) && |s.held| == 3 && Distinct(s.held)
    requires forall sq | sq in s.held :: InBounds(s.grid, sq)
    requires IsShuffledDeck(s.columns, newDeck)
    ensures !Exhausted(Discard(s)) ==> r == Discard(s)
    ensures Exhausted(Discard(s)) ==>
      && Flatten(r.grid) + r.deck == newDeck && Rectangular(r.grid, s.columns)
      && r.scores == map[] && r.active == NoPlayer && r.held == [] && r.queue == [] && r.votes == {}
  {
    var s1 := Discard(s);
    if Exhausted(s1) then
      FreshDeckSize(s.columns, newDeck);
      Reset(s1, newDeck)
    else s1
  }

  /** A non-empty deck whose size is a multiple of three holds at least three
      cards. */
  lemma NonEmptyDeck(s: BoardState)
    requires |s.deck| % 3 == 0 && |s.deck| != 0
    ensures |s.deck| >= 3
  {
  }

  /** A deck whose size is a multiple of three and too short to add from is
      empty. */
  lemma ShortDeckIsEmpty(n: nat)
    requires n % 3 == 0 && n < Rows
    ensures n == 0
  {
  }

  /** The cards left after taking out three held cards fill the narrower
      grid exactly. */
  lemma CondenseSize(s: BoardState)
    requires Valid(s) && |s.held| == 3 && Distinct(s.held)
    requires forall sq | sq in s.held :: InBounds(s.grid, sq)
    ensures |RemoveAll(Flatten(s.grid), Elements(HeldCards(s)))| == 3 * (Width(s) - 1)
    ensures multiset(RemoveAll(Flatten(s.grid), Elements(HeldCards(s)))) + multiset(HeldCards(s))
            == multiset(Flatten(s.grid))
  {
    var all, held := Flatten(s.grid), HeldCards(s);
    DistinctConcat(all, s.deck);
    HeldCardsDistinct(s);
    forall c | c in held ensures c in all {
      var k :| 0 <= k < 3 && held[k] == c;
      CardAtInFlatten(s.grid, s.held[k]);
    }
    RemoveAllDistinct(all, held);
    FlattenLength(s.grid, Width(s));
    assert |RemoveAll(all, Elements(held))| + 3 == |all| by {
      assert |multiset(RemoveAll(all, Elements(held))) + multiset(held)| == |multiset(all)|;
    }
  }

  /** Different squares of a grid without repeated cards hold different
      cards, so the three held cards are three different cards. */
  lemma HeldCardsDistinct(s: BoardState)
    requires |s.grid| == Rows && Distinct(Flatten(s.grid)) && Distinct(s.held)
    requires forall sq | sq in s.held :: InBounds(s.grid, sq)
    ensures Distinct(HeldCards(s))
  {
    var held := HeldCards(s);
    forall c | c in held ensures multiset(held)[c] <= 1 {
      var k :| 0 <= k < |held| && held[k] == c;
      forall k' | 0 <= k' < |held| && k' != k ensures held[k'] != c {
        DistinctAt(s.held, k, k');
        SquaresHoldDifferentCards(s.grid, s.held[k], s.held[k']);
      }
      OnlyOnce(held, k);
    }
  }

  lemma SquaresHoldDifferentCards(g: Grid, a: Square, b: Square)
    requires |g| == Rows && Distinct(Flatten(g)) && InBounds(g, a) && InBounds(g, b) && a != b
    ensures CardAt(g, a) != CardAt(g, b)
  {
    Flatten3(g);
    DistinctConcat(g[0] + g[1], g[2]);
    DistinctConcat(g[0], g[1]);
    if a.row == b.row {
      DistinctAt(g[a.row], a.col, b.col);
    } else {
      assert CardAt(g, a) in g[a.row] && CardAt(g, b) in g[b.row];
    }
  }

  /** A deck `generateRandomCards(columns)` may return is long enough to deal
      and holds no card twice. */
  lemma FreshDeckSize(columns: int, newDeck: seq<Card>)
    requires 1 <= columns <= 27 && IsShuffledDeck(columns, newDeck)
    ensures Rows * columns <= |newDeck| && |newDeck| % 3 == 0 && Distinct(newDeck)
  {
    ShuffledDeckFacts(columns, newDeck);
    DeckSizeFits(columns);
  }

  /** A shuffle of the generated deck has its size and repeats no card. */
  lemma ShuffledDeckFacts(columns: int, newDeck: seq<Card>)
    requires IsShuffledDeck(columns, newDeck)
    ensures |newDeck| == DeckSize(columns) && Distinct(newDeck)
  {
    var deck := UnshuffledDeck(columns);
    UnshuffledDeckContents(columns);
    assert |multiset(newDeck)| == |multiset(deck)|;
    DistinctSmaller(newDeck, deck);
  }

  /** The generated deck can fill a grid of `columns` columns. */
  lemma DeckSizeFits(columns: int)
    requires 1 <= columns <= 27
    ensures Rows * columns <= DeckSize(columns) && DeckSize(columns) % 3 == 0
  {
    assert Rows == 3;
  }

  // ---------------------------------------------------------------------------
  // Adding three cards

  /** `addCards`: row after row takes the next deck card; on an empty deck
      `remove()` throws before the row is extended. */
  function AddCards(s: BoardState): (r: BoardState)
    requires |s.grid| == Rows
    ensures !AddCardsThrows(s) ==> r.grid == AddColumn(s.grid, s.deck[..Rows]) && r.deck == s.deck[Rows..]
    ensures |s.deck| == 0 ==> r == s
    ensures r.held == s.held && r.votes == s.votes && r.scores == s.scores && r.active == s.active
    ensures r.queue == s.queue && r.columns == s.columns
  {
    var n := if |s.deck| < Rows then |s.deck| else Rows;
    s.(grid := seq(Rows, i requires 0 <= i < Rows => if i < n then s.grid[i] + [s.deck[i]] else s.grid[i]),
       deck := s.deck[n..])
  }

  predicate AddCardsThrows(s: BoardState) {
    |s.deck| < Rows
  }

  /** The first `n` rows extended by the first `n` deck cards, as `addCards`
      leaves them after `n` rows (all of them, or up to an empty deck). */
  lemma AddCardsRows(s: BoardState, g: Grid, n: nat)
    requires |s.grid| == Rows && n == (if |s.deck| < Rows then |s.deck| else Rows)
    requires |g| == Rows && forall i | 0 <= i < Rows :: g[i] == if i < n then s.grid[i] + [s.deck[i]] else s.grid[i]
    ensures AddCards(s) == s.(grid := g, deck := s.deck[n..])
  {
  }

  /** `checkVotes`: when there are as many votes as players, add three cards,
      clear the votes and, if that emptied the deck and no set is on the grid,
      reset to `newDeck`. */
  ghost function CheckVotes(s: BoardState, newDeck: seq<Card>): (r: BoardState)
    requires |s.grid| == Rows && 1 <= s.columns <= 27 && |s.deck| % 3 == 0
    requires IsShuffledDeck(s.columns, newDeck)
    ensures |s.votes| != |s.scores.Keys| || CheckVotesThrows(s) ==> r == s
    ensures r.scores.Keys <= s.scores.Keys
    ensures || (r.scores == s.scores && r.active == s.active && r.queue == s.queue && r.held == s.held)
            || (r.scores == map[] && r.active == NoPlayer && r.queue == [] && r.held == [] && r.votes == {})
  {
    if |s.votes| != |s.scores.Keys| then s
    else if AddCardsThrows(s) then
      ShortDeckIsEmpty(|s.deck|);
      AddCards(s)
    else Unanimous(s, newDeck)
  }

  /** The unanimous branch of `checkVotes` on a deck of at least three cards:
      add them, clear the votes, and restart from `newDeck` if the game is
      then exhausted. */
  ghost function Unanimous(s: BoardState, newDeck: seq<Card>): (r: BoardState)
    requires |s.grid| == Rows && |s.deck| >= Rows
    requires 1 <= s.columns <= 27 && IsShuffledDeck(s.columns, newDeck)
    ensures r.votes == {} && r.scores.Keys <= s.scores.Keys
    ensures || (r.scores == s.scores && r.active == s.active && r.queue == s.queue && r.held == s.held)
            || (r.scores == map[] && r.active == NoPlayer && r.queue == [] && r.held == [])
  {
    var s1 := AddCards(s).(votes := {});
    if Exhausted(s1) then
      FreshDeckSize(s.columns, newDeck);
      Reset(s1, newDeck)
    else s1
  }

  ghost predicate CheckVotesThrows(s: BoardState) {
    |s.votes| == |s.scores.Keys| && AddCardsThrows(s)
  }

  /** `vote`: ignored while the deck is empty, otherwise record the vote and
      check for unanimity. */
  ghost function Vote(s: BoardState, p: string, newDeck: seq<Card>): (r: BoardState)
    requires Valid(s) && IsShuffledDeck(s.columns, newDeck)
    ensures |s.deck| == 0 ==> r == s
  {
    if |s.deck| == 0 then s else CheckVotes(s.(votes := s.votes + {p}), newDeck)
  }

  // ---------------------------------------------------------------------------
  // Players

  /** `addPlayer`: a new id joins with score 0; a taken id changes nothing. */
  function AddPlayer(s: BoardState, p: string): (r: BoardState)
    ensures r.scores.Keys == s.scores.Keys + {p}
    ensures p !in s.scores ==> r.scores[p] == 0
    ensures forall q | q in s.scores :: r.scores[q] == s.scores[q]
    ensures r.(scores := s.scores) == s
  {
    if p in s.scores then s else s.(scores := s.scores[p := 0])
  }

  /** `removePlayer` as written: drop the score (the vote stays) and
      re-check unanimity. A departing declarer keeps the turn, and a
      departing player keeps a place in the declare queue. */
  ghost function RemovePlayerAsWritten(s: BoardState, p: string, newDeck: seq<Card>): (r: BoardState)
    requires Valid(s) && IsShuffledDeck(s.columns, newDeck)
    ensures p !in r.scores
    ensures |s.votes| != |s.scores.Keys - {p}| ==> r == s.(scores := s.scores - {p})
    ensures || (r.scores == s.scores - {p} && r.active == s.active && r.queue == s.queue && r.held == s.held)
            || (r.scores == map[] && r.active == NoPlayer && r.queue == [] && r.held == [] && r.votes == {})
  {
    CheckVotes(s.(scores := s.scores - {p}), newDeck)
  }

  /** A player leaving, as `removePlayer` evidently intends: the score goes,
      the player leaves the declare queue, and a departing declarer hands the
      turn on as a timeout does (held squares dropped, the queue head
      declares with a new timer), without the penalty. */
  function Depart(s: BoardState, p: string, now: int): (r: BoardState)
    requires Distinct(s.queue) && s.active !in s.queue
    ensures p != NoPlayer ==> r.active != p
    ensures p !in r.queue && multiset(r.queue) <= multiset(s.queue)
    ensures r.scores == s.scores - {p} && r.votes == s.votes && r.grid == s.grid && r.deck == s.deck
    ensures p != s.active || p == NoPlayer ==> r.active == s.active && r.held == s.held && r.timer == s.timer
    ensures p == s.active && p != NoPlayer ==> r.held == [] && (r.active == NoPlayer || r.timer == Pending)
    ensures p != s.active || p == NoPlayer ==> r.queue == RemoveFirst(s.queue, p)
    ensures p == s.active && p != NoPlayer && |s.queue| > 0 ==>
      && r.active == s.queue[0] && r.queue == s.queue[1..] && r.timeOut == now + TimeLimit && r.timer == Pending
    ensures p == s.active && p != NoPlayer && |s.queue| == 0 ==> r.active == NoPlayer && r.queue == []
  {
    var q := RemoveFirst(s.queue, p);
    RemoveFirstCount(s.queue, p);
    assert multiset(q)[p] == 0;
    var t := s.(scores := s.scores - {p}, queue := q);
    if p == s.active && p != NoPlayer then
      assert |q| > 0 ==> q[0] in multiset(q);
      Promote(t.(held := []), now, true)
    else t
  }

  /** `removePlayer(p)` at time `now`, corrected: `p` departs, then unanimity
      is re-checked. Afterwards `p` neither declares nor waits to. */
  ghost function RemovePlayer(s: BoardState, p: string, now: int, newDeck: seq<Card>): (r: BoardState)
    requires Valid(s) && IsShuffledDeck(s.columns, newDeck)
    ensures p !in r.scores && p !in r.queue
    ensures p != NoPlayer ==> r.active != p
  {
    DepartKeepsValid(s, p, now);
    CheckVotes(Depart(s, p, now), newDeck)
  }

  /** A departure keeps the invariant. */
  lemma DepartKeepsValid(s: BoardState, p: string, now: int)
    requires Valid(s)
    ensures Valid(Depart(s, p, now))
  {
    var r := Depart(s, p, now);
    DistinctSmaller(r.queue, s.queue);
    var q := RemoveFirst(s.queue, p);
    if p == s.active && p != NoPlayer && |q| > 0 {
      assert r.active in multiset(s.queue);
      DistinctHead(q);
    } else {
      assert r.active == s.active || r.active == NoPlayer;
      assert forall x | x in r.queue :: x in multiset(s.queue);
    }
  }

  // ---------------------------------------------------------------------------
  // Declaring and picking

  /** `declareSet` at time `now`: a caller already declaring or waiting
      changes nothing; while another player declares the caller joins the end
      of the queue; when nobody declares the caller starts declaring with a
      fresh deadline and a scheduled timer. */
  function Declare(s: BoardState, p: string, now: int): (r: BoardState)
    ensures p == r.active || p in r.queue
    ensures p == s.active || p in s.queue ==> r == s
    ensures s.active != NoPlayer && p != s.active && p !in s.queue ==>
      && r.active == s.active && r.queue == s.queue + [p]
      && r.timeOut == s.timeOut && r.timer == s.timer
    ensures s.active == NoPlayer && p != NoPlayer && p !in s.queue ==>
      && r.active == p && r.queue == s.queue
      && r.timeOut == now + TimeLimit && r.timer == Pending
    ensures r.grid == s.grid && r.deck == s.deck && r.scores == s.scores && r.held == s.held && r.votes == s.votes
  {
    if p == s.active || p in s.queue then s
    else if s.active != NoPlayer then s.(queue := s.queue + [p])
    else s.(active := p, timeOut := now + TimeLimit, timer := Pending)
  }

  /** The head of the declare queue becomes the declarer, or nobody. */
  function Promote(s: BoardState, now: int, reschedule: bool): (r: BoardState)
    ensures |s.queue| > 0 ==>
      && r.active == s.queue[0] && r.queue == s.queue[1..] && r.timeOut == now + TimeLimit
      && r.timer == (if reschedule then Pending else s.timer)
    ensures |s.queue| == 0 ==> r.active == NoPlayer && r.queue == [] && r.timer == s.timer
    ensures r.grid == s.grid && r.deck == s.deck && r.scores == s.scores && r.held == s.held && r.votes == s.votes
  {
    if |s.queue| > 0 then
      s.(active := s.queue[0], queue := s.queue[1..], timeOut := now + TimeLimit,
         timer := if reschedule then Pending else s.timer)
    else s.(active := NoPlayer)
  }

  /** `timedOut(p)` at time `now`: `p` loses points, the held squares are
      dropped and the queue head (with a new timer) or nobody declares. */
  function TimedOut(s: BoardState, p: string, now: int): (r: BoardState)
    ensures TimedOutThrows(s, p) ==> r == s
    ensures !TimedOutThrows(s, p) ==>
      && r.held == [] && r.scores.Keys == s.scores.Keys && r.scores[p] == s.scores[p] - PointsLost
      && (forall q | q in s.scores && q != p :: r.scores[q] == s.scores[q])
      && (if |s.queue| > 0
          then r.active == s.queue[0] && r.queue == s.queue[1..] && r.timer == Pending && r.timeOut == now + TimeLimit
          else r.active == NoPlayer && r.queue == [])
    ensures r.grid == s.grid && r.deck == s.deck && r.votes == s.votes
  {
    if p !in s.scores then s
    else Promote(s.(scores := s.scores[p := s.scores[p] - PointsLost], held := []), now, true)
  }

  /** `scores.get(p)` of an unknown player unboxes null. */
  predicate TimedOutThrows(s: BoardState, p: string) {
    p !in s.scores
  }

  /** Once the timer is cancelled the third pick can still not be resolved:
      `scores.get` of an unregistered player unboxes null, or `checkSet`
      reads a square off the grid. */
  predicate ResolutionThrows(s: BoardState, p: string) {
    p !in s.scores || exists sq | sq in s.held :: !InBounds(s.grid, sq)
  }

  /** `pickCard(sq, p)` at time `now`, with `newDeck` the deck a reset would
      use: ignored unless `p` declares; a held square is let go; otherwise the
      square is held, and the third one is settled. An exception on the way
      leaves the square held, and the timer cancelled if it was reached. */
  ghost function Pick(s: BoardState, sq: Square, p: string, now: int, newDeck: seq<Card>): (r: BoardState)
    requires Valid(s) && IsShuffledDeck(s.columns, newDeck)
    ensures p != s.active ==> r == s
    ensures p == s.active && sq in s.held ==> r == s.(held := RemoveFirst(s.held, sq))
    ensures p == s.active && sq !in s.held && |s.held| + 1 != 3 ==> r == s.(held := s.held + [sq])
    ensures PickThrows(s, sq, p) ==>
      r == s.(held := s.held + [sq], timer := if s.timer == Unscheduled then Unscheduled else Cancelled)
  {
    if p != s.active then s
    else if sq in s.held then s.(held := RemoveFirst(s.held, sq))
    else if |s.held| + 1 != 3 || s.timer == Unscheduled then s.(held := s.held + [sq])
    else if ResolutionThrows(Settling(s, sq), p) then Settling(s, sq)
    else
      DistinctAppendOne(s.held, sq);
      Settle(Settling(s, sq), p, now, newDeck)
  }

  /** The board at the moment a third pick is settled: the square appended
      and the timer cancelled. */
  function Settling(s: BoardState, sq: Square): (r: BoardState)
    ensures r.held == s.held + [sq] && r.timer == Cancelled
  {
    s.(held := s.held + [sq], timer := Cancelled)
  }

  /** Settling three held squares: a set is found or missed; either way the
      held squares are cleared last. */
  ghost function Settle(s: BoardState, p: string, now: int, newDeck: seq<Card>): (r: BoardState)
    requires Valid(s) && |s.held| == 3 && !ResolutionThrows(s, p) && IsShuffledDeck(s.columns, newDeck)
    ensures r.held == []
  {
    if HeldFormSet(s) then Found(s, p, newDeck) else Missed(s, p, now)
  }

  /** A found set is rewarded, the turn and the votes are cleared, and the
      held cards are replaced -- unless that exhausts the game, which then
      restarts from `newDeck` and wipes every score, including the one just
      awarded. */
  ghost function Found(s: BoardState, p: string, newDeck: seq<Card>): (r: BoardState)
    requires Valid(s) && |s.held| == 3 && !ResolutionThrows(s, p) && IsShuffledDeck(s.columns, newDeck)
    ensures r.held == [] && r.active == NoPlayer && r.queue == [] && r.votes == {}
    ensures var a := Award(s, p); var d := Discard(a);
      && (!Exhausted(d) ==> r.scores == a.scores)
      && (Exhausted(d) ==> r.scores == map[] && Flatten(r.grid) + r.deck == newDeck)
  {
    var a := Award(s, p);
    Replace(a, newDeck).(held := [])
  }

  /** A miss costs `PointsLost` and hands the turn to the queue head, without
      scheduling a new timer, or to nobody; the cards stay where they are. */
  function Missed(s: BoardState, p: string, now: int): (r: BoardState)
    requires p in s.scores
    ensures r.held == [] && r.scores == s.scores[p := s.scores[p] - PointsLost]
    ensures r.grid == s.grid && r.deck == s.deck && r.votes == s.votes && r.timer == s.timer
    ensures if |s.queue| > 0 then r.active == s.queue[0] && r.queue == s.queue[1..] && r.timeOut == now + TimeLimit
            else r.active == NoPlayer && r.queue == []
  {
    Promote(s.(scores := s.scores[p := s.scores[p] - PointsLost]), now, false).(held := [])
  }

  /** The bookkeeping of a found set before its cards are replaced. */
  function Award(s: BoardState, p: string): (r: BoardState)
    requires p in s.scores
    ensures r.scores == s.scores[p := s.scores[p] + PointsWon]
    ensures r.grid == s.grid && r.deck == s.deck && r.held == s.held && r.columns == s.columns
    ensures Valid(s) ==> Valid(r)
  {
    s.(scores := s.scores[p := s.scores[p] + PointsWon], votes := {}, queue := [], active := NoPlayer)
  }

  /** The third pick throws: `result.cancel` on a timer never scheduled, or
      a failure after cancelling it. */
  ghost predicate PickThrows(s: BoardState, sq: Square, p: string) {
    && p == s.active && sq !in s.held && |s.held| + 1 == 3
    && (s.timer == Unscheduled || ResolutionThrows(Settling(s, sq), p))
  }

  lemma DistinctAppendOne<T>(s: seq<T>, x: T)
    requires Distinct(s) && x !in s
    ensures Distinct(s + [x])
  {
    DistinctAppend(s, [x]);
  }
}
