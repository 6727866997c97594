# Set game board, modelled in Dafny

This project models `Board`, the game board of a multiplayer "Set" card game. Each card has four
attributes: color, number, shading and shape, each with three values. Three cards form a set when
every attribute is all-equal or all-different across them.

The board holds:

- a grid of three rows of cards;
- the remaining deck;
- the players' scores;
- the declaring player and the squares they hold;
- the queue of players waiting to declare;
- the votes to add three cards.

The model is split into modules:

- `Cards` (cards.dfy) is the card algebra. It covers the set rule, the parity test of `checkSet`,
  `missingCard`, and the pair search of `existsSet`.
- `DeckGen` (deck.dfy) is the deck enumeration of `generateRandomCards` before its shuffle. It is
  written as the nested loops, one method per loop level, and proved to yield 3, 9, 27 or 81
  distinct cards.
- `Grid` (grid.dfy) holds squares, the row-major flattening of the grid, `setCard`, dealing rows
  and adding a column.
- `Game` (game.dfy) is the board's state as a value (`BoardState`). Each state-changing operation
  is a function from the state before to the state after. A Java exception is modelled as the
  state the operation left at the throw, and a `...Throws` predicate says when it throws. `Valid`
  is the representation invariant: three rectangular rows of at least one column, no card twice
  among the grid and the deck, a deck size that is a multiple of three, no square held twice, a
  queue with no repeats that never holds the declarer, and, whenever someone declares, a timer
  that was scheduled at least once (pending, or cancelled by a third pick: after a miss the next
  declarer keeps the cancelled timer, as `MissHandsTurnWithoutTimer` shows).
- `ReplaceProofs`, `TurnProofs` and `VoteProofs` (replace.dfy, turns.dfy, votes.dfy) prove what
  replacing a found set, the turn state machine, and the players and votes do.
- `removePlayer` is modelled twice. `RemovePlayerAsWritten` is the source. `RemovePlayer` is the corrected departure that the board uses (see Findings).
- `SetBoard` (board.dfy) is the mutable `Board` class. Its fields are updated in place. Each
  method's `ensures` ties the new fields, read as `State()`, to the matching `Game` function
  applied to the old fields. The public game operations (`AddPlayer`, `RemovePlayer`, `CheckVotes`,
  `Vote`, `DeclareSet`, `TimedOut`, `PickCard`) also keep `Valid()`, and a valid board can be
  constructed. The lower-level mutators (`SetCard`, `ResetGame`, `ResetTimeout`, `AddCards`,
  `CondenseCards`, `ReplaceCards`, `RefillHeld`) promise only their new fields: `SetCard` and
  `ResetGame` can put a card on the board twice. The Java loops are `for` loops
  with invariants, one method per loop level.

The module names are the model's own. The source is the single class `Board.java`.

Inputs the model takes as parameters:

- `now` stands for `System.currentTimeMillis()`.
- `newDeck` stands for the shuffled deck that `generateRandomCards(defaultColumns)` would return
  for a restart. `IsShuffledDeck` requires it to be a permutation of the generated deck.
- The future `result` of the declare timer is a three-state `Timer`:
  - `Unscheduled`: still null;
  - `Pending`: scheduled;
  - `Cancelled`: cancelled by a third pick.

## Model

| member | source | states |
|---|---|---|
| Cards.MissingCard | src/main/java/setgame/Board.java:673-713 | in each attribute the result keeps the value the two cards share, or else differs from both |
| Cards.IsSet | src/main/java/setgame/Board.java:375-391 | the rule of the game that `checkSet` decides: each attribute all equal or all different |
| Cards.HasSet | src/main/java/setgame/Board.java:653-665 | what `existsSet` searches for: a pair, `i < j` in row-major order, whose missing card is on the grid |
| Cards.OtherColorIsFirstOther | src/main/java/setgame/Board.java:683-685 | the value used for differing colors is the first of `values()` left after `removeAll` of the two colors |
| Cards.OtherNumberIsFirstOther | src/main/java/setgame/Board.java:691-693 | the same for numbers |
| Cards.OtherShadingIsFirstOther | src/main/java/setgame/Board.java:699-701 | the same for shadings |
| Cards.OtherShapeIsFirstOther | src/main/java/setgame/Board.java:707-709 | the same for shapes |
| Cards.OtherColor | src/main/java/setgame/Board.java:683-685 | the color chosen for two differing colors is neither of them |
| Cards.OtherNumber | src/main/java/setgame/Board.java:691-693 | the number chosen for two differing numbers is neither of them |
| Cards.OtherShading | src/main/java/setgame/Board.java:699-701 | the shading chosen for two differing shadings is neither of them |
| Cards.OtherShape | src/main/java/setgame/Board.java:707-709 | the shape chosen for two differing shapes is neither of them |
| Cards.FirstOther | src/main/java/setgame/Board.java:683-685 | on an enum's three distinct values, `removeAll` of two values leaves a first element, and it is neither of them |
| Cards.FirstOtherOfThree | src/main/java/setgame/Board.java:683-685 | on three distinct values, `get(0)` after the removal is the first listed value that is neither removed value |
| Cards.MissingCardCompletesSet | src/main/java/setgame/Board.java:673-713 | the two cards and their missing card form a set |
| Cards.MissingCardUnique | src/main/java/setgame/Board.java:673-713 | any card completing a set with `a` and `b` is `missingCard(a, b)` |
| Cards.MissingCardSymmetric | src/main/java/setgame/Board.java:673-713 | `missingCard(a, b) == missingCard(b, a)` |
| Cards.MissingCardDiffers | src/main/java/setgame/Board.java:673-713 | for two different cards the missing card differs from both |
| Cards.ParityDecidesSet | src/main/java/setgame/Board.java:391 | for three cards, the product of the four distinct-value counts is odd exactly when the cards form a set |
| Cards.ParityDecidesSetOf | src/main/java/setgame/Board.java:384-391 | the same for any three-card sequence |
| Cards.ThreeValuesCount | src/main/java/setgame/Board.java:391 | three values have 1, 2 or 3 distinct values, and an odd count means all equal or all different |
| Cards.OddProduct4 | src/main/java/setgame/Board.java:391 | a product of four counts is odd exactly when every count is odd |
| Cards.AttributesOfAppend | src/main/java/setgame/Board.java:385-389 | reading one more card adds its four values to the four attribute sets |
| Cards.HasSetIffSetOnBoard | src/main/java/setgame/Board.java:653-665 | on distinct cards, the pair search finds a pair whose missing card is present exactly when three different positions hold a set |
| DeckGen.GenerateCards | src/main/java/setgame/Board.java:45-80 | the color loop builds the unshuffled deck, color by color |
| DeckGen.UnshuffledDeck | src/main/java/setgame/Board.java:45-80 | the list `generateRandomCards` fills before its shuffle, color, number, shading and shape nested in that order |
| DeckGen.AppendColorBlock | src/main/java/setgame/Board.java:57-75 | one color iteration appends one card when `attributes == 1`, else the whole number loop |
| DeckGen.AppendNumberBlock | src/main/java/setgame/Board.java:61-73 | one number iteration appends one card when `attributes == 2`, else the whole shading loop |
| DeckGen.AppendShadingBlock | src/main/java/setgame/Board.java:65-71 | one shading iteration appends one card when `attributes == 3`, else the four-shape loop |
| DeckGen.UnshuffledDeckContents | src/main/java/setgame/Board.java:45-80 | the deck holds 3, 9 or 27 cards for 1, 2 or 3 attributes and 81 for any other count; it has no repeats; it holds exactly the cards whose non-varying attributes are One, Solid and Squiggle |
| DeckGen.DeckClosed | src/main/java/setgame/Board.java:45-80 | the missing card of two deck cards is a deck card |
| Grid.Flatten | src/main/java/setgame/Board.java:654 | `flatMap(List::stream)`: the rows' cards in row-major order |
| Grid.SetCard | src/main/java/setgame/Board.java:329-331 | the square gets the card; every other square keeps its card; the grid keeps its shape |
| Grid.Deal | src/main/java/setgame/Board.java:175-182 | three rows of `cols` cards whose row-major reading is the first `3*cols` cards |
| Grid.AddColumn | src/main/java/setgame/Board.java:534-537 | each row gains its new card at its end |
| Grid.FlattenSetCard | src/main/java/setgame/Board.java:329-331 | `setCard` exchanges exactly one card among the grid's cards |
| Grid.FlattenAddColumn | src/main/java/setgame/Board.java:533-538 | adding a column adds exactly the new cards |
| Grid.FlattenRemoveAll | src/main/java/setgame/Board.java:493-496 | `removeAll` on every row, then concatenation, equals `removeAll` on the row-major reading |
| Seqs.RemoveAll | src/main/java/setgame/Board.java:494 | `List.removeAll`: drops every occurrence of the given values and keeps the others |
| Seqs.RemoveFirst | src/main/java/setgame/Board.java:616 | `List.remove(Object)`: drops the first occurrence, with the elements before and after it in their order; absent, nothing changes |
| Seqs.FirstIndex | src/main/java/setgame/Board.java:616 | the position `List.remove(Object)` removes: it holds the value, and no earlier position does |
| Seqs.RemoveFirstCount | src/main/java/setgame/Board.java:616 | exactly one copy of a present value goes, and the length drops by one |
| Game.HeldCards | src/main/java/setgame/Board.java:486-490 | the cards under the held squares, in holding order |
| Game.Valid | src/main/java/setgame/Board.java:199-206 | `checkRep` (non-empty, rectangular grid), with the facts the operations keep: `defaultColumns` between 1 and 27, three rows, no card twice in grid and deck, a deck size that is a multiple of three, distinct held squares, a repeat-free queue without the declarer, and, whenever someone declares, a timer scheduled at least once (pending, or cancelled by a third pick) |
| Game.HeldFormSet | src/main/java/setgame/Board.java:379-392 | the answer of `checkSet` on the held squares |
| Game.Reset | src/main/java/setgame/Board.java:168-194 | the grid is 3 rows of `defaultColumns` cards; the grid read row-major, then the deck, is exactly `cards`; scores, held squares, votes and queue are empty; nobody declares |
| Game.Initial | src/main/java/setgame/Board.java:158-162 | `defaultColumns` is `attributes`; no timer has been scheduled |
| Game.Condense | src/main/java/setgame/Board.java:482-507 | rows one column narrower, holding the remaining cards row-major with exactly the three held cards gone; the deck is unchanged |
| Game.Refill | src/main/java/setgame/Board.java:516-520 | only the grid and the deck change, and the deck loses its first three cards |
| Game.Exhausted | src/main/java/setgame/Board.java:522-526 | the restart condition: an empty deck and no set on the grid |
| Game.Replace | src/main/java/setgame/Board.java:512-528 | without exhaustion the result is the discard; on exhaustion the grid and deck are dealt from `newDeck`, and scores, turn, queue, votes and held squares are cleared |
| Game.Discard | src/main/java/setgame/Board.java:513-521 | the replacing step touches only the grid and the deck; players, turn, votes, held squares, timer and deadline stay |
| Game.AddCards | src/main/java/setgame/Board.java:533-538 | with three deck cards, each row gains the next one; on an empty deck nothing changes (the throw) |
| Game.AddCardsRows | src/main/java/setgame/Board.java:534-537 | after `n` rows of the loop, the first `n` rows carry the first `n` deck cards |
| Game.AddCardsThrows | src/main/java/setgame/Board.java:535 | `remove()` on a deck of fewer than three cards throws |
| Game.CheckVotes | src/main/java/setgame/Board.java:556-567 | short of unanimity, or when adding throws, nothing changes; no player is added; either scores and turn stay, or a restart clears scores, turn, queue, held squares and votes |
| Game.Unanimous | src/main/java/setgame/Board.java:557-565 | with three or more cards left, the votes are cleared, and either scores and turn stay or a restart clears scores, turn, queue and held squares |
| Game.CheckVotesThrows | src/main/java/setgame/Board.java:557-558 | unanimity reached while `addCards` throws |
| Game.Vote | src/main/java/setgame/Board.java:544-551 | a vote on an empty deck changes nothing |
| Game.AddPlayer | src/main/java/setgame/Board.java:255-265 | the id joins with score 0 when new; otherwise nothing changes; no other score moves |
| Game.RemovePlayerAsWritten | src/main/java/setgame/Board.java:432-436 | `removePlayer` as written: the score goes; short of unanimity nothing else changes; otherwise either the other scores, the turn, the queue and the held squares stay, or a restart clears them all |
| Game.Depart | src/main/java/setgame/Board.java:432-436 | the corrected departure: the player neither declares nor waits; a waiting player leaves the queue, the rest in order; a departing declarer's held squares are dropped and the queue head declares with deadline `now + 5000` and a timer, the queue moving up, or, with an empty queue, nobody declares; scores lose only that player; votes and cards stay |
| Game.RemovePlayer | src/main/java/setgame/Board.java:432-436 | the corrected `removePlayer`: afterwards the player has no score, is not queued and does not declare |
| Game.DepartKeepsValid | src/main/java/setgame/Board.java:432-436 | the corrected departure keeps the invariant |
| Game.Declare | src/main/java/setgame/Board.java:442-454 | an active or queued caller changes nothing; while another player declares, that player keeps the turn and the caller joins the end of the queue; when nobody declares, the caller declares with deadline `now + 5000` and a scheduled timer; cards, scores and held squares stay |
| Game.Promote | src/main/java/setgame/Board.java:595-601 | the queue head declares with deadline `now + 5000` (and a new timer when rescheduling), or nobody declares; cards, scores, held squares and votes stay |
| Game.TimedOutThrows | src/main/java/setgame/Board.java:590 | `scores.get` of an unknown id unboxes null |
| Game.TimedOut | src/main/java/setgame/Board.java:589-603 | an unknown id throws and changes nothing; otherwise the player loses 5, held squares are cleared, and the queue head declares with deadline `now + 5000` and a new timer, or nobody declares |
| Game.Pick | src/main/java/setgame/Board.java:611-647 | ignored unless the caller declares; a held square is let go; a first or second square is appended; a throw leaves the square appended and the timer cancelled if it was reached |
| Game.ResolutionThrows | src/main/java/setgame/Board.java:627-628 | after the cancel, `scores.get` of an unknown declarer or `checkSet`'s read of a square off the grid throws |
| Game.PickThrows | src/main/java/setgame/Board.java:620-628 | a third pick throws: at `result.cancel` with no timer ever scheduled, or at a resolution throw |
| Game.Settling | src/main/java/setgame/Board.java:620-626 | the third square is appended and the timer cancelled |
| Game.Settle | src/main/java/setgame/Board.java:625-645 | resolving the third pick always ends with no square held |
| Game.Found | src/main/java/setgame/Board.java:628-633 | a set clears the turn, votes, queue and held squares; the award stands unless the replacement exhausts the game, which restarts from `newDeck` with every score wiped |
| Game.Missed | src/main/java/setgame/Board.java:634-644 | a miss costs 5 and clears the held squares; the queue head declares without a new timer, or nobody does; the cards stay |
| Game.Award | src/main/java/setgame/Board.java:629-632 | the finder gains 10; the cards are untouched; the invariant is kept |
| Game.CondenseSize | src/main/java/setgame/Board.java:492-506 | after the three held cards are removed, exactly enough cards remain to deal rows one column narrower |
| Game.HeldCardsDistinct | src/main/java/setgame/Board.java:486-490 | distinct held squares of a grid with no repeated card hold distinct cards |
| Game.FreshDeckSize | src/main/java/setgame/Board.java:524 | a restart deck can fill the grid, has a size that is a multiple of three, and has no repeats |
| ReplaceProofs.RefillDiscardsHeld | src/main/java/setgame/Board.java:516-520 | refilling takes exactly the three held cards out of play (grid and deck together) |
| ReplaceProofs.CondenseDiscardsHeld | src/main/java/setgame/Board.java:482-507 | condensing takes exactly the three held cards out of play |
| ReplaceProofs.RefillKeepsValid | src/main/java/setgame/Board.java:516-520 | the refill branch keeps the invariant |
| ReplaceProofs.RefillSquares | src/main/java/setgame/Board.java:516-520 | the refill keeps the grid's shape; the held squares receive the next three deck cards in holding order; no other square changes |
| ReplaceProofs.RefillExchanges | src/main/java/setgame/Board.java:516-520 | the refill exchanges the three held cards for the first three deck cards |
| ReplaceProofs.DiscardRemovesHeld | src/main/java/setgame/Board.java:513-521 | either branch removes exactly the three held cards from the grid and deck together |
| ReplaceProofs.CondenseKeepsValid | src/main/java/setgame/Board.java:482-507 | condensing keeps the invariant, unless it empties a one-column board with an empty deck |
| ReplaceProofs.ReplaceKeepsValid | src/main/java/setgame/Board.java:512-528 | `replaceCards` keeps the invariant, restart included |
| ReplaceProofs.ResetKeepsValid | src/main/java/setgame/Board.java:168-194 | dealing a distinct deck, whose size is a multiple of three and long enough, yields a valid board |
| TurnProofs.PromoteKeepsValid | src/main/java/setgame/Board.java:595-601 | handing the turn to the queue head (or to nobody) keeps the invariant |
| TurnProofs.SettleKeepsValid | src/main/java/setgame/Board.java:625-645 | resolving a third pick, found or missed, keeps the invariant |
| TurnProofs.DeclareKeepsValid | src/main/java/setgame/Board.java:442-454 | the queue never holds the declarer or anyone twice |
| TurnProofs.TimedOutKeepsValid | src/main/java/setgame/Board.java:589-603 | `timedOut` keeps the invariant |
| TurnProofs.PickKeepsValid | src/main/java/setgame/Board.java:611-647 | `pickCard` keeps the invariant |
| TurnProofs.PickHoldsAtMostTwo | src/main/java/setgame/Board.java:620-645 | without an exception at most two squares stay held between picks, and none after a settled third pick |
| TurnProofs.PickToggles | src/main/java/setgame/Board.java:615-617 | re-picking a held square removes it at its position; the squares before and after it keep their order |
| TurnProofs.SettleDecides | src/main/java/setgame/Board.java:625-645 | the third pick is found exactly when the three held cards form a set, and missed otherwise |
| TurnProofs.FoundDiscardsHeld | src/main/java/setgame/Board.java:628-633 | without a restart, a found set takes exactly the three held cards out of play |
| TurnProofs.MissHandsTurnWithoutTimer | src/main/java/setgame/Board.java:634-642 | after a miss the queue head declares with a new deadline but the timer stays cancelled |
| TurnProofs.ThirdPickOfUnregistered | src/main/java/setgame/Board.java:620-627 | the third pick of a declarer with no score holds the square, cancels the timer and throws at `scores.get`; the board stays valid |
| TurnProofs.FourthPick | src/main/java/setgame/Board.java:620-625 | with three squares held, a pick of a fresh square is simply held, making four, and the board stays valid |
| TurnProofs.PickSettles | src/main/java/setgame/Board.java:620-645 | a third pick that does not throw settles the board with the square appended |
| VoteProofs.AddCardsThrowsOnlyWhenEmpty | src/main/java/setgame/Board.java:533-538 | on a valid board `addCards` throws exactly on an empty deck, and then before changing anything |
| VoteProofs.AddCardsKeepsCards | src/main/java/setgame/Board.java:533-538 | adding cards moves three cards from the deck to the grid; the cards in play are the same |
| VoteProofs.AddCardsKeepsValid | src/main/java/setgame/Board.java:533-538 | `addCards` keeps the invariant |
| VoteProofs.CheckVotesKeepsValid | src/main/java/setgame/Board.java:556-567 | `checkVotes` keeps the invariant |
| VoteProofs.CheckVotesWaits | src/main/java/setgame/Board.java:556-567 | short of unanimity, or on an empty deck, nothing changes |
| VoteProofs.CheckVotesAddsColumn | src/main/java/setgame/Board.java:556-567 | on unanimity each row gains one card, the deck shrinks by three, and the votes are cleared (or the game restarts) |
| VoteProofs.VoteKeepsValid | src/main/java/setgame/Board.java:544-551 | `vote` keeps the invariant |
| VoteProofs.VoteRecorded | src/main/java/setgame/Board.java:544-551 | a vote on a non-empty deck is recorded, or completes unanimity and adds the cards |
| VoteProofs.AddPlayerKeepsValid | src/main/java/setgame/Board.java:255-265 | `addPlayer` keeps the invariant |
| VoteProofs.RemovePlayerKeepsValid | src/main/java/setgame/Board.java:432-436 | the corrected `removePlayer` keeps the invariant |
| VoteProofs.RemovePlayerKeepsVote | src/main/java/setgame/Board.java:432-434 | as written, a departing player's score goes but their vote stays |
| VoteProofs.DepartedVoteCounts | src/main/java/setgame/Board.java:432-434 | as written, when a voter leaves and the vote count now equals the smaller player count, cards are added although a remaining player never voted |
| VoteProofs.LastPlayerLeavingAddsCards | src/main/java/setgame/Board.java:432-434 | as written, when the last player leaves with no votes cast, zero votes equal zero players and three cards are added |
| VoteProofs.CorrectionOnlyMovesTurn | src/main/java/setgame/Board.java:432-436 | the corrected departure leaves scores, votes and cards exactly as `removePlayer` as written does, so the vote behaviour above carries over |
| VoteProofs.CheckVotesOnCards | src/main/java/setgame/Board.java:556-567 | `checkVotes` decides scores, votes and cards from scores, votes and cards alone |
| VoteProofs.DepartedDeclarerWedgesTurn | src/main/java/setgame/Board.java:432-436 | as written, a departed declarer keeps the turn on a valid board; `timedOut` for it throws and changes nothing; its third pick throws after holding the square and cancelling the timer, leaving three squares held and the board valid |
| SetBoard.DealRows | src/main/java/setgame/Board.java:175-182 | the counter-driven nested loops deal exactly `Deal(cards, cols)` |
| SetBoard.DealRow | src/main/java/setgame/Board.java:177-180 | the inner loop takes `cols` consecutive cards from the counter on |
| SetBoard.StripRows | src/main/java/setgame/Board.java:492-496 | the loop collects `removeAll` of the held cards over the row-major reading |
| SetBoard.Board.constructor | src/main/java/setgame/Board.java:158-162 | the new board is `Initial(cards, attributes)`, and it is valid for a distinct deck of a suitable size |
| SetBoard.Board.ResetGame | src/main/java/setgame/Board.java:168-194 | the fields become `Reset` of the old ones |
| SetBoard.Board.IsPlayer | src/main/java/setgame/Board.java:272-274 | true exactly for registered ids |
| SetBoard.Board.NumRows | src/main/java/setgame/Board.java:280-282 | always `DEFAULT_ROWS` on a valid board |
| SetBoard.Board.NumCols | src/main/java/setgame/Board.java:288-290 | the common row length, at least one, with `3 * cols` cards on the grid |
| SetBoard.Board.GetRow | src/main/java/setgame/Board.java:297-299 | the row's cards, square by square |
| SetBoard.Board.GetColumn | src/main/java/setgame/Board.java:306-313 | one card per row, each the card on that row's square in the column |
| SetBoard.Board.GetCard | src/main/java/setgame/Board.java:320-322 | the card on the square, which is one of the grid's cards |
| SetBoard.Board.NumPlayers | src/main/java/setgame/Board.java:581-583 | the number of registered ids |
| SetBoard.Board.CheckSet | src/main/java/setgame/Board.java:379-392 | throws exactly when a held square is off the grid; otherwise it answers the parity test, which for three held squares is the set rule |
| SetBoard.Board.ExistsSet | src/main/java/setgame/Board.java:653-665 | true exactly when some pair `i < j` of the row-major cards has its missing card on the grid |
| SetBoard.Board.SetCard | src/main/java/setgame/Board.java:329-331 | only the square changes |
| SetBoard.Board.ResetTimeout | src/main/java/setgame/Board.java:475-477 | the deadline becomes `now + 5000`; nothing else changes |
| SetBoard.Board.AddPlayer | src/main/java/setgame/Board.java:255-265 | returns true exactly for a new id; the fields become `Game.AddPlayer` of the old ones; validity is kept |
| SetBoard.Board.RemovePlayer | src/main/java/setgame/Board.java:432-436 | the corrected `removePlayer` (see Findings): the fields become `Game.RemovePlayer`; it throws exactly when the re-check adds cards to an empty deck; validity is kept |
| SetBoard.Board.Leave | src/main/java/setgame/Board.java:432-436 | the corrected departure: the fields become `Depart` of the old ones |
| SetBoard.Board.AddCards | src/main/java/setgame/Board.java:533-538 | the fields become `Game.AddCards`; it throws exactly when fewer than three deck cards remain |
| SetBoard.Board.CheckVotes | src/main/java/setgame/Board.java:556-567 | the fields become `Game.CheckVotes`; validity is kept |
| SetBoard.Board.Vote | src/main/java/setgame/Board.java:544-551 | the fields become `Game.Vote`; validity is kept |
| SetBoard.Board.CardsHeld | src/main/java/setgame/Board.java:486-490 | the loop reads the held cards in holding order |
| SetBoard.Board.CondenseCards | src/main/java/setgame/Board.java:482-507 | the fields become `Condense` of the old ones |
| SetBoard.Board.RefillHeld | src/main/java/setgame/Board.java:516-520 | the fields become `Refill` of the old ones |
| SetBoard.Board.ReplaceCards | src/main/java/setgame/Board.java:512-528 | the fields become `Replace` of the old ones |
| SetBoard.Board.DeclareSet | src/main/java/setgame/Board.java:442-454 | the fields become `Declare`; validity is kept |
| SetBoard.Board.TimedOut | src/main/java/setgame/Board.java:589-603 | the fields become `Game.TimedOut`; it throws exactly for an unknown id; validity is kept |
| SetBoard.Board.PickCard | src/main/java/setgame/Board.java:611-647 | the fields become `Pick`; it throws exactly as `PickThrows` says; validity is kept |
| SetBoard.Board.SettlePick | src/main/java/setgame/Board.java:626-645 | it throws, changing nothing, for an unknown player or a square off the grid; otherwise the fields become `Settle` |
| SetBoard.Board.RewardSet | src/main/java/setgame/Board.java:628-633 | the fields become `Found` |
| SetBoard.Board.PenaliseMiss | src/main/java/setgame/Board.java:634-642 | the fields become `Missed` |

## Left out

- The timers are not modelled: the `ScheduledExecutorService`, `scheduleTimeout`, `scheduleInactivity` and `cancelInactivity`. What remains is the three-state `Timer`, and `timedOut(p)` as an operation any caller may invoke. The race between a firing timer and a third pick is not modelled.
- `System.currentTimeMillis()` is not modelled: it is the parameter `now`.
- `Collections.shuffle` is not modelled: a restart takes a `newDeck` that is any permutation of the generated deck.
- Listeners, `callListeners`, `addBoardListener` and `removeBoardListener` are not modelled. They are foreign callbacks with no effect on the board's state.
- `synchronized` and the concurrent collection wrappers are not modelled. The model is sequential.
- `equals`, `sameValue`, `hashCode` and `toString` are not modelled. They compare executor and future objects and carry no game meaning.
- Some getters return only a copy of a field and are read directly from `State()`: `getSquaresHeld`, `getScores`, `getDeclarer`, `getTimeout` and `getVotes`.
- `checkRep` is not a method. Its assertions are part of `Valid`.
- Scores are unbounded integers, so Java's 32-bit `int` overflow is not modelled.
- `Card.java` is not part of this model. `Card` is a datatype of four three-valued enums compared by value. Apart from One, Solid and Squiggle, the value names and their declaration order are the model's own. Nothing observable depends on them: `MissingCardUnique` makes the value `missingCard` picks unique whatever the order, and the shuffle hides the order of the deck.
- Helper methods that split one Java method's inline loops or branches into smaller pieces carry no behaviour of their own:
  - `CardsHeld`, `StripRows`, `DealRow`, `RefillHeld` and `ExtendRow` are loop pieces;
  - `SettlePick`, `RewardSet`, `AwardPoints`, `PenaliseMiss` and `DropScore` are branch pieces.
- SetBoard.Board.CondenseCards: requires `Valid()`, three distinct held squares on the grid, and, like the source, does not look at `cardsRemaining`. The Java method indexes `squaresHeld.get(0..2)` and fails otherwise; only its calls from `replaceCards` after a third pick are modelled.
- SetBoard.Board.ReplaceCards: requires the same, since `pickCard` is its only caller.
- SetBoard.Board.PickCard: requires `Valid()`, which includes, whenever someone declares, a timer that was scheduled at least once (pending, or cancelled by a third pick). The constructor gives `Valid()` only for 1 to 27 columns and a deck with no repeats whose size is a multiple of three. On any other board (13 cards with 4 columns, say) the Java game is playable, but none of the operations requiring `Valid()` is modelled there.
- TurnProofs.PickHoldsAtMostTwo: assumes the pick does not throw. A declarer with no score makes every third pick throw after holding the square, so later picks hold four or more squares. That declarer can be an id that declared without joining (`declareSet` does not check), or, as written, a player who left while declaring. `DepartedDeclarerWedgesTurn` exhibits the second case up to three held squares, and `FourthPick` shows the next pick holds a fourth.
- Game.Reset: requires `0 <= columns` and `3 * columns <= |cards|`. On a shorter list `resetGame` throws `IndexOutOfBoundsException` at `cardsCopy.get(counter)` partway through dealing. On negative columns `subList` throws. Neither throw is modelled.
- SetBoard.Board.ResetGame: requires the same as `Game.Reset`, for the same reason.
- SetBoard.Board.constructor: requires the same, so a `Board` built from too short a list, which throws in Java, is not modelled.
- SetBoard.Board.GetCard: requires the square to be on the grid. Off the grid, Java's `getCard` throws `IndexOutOfBoundsException`; that path is not modelled.
- SetBoard.Board.SetCard: requires the square to be on the grid; Java's `setCard` throws off it, and that path is not modelled.
- SetBoard.Board.GetRow: requires the row to be on the grid, which `getRow` documents as its precondition.
- SetBoard.Board.GetColumn: requires the column to be on the grid, which `getColumn` documents as its precondition.

## Findings

| source | as written | input that shows it | evidently intended | confidence | as-written member | corrected member |
|---|---|---|---|---|---|---|
| src/main/java/setgame/Board.java:432-436 | `removePlayer` drops the score but leaves `activePlayer` and `declareQueue` alone | a declarer holding two squares leaves short of unanimity; then `timedOut` for them throws at `scores.get` (:590) with no change, their third pick throws at :627 after holding it, and the next pick holds a fourth square (`TurnProofs.FourthPick`); short of a restart, the queue never advances | a departing player stops declaring and leaves the queue; the turn passes on as after a timeout | not executed; high | VoteProofs.DepartedDeclarerWedgesTurn | Game.RemovePlayer |

