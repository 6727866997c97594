/** The turn state machine: who declares, who waits, what the declarer holds,
    and how a third pick is settled. */
module TurnProofs {
  import opened Seqs
  import opened Cards
  import opened Grid
  import opened Game
  import opened ReplaceProofs

  /** Handing the turn to the queue head keeps the queue free of repeats and
      of the declarer. */
  lemma PromoteKeepsValid(s: BoardState, now: int, reschedule: bool)
    requires Valid(s) && (reschedule || s.timer != Unscheduled)
    ensures Valid(Promote(s, now, reschedule))
  {
    if |s.queue| > 0 {
      DistinctHead(s.queue);
    }
  }

  /** `declareSet` keeps the invariant; in particular the queue never holds
      the declarer or anyone twice. */
  lemma DeclareKeepsValid(s: BoardState, p: string, now: int)
    requires Valid(s)
    ensures Valid(Declare(s, p, now))
  {
    if !(p == s.active || p in s.queue) && s.active != NoPlayer {
      DistinctAppend(s.queue, [p]);
    }
  }

  /** `timedOut` keeps the invariant. */
  lemma TimedOutKeepsValid(s: BoardState, p: string, now: int)
    requires Valid(s)
    ensures Valid(TimedOut(s, p, now))
  {
    if p in s.scores {
      PromoteKeepsValid(s.(scores := s.scores[p := s.scores[p] - PointsLost], held := []), now, true);
    }
  }

  /** A pick by the declarer of a square not yet held appends it; the third
      such pick is settled unless that throws. */
  ghost predicate ThirdPick(s: BoardState, sq: Square, p: string) {
    && p == s.active && sq !in s.held && |s.held| + 1 == 3
    && s.timer != Unscheduled && !ResolutionThrows(Settling(s, sq), p)
  }

  /** Settling a third pick keeps the invariant. */
  lemma SettleKeepsValid(s: BoardState, p: string, now: int, newDeck: seq<Card>)
    requires Valid(s) && |s.held| == 3 && !ResolutionThrows(s, p) && IsShuffledDeck(s.columns, newDeck)
    requires s.timer != Unscheduled
    ensures Valid(Settle(s, p, now, newDeck))
  {
    if HeldFormSet(s) {
      ReplaceKeepsValid(Award(s, p), newDeck);
    } else {
      PromoteKeepsValid(s.(scores := s.scores[p := s.scores[p] - PointsLost]), now, false);
    }
  }

  /** `pickCard` keeps the invariant. */
  lemma PickKeepsValid(s: BoardState, sq: Square, p: string, now: int, newDeck: seq<Card>)
    requires Valid(s) && IsShuffledDeck(s.columns, newDeck)
    ensures Valid(Pick(s, sq, p, now, newDeck))
  {
    if p == s.active {
      if sq in s.held {
        RemoveFirstCount(s.held, sq);
        DistinctSmaller(RemoveFirst(s.held, sq), s.held);
      } else {
        DistinctAppendOne(s.held, sq);
        if ThirdPick(s, sq, p) {
          SettleKeepsValid(Settling(s, sq), p, now, newDeck);
        }
      }
    }
  }

  /** Without an exception the declarer never holds more than two squares
      between picks: the third pick is settled and clears them all. */
  lemma PickHoldsAtMostTwo(s: BoardState, sq: Square, p: string, now: int, newDeck: seq<Card>)
    requires Valid(s) && IsShuffledDeck(s.columns, newDeck) && |s.held| <= 2
    requires !PickThrows(s, sq, p)
    ensures var r := Pick(s, sq, p, now, newDeck);
      && |r.held| <= 2
      && (ThirdPick(s, sq, p) ==> r.held == [])
  {
  }

  /** Re-picking a held square lets go of it: the square is no longer held
      and the other held squares keep their order. */
  lemma PickToggles(s: BoardState, sq: Square, p: string, now: int, newDeck: seq<Card>)
    requires Valid(s) && IsShuffledDeck(s.columns, newDeck)
    requires p == s.active && sq in s.held
    ensures var r := Pick(s, sq, p, now, newDeck); var i := FirstIndex(s.held, sq);
      && r.held == s.held[..i] + s.held[i + 1..]
      && sq !in r.held && |r.held| == |s.held| - 1
      && multiset(r.held) == multiset(s.held) - multiset{sq}
  {
    var r := RemoveFirst(s.held, sq);
    RemoveFirstCount(s.held, sq);
    assert multiset(s.held)[sq] == 1;
    assert multiset(r)[sq] == 0;
  }

  /** Settling decides exactly the rule of the game: three held cards that
      form a set are found, any others missed. */
  lemma SettleDecides(s: BoardState, p: string, now: int, newDeck: seq<Card>)
    requires Valid(s) && |s.held| == 3 && !ResolutionThrows(s, p) && IsShuffledDeck(s.columns, newDeck)
    ensures var h := HeldCards(s);
      Settle(s, p, now, newDeck) == if IsSet(h[0], h[1], h[2]) then Found(s, p, newDeck) else Missed(s, p, now)
  {
    ParityDecidesSetOf(HeldCards(s));
  }

  /** Unless the game restarts, a found set takes exactly the three held
      cards out of play. */
  lemma FoundDiscardsHeld(s: BoardState, p: string, newDeck: seq<Card>)
    requires Valid(s) && |s.held| == 3 && !ResolutionThrows(s, p) && IsShuffledDeck(s.columns, newDeck)
    requires !Exhausted(Discard(Award(s, p)))
    ensures InPlay(Found(s, p, newDeck)) + multiset(HeldCards(s)) == InPlay(s)
  {
    var a := Award(s, p);
    var d := Discard(a);
    assert InPlay(Found(s, p, newDeck)) == InPlay(d) by {
      assert Found(s, p, newDeck) == d.(held := []);
    }
    assert InPlay(d) + multiset(HeldCards(s)) == InPlay(s) by {
      assert HeldCards(a) == HeldCards(s);
      DiscardRemovesHeld(a);
    }
  }

  /** A miss hands the turn to the queue head with a fresh deadline but with
      the cancelled timer: no timeout is scheduled for the new declarer. */
  lemma MissHandsTurnWithoutTimer(s: BoardState, sq: Square, p: string, now: int, newDeck: seq<Card>)
    requires Valid(s) && IsShuffledDeck(s.columns, newDeck) && ThirdPick(s, sq, p)
    requires !HeldFormSet(Settling(s, sq)) && |s.queue| > 0
    ensures var r := Pick(s, sq, p, now, newDeck);
      && r.active == s.queue[0] && r.queue == s.queue[1..] && r.timeOut == now + TimeLimit
      && r.timer == Cancelled && r.held == []
      && r.scores == s.scores[p := s.scores[p] - PointsLost]
  {
    PickSettles(s, sq, p, now, newDeck);
    MissAfterSettling(s, sq, p, now);
  }

  /** What a miss leaves once the third square is appended and the timer
      cancelled. */
  lemma MissAfterSettling(s: BoardState, sq: Square, p: string, now: int)
    requires p in s.scores && |s.queue| > 0
    ensures var r := Missed(Settling(s, sq), p, now);
      && r.active == s.queue[0] && r.queue == s.queue[1..] && r.timeOut == now + TimeLimit
      && r.timer == Cancelled && r.held == []
      && r.scores == s.scores[p := s.scores[p] - PointsLost]
  {
    assert Settling(s, sq).scores == s.scores && Settling(s, sq).queue == s.queue;
  }

  /** A third pick by the declarer is settled on the board with the square
      appended and the timer cancelled, which satisfies what settling needs. */
  lemma PickSettles(s: BoardState, sq: Square, p: string, now: int, newDeck: seq<Card>)
    requires Valid(s) && IsShuffledDeck(s.columns, newDeck) && ThirdPick(s, sq, p)
    ensures var s2 := Settling(s, sq);
      && Valid(s2) && |s2.held| == 3 && !ResolutionThrows(s2, p)
      && Pick(s, sq, p, now, newDeck) == Settle(s2, p, now, newDeck)
  {
    DistinctAppendOne(s.held, sq);
  }

  /** The third pick of a declarer with no score throws at `scores.get`,
      leaving the square held and the timer cancelled. */
  lemma ThirdPickOfUnregistered(s: BoardState, p: string, a: Square, now: int, newDeck: seq<Card>)
    requires Valid(s) && IsShuffledDeck(s.columns, newDeck)
    requires p == s.active && p != NoPlayer && p !in s.scores && |s.held| == 2 && a !in s.held
    ensures Pick(s, a, p, now, newDeck) == s.(held := s.held + [a], timer := Cancelled)
    ensures Valid(s.(held := s.held + [a], timer := Cancelled))
  {
    assert PickThrows(s, a, p);
    DistinctAppendOne(s.held, a);
  }

  /** Once three squares are held (which only a throwing third pick leaves),
      a pick of a fresh square is neither a toggle nor a third pick: it is
      simply held, making four, on a board that stays valid. */
  lemma FourthPick(s: BoardState, p: string, b: Square, now: int, newDeck: seq<Card>)
    requires Valid(s) && IsShuffledDeck(s.columns, newDeck)
    requires p == s.active && |s.held| == 3 && b !in s.held
    ensures Pick(s, b, p, now, newDeck) == s.(held := s.held + [b])
    ensures Valid(s.(held := s.held + [b]))
  {
    DistinctAppendOne(s.held, b);
  }
}
