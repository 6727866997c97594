/** The card grid: `DEFAULT_ROWS` rows of cards addressed by squares, flattened
    row-major wherever the board looks at all its cards at once. */
module Grid {
  import opened Seqs
  import opened Cards

  /** `DEFAULT_ROWS`, which also equals `SET_SIZE`. */
  const Rows: nat := 3

  /** A (row, column) coordinate on the grid, compared by value. */
  datatype Square = Square(row: int, col: int)

  type Grid = seq<seq<Card>>

  /** `Rows` rows, all `cols` long. */
  ghost predicate Rectangular(g: Grid, cols: int) {
    |g| == Rows && forall r | 0 <= r < Rows :: |g[r]| == cols
  }

  predicate InBounds(g: Grid, sq: Square) {
    0 <= sq.row < |g| && 0 <= sq.col < |g[sq.row]|
  }

  /** `getCard`. */
  function CardAt(g: Grid, sq: Square): Card
    requires InBounds(g, sq)
  {
    g[sq.row][sq.col]
  }

  /** All cards of the grid, row after row (`flatMap(List::stream)`). */
  function Flatten(g: Grid): (r: seq<Card>)
    ensures |g| == 0 ==> r == []
  {
    if g == [] then [] else g[0] + Flatten(g[1..])
  }

  lemma Flatten3(g: Grid)
    requires |g| == 3
    ensures Flatten(g) == g[0] + g[1] + g[2]
  {
    assert g[1..][1..][1..] == [];
    assert Flatten(g[1..][1..]) == g[2];
  }

  /** `setCard`: the square gets `x`, every other square keeps its card. */
  function SetCard(g: Grid, sq: Square, x: Card): (r: Grid)
    requires InBounds(g, sq)
    ensures |r| == |g| && forall i | 0 <= i < |g| :: |r[i]| == |g[i]|
    ensures forall other :: InBounds(r, other) <==> InBounds(g, other)
    ensures CardAt(r, sq) == x
    ensures forall other | InBounds(g, other) && other != sq :: CardAt(r, other) == CardAt(g, other)
  {
    g[sq.row := g[sq.row][sq.col := x]]
  }

  /** The three rows `resetGame` and `condenseCards` deal from the front of
      `cards`, `cols` cards each. */
  function Deal(cards: seq<Card>, cols: nat): (r: Grid)
    requires Rows * cols <= |cards|
    ensures Rectangular(r, cols)
    ensures Flatten(r) == cards[..Rows * cols]
  {
    var r := [cards[..cols], cards[cols..2 * cols], cards[2 * cols..3 * cols]];
    Flatten3(r);
    assert cards[..3 * cols] == cards[..cols] + cards[cols..2 * cols] + cards[2 * cols..3 * cols];
    r
  }

  /** `addCards` on the grid: row `r` gains `xs[r]` at its end. */
  function AddColumn(g: Grid, xs: seq<Card>): (r: Grid)
    requires |xs| == |g|
    ensures |r| == |g|
    ensures forall i | 0 <= i < |g| :: r[i] == g[i] + [xs[i]]
  {
    seq(|g|, i requires 0 <= i < |g| => g[i] + [xs[i]])
  }

  // ---------------------------------------------------------------------------
  // Facts about the flattened grid

  lemma {:induction false} FlattenLength(g: Grid, cols: nat)
    requires forall r | 0 <= r < |g| :: |g[r]| == cols
    ensures |Flatten(g)| == |g| * cols
  {
    if g != [] {
      FlattenLength(g[1..], cols);
    }
  }

  /** A square on the grid holds one of the flattened cards. */
  lemma {:induction false} CardAtInFlatten(g: Grid, sq: Square)
    requires InBounds(g, sq)
    ensures CardAt(g, sq) in Flatten(g)
  {
    if sq.row > 0 {
      CardAtInFlatten(g[1..], Square(sq.row - 1, sq.col));
    }
  }

  lemma SetCardInRow(row: seq<Card>, i: int, x: Card)
    requires 0 <= i < |row|
    ensures multiset(row[i := x]) + multiset{row[i]} == multiset(row) + multiset{x}
  {
    assert row == row[..i] + [row[i]] + row[i + 1..];
    assert row[i := x] == row[..i] + [x] + row[i + 1..];
  }

  /** Replacing one card changes the cards on the grid by exactly that card. */
  lemma {:induction false} FlattenSetCard(g: Grid, sq: Square, x: Card)
    requires InBounds(g, sq)
    ensures multiset(Flatten(SetCard(g, sq, x))) + multiset{CardAt(g, sq)} == multiset(Flatten(g)) + multiset{x}
  {
    var h := SetCard(g, sq, x);
    var c := CardAt(g, sq);
    assert Flatten(h) == h[0] + Flatten(h[1..]);
    assert Flatten(g) == g[0] + Flatten(g[1..]);
    if sq.row == 0 {
      assert h[1..] == g[1..];
      SetCardInRow(g[0], sq.col, x);
    } else {
      var sq' := Square(sq.row - 1, sq.col);
      var rest, rest' := Flatten(g[1..]), Flatten(h[1..]);
      assert multiset(rest') + multiset{c} == multiset(rest) + multiset{x} by {
        assert h[1..] == SetCard(g[1..], sq', x);
        FlattenSetCard(g[1..], sq', x);
        assert CardAt(g[1..], sq') == c;
      }
      assert h[0] == g[0];
      calc {
        multiset(Flatten(h)) + multiset{c};
        multiset(g[0]) + multiset(rest') + multiset{c};
        multiset(g[0]) + (multiset(rest') + multiset{c});
        multiset(g[0]) + (multiset(rest) + multiset{x});
        multiset(Flatten(g)) + multiset{x};
      }
    }
  }

  /** Adding a column adds exactly the new cards. */
  lemma {:induction false} FlattenAddColumn(g: Grid, xs: seq<Card>)
    requires |xs| == |g|
    ensures multiset(Flatten(AddColumn(g, xs))) == multiset(Flatten(g)) + multiset(xs)
  {
    if g != [] {
      var h := AddColumn(g, xs);
      FlattenAddColumn(g[1..], xs[1..]);
      assert h[1..] == AddColumn(g[1..], xs[1..]);
      assert xs == [xs[0]] + xs[1..];
    }
  }

  /** Appending a row appends its cards. */
  lemma {:induction false} FlattenAppendRow(g: Grid, row: seq<Card>)
    ensures Flatten(g + [row]) == Flatten(g) + row
  {
    if g != [] {
      assert (g + [row])[1..] == g[1..] + [row];
      FlattenAppendRow(g[1..], row);
    }
  }

  /** Removing a set of values from every row removes it from the whole grid. */
  lemma {:induction false} FlattenRemoveAll(g: Grid, xs: set<Card>)
    ensures Flatten(seq(|g|, i requires 0 <= i < |g| => RemoveAll(g[i], xs))) == RemoveAll(Flatten(g), xs)
  {
    var h := seq(|g|, i requires 0 <= i < |g| => RemoveAll(g[i], xs));
    if g != [] {
      FlattenRemoveAll(g[1..], xs);
      assert h[1..] == seq(|g[1..]|, i requires 0 <= i < |g[1..]| => RemoveAll(g[1..][i], xs));
      RemoveAllConcat(g[0], Flatten(g[1..]), xs);
    }
  }
}
