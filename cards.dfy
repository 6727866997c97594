/** The card algebra of the game: cards with four three-valued attributes, the
    parity test that decides whether held cards form a set, the card that
    completes a pair, and the board-wide search for a set. */
module Cards {
  import opened Seqs

  datatype Color = Red | Green | Purple
  datatype Number = One | Two | Three
  datatype Shading = Solid | Striped | Outlined
  datatype Shape = Squiggle | Diamond | Oval

  /** A card is an immutable value; equality is structural. */
  datatype Card = Card(color: Color, number: Number, shading: Shading, shape: Shape)

  /** The `values()` lists of the four attribute enums, in declaration order. */
  const AllColors: seq<Color> := [Red, Green, Purple]
  const AllNumbers: seq<Number> := [One, Two, Three]
  const AllShadings: seq<Shading> := [Solid, Striped, Outlined]
  const AllShapes: seq<Shape> := [Squiggle, Diamond, Oval]

  /** Three values of one attribute agree with the rule of the game. */
  predicate SameOrAllDifferent<T(==)>(x: T, y: T, z: T) {
    (x == y && y == z) || (x != y && y != z && x != z)
  }

  /** The rule of the game: in every attribute the three cards are all equal or
      all different. */
  predicate IsSet(a: Card, b: Card, c: Card) {
    && SameOrAllDifferent(a.color, b.color, c.color)
    && SameOrAllDifferent(a.number, b.number, c.number)
    && SameOrAllDifferent(a.shading, b.shading, c.shading)
    && SameOrAllDifferent(a.shape, b.shape, c.shape)
  }

  // ---------------------------------------------------------------------------
  // The parity test of `checkSet`

  function ColorsOf(cards: seq<Card>): set<Color> { set c | c in cards :: c.color }
  function NumbersOf(cards: seq<Card>): set<Number> { set c | c in cards :: c.number }
  function ShadingsOf(cards: seq<Card>): set<Shading> { set c | c in cards :: c.shading }
  function ShapesOf(cards: seq<Card>): set<Shape> { set c | c in cards :: c.shape }

  /** Reading one more card adds its value to each attribute's set. */
  lemma AttributesOfAppend(cards: seq<Card>, c: Card)
    ensures ColorsOf(cards + [c]) == ColorsOf(cards) + {c.color}
    ensures NumbersOf(cards + [c]) == NumbersOf(cards) + {c.number}
    ensures ShadingsOf(cards + [c]) == ShadingsOf(cards) + {c.shading}
    ensures ShapesOf(cards + [c]) == ShapesOf(cards) + {c.shape}
  {
    assert forall x :: x in cards + [c] <==> x in cards || x == c;
  }

  /** What `checkSet` returns for the held cards: the product of the four
      per-attribute distinct counts is odd. */
  predicate OddDistinctProduct(cards: seq<Card>) {
    (|ColorsOf(cards)| * |NumbersOf(cards)| * |ShadingsOf(cards)| * |ShapesOf(cards)|) % 2 != 0
  }

  lemma ThreeValuesCount<T>(x: T, y: T, z: T)
    ensures 1 <= |{x, y, z}| <= 3
    ensures |{x, y, z}| % 2 == 1 <==> SameOrAllDifferent(x, y, z)
  {
    if x == y && y == z {
      assert {x, y, z} == {x};
    } else if x == y {
      assert {x, y, z} == {x, z};
    } else if y == z || x == z {
      assert {x, y, z} == {x, y};
    }
  }

  lemma OddProduct(m: int, n: int)
    requires m >= 0 && n >= 0
    ensures (m * n) % 2 == 1 <==> m % 2 == 1 && n % 2 == 1
  {
    var p, q := m / 2, n / 2;
    var a, b := m % 2, n % 2;
    assert m == 2 * p + a && n == 2 * q + b;
    assert m * n == 2 * (2 * p * q + p * b + q * a) + a * b;
  }

  lemma OddProduct4(w: nat, x: nat, y: nat, z: nat)
    ensures (w * x * y * z) % 2 == 1 <==> w % 2 == 1 && x % 2 == 1 && y % 2 == 1 && z % 2 == 1
  {
    OddProduct(w, x);
    OddProduct(w * x, y);
    OddProduct(w * x * y, z);
  }

  lemma ThreeCardsAttributes(a: Card, b: Card, c: Card)
    ensures ColorsOf([a, b, c]) == {a.color, b.color, c.color}
    ensures NumbersOf([a, b, c]) == {a.number, b.number, c.number}
    ensures ShadingsOf([a, b, c]) == {a.shading, b.shading, c.shading}
    ensures ShapesOf([a, b, c]) == {a.shape, b.shape, c.shape}
  {
  }

  /** For three held cards the parity test decides exactly the rule of the game:
      a product of counts in 1..3 is odd iff every count is 1 or 3. */
  lemma ParityDecidesSet(a: Card, b: Card, c: Card)
    ensures OddDistinctProduct([a, b, c]) <==> IsSet(a, b, c)
  {
    ThreeCardsAttributes(a, b, c);
    ThreeValuesCount(a.color, b.color, c.color);
    ThreeValuesCount(a.number, b.number, c.number);
    ThreeValuesCount(a.shading, b.shading, c.shading);
    ThreeValuesCount(a.shape, b.shape, c.shape);
    var cards := [a, b, c];
    OddProduct4(|ColorsOf(cards)|, |NumbersOf(cards)|, |ShadingsOf(cards)|, |ShapesOf(cards)|);
  }

  /** `ParityDecidesSet` for any three-card sequence. */
  lemma ParityDecidesSetOf(cards: seq<Card>)
    requires |cards| == 3
    ensures OddDistinctProduct(cards) <==> IsSet(cards[0], cards[1], cards[2])
  {
    assert cards == [cards[0], cards[1], cards[2]];
    ParityDecidesSet(cards[0], cards[1], cards[2]);
  }

  // ---------------------------------------------------------------------------
  // `missingCard`

  /** Among three different values some value differs from any two given ones. */
  lemma ThirdValueExists<T>(values: seq<T>, a: T, b: T)
    requires ThreeValues(values)
    ensures exists v :: v in values && v != a && v != b
  {
    if values[0] != a && values[0] != b {
      assert values[0] in values;
    } else if values[1] != a && values[1] != b {
      assert values[1] in values;
    } else {
      assert values[2] in values;
    }
  }

  /** Three values of an enum's `values()` list, all different. */
  predicate ThreeValues<T(==)>(values: seq<T>) {
    |values| == 3 && values[0] != values[1] && values[1] != values[2] && values[0] != values[2]
  }

  /** The first value of `values` left after removing `a` and `b`
      (`removeAll(List.of(a, b))` followed by `get(0)`). */
  function FirstOther<T(==)>(values: seq<T>, a: T, b: T): (r: T)
    requires ThreeValues(values)
    ensures r in values && r != a && r != b
  {
    ThirdValueExists(values, a, b);
    var rest := RemoveAll(values, {a, b});
    var v :| v in values && v != a && v != b;
    assert multiset(rest)[v] == multiset(values)[v] > 0;
    assert rest[0] in multiset(rest);
    rest[0]
  }

  /** The first color in declaration order that is neither `a` nor `b`. */
  function OtherColor(a: Color, b: Color): (r: Color)
    ensures r != a && r != b
  {
    if a != Red && b != Red then Red else if a != Green && b != Green then Green else Purple
  }

  function OtherNumber(a: Number, b: Number): (r: Number)
    ensures r != a && r != b
  {
    if a != One && b != One then One else if a != Two && b != Two then Two else Three
  }

  function OtherShading(a: Shading, b: Shading): (r: Shading)
    ensures r != a && r != b
  {
    if a != Solid && b != Solid then Solid else if a != Striped && b != Striped then Striped else Outlined
  }

  function OtherShape(a: Shape, b: Shape): (r: Shape)
    ensures r != a && r != b
  {
    if a != Squiggle && b != Squiggle then Squiggle else if a != Diamond && b != Diamond then Diamond else Oval
  }

  /** On three different values, removing two given values and taking the
      first of the rest picks the first value that is neither. */
  lemma FirstOtherOfThree<T>(values: seq<T>, a: T, b: T)
    requires ThreeValues(values)
    ensures FirstOther(values, a, b)
         == if values[0] != a && values[0] != b then values[0]
            else if values[1] != a && values[1] != b then values[1]
            else values[2]
  {
    ThirdValueExists(values, a, b);
    var xs := {a, b};
    assert values[1..][1..] == values[2..];
    assert values[2..][1..] == [];
    var r2 := RemoveAll(values[2..], xs);
    var r1 := RemoveAll(values[1..], xs);
    assert r2 == if values[2] in xs then [] else [values[2]];
    assert r1 == (if values[1] in xs then [] else [values[1]]) + r2;
    assert RemoveAll(values, xs) == (if values[0] in xs then [] else [values[0]]) + r1;
  }

  /** Each `Other...` value is what `missingCard` computes for a differing
      attribute: the enum's `values()` list with both given values removed,
      then its first element. */
  lemma OtherColorIsFirstOther(a: Color, b: Color)
    ensures OtherColor(a, b) == FirstOther(AllColors, a, b)
  {
    FirstOtherOfThree(AllColors, a, b);
  }

  lemma OtherNumberIsFirstOther(a: Number, b: Number)
    ensures OtherNumber(a, b) == FirstOther(AllNumbers, a, b)
  {
    FirstOtherOfThree(AllNumbers, a, b);
  }

  lemma OtherShadingIsFirstOther(a: Shading, b: Shading)
    ensures OtherShading(a, b) == FirstOther(AllShadings, a, b)
  {
    FirstOtherOfThree(AllShadings, a, b);
  }

  lemma OtherShapeIsFirstOther(a: Shape, b: Shape)
    ensures OtherShape(a, b) == FirstOther(AllShapes, a, b)
  {
    FirstOtherOfThree(AllShapes, a, b);
  }

  /** The card that completes `c1` and `c2` to a set: in each attribute the
      shared value, or else the value held by neither card. */
  function MissingCard(c1: Card, c2: Card): (r: Card)
    ensures c1.color == c2.color ==> r.color == c1.color
    ensures c1.color != c2.color ==> r.color != c1.color && r.color != c2.color
    ensures c1.number == c2.number ==> r.number == c1.number
    ensures c1.number != c2.number ==> r.number != c1.number && r.number != c2.number
    ensures c1.shading == c2.shading ==> r.shading == c1.shading
    ensures c1.shading != c2.shading ==> r.shading != c1.shading && r.shading != c2.shading
    ensures c1.shape == c2.shape ==> r.shape == c1.shape
    ensures c1.shape != c2.shape ==> r.shape != c1.shape && r.shape != c2.shape
  {
    Card(
      if c1.color == c2.color then c1.color else OtherColor(c1.color, c2.color),
      if c1.number == c2.number then c1.number else OtherNumber(c1.number, c2.number),
      if c1.shading == c2.shading then c1.shading else OtherShading(c1.shading, c2.shading),
      if c1.shape == c2.shape then c1.shape else OtherShape(c1.shape, c2.shape))
  }

  /** The missing card completes the pair to a set. */
  lemma MissingCardCompletesSet(a: Card, b: Card)
    ensures IsSet(a, b, MissingCard(a, b))
  {
  }

  lemma ColorForced(x: Color, y: Color, z: Color)
    requires SameOrAllDifferent(x, y, z)
    ensures z == if x == y then x else OtherColor(x, y)
  {
  }

  lemma NumberForced(x: Number, y: Number, z: Number)
    requires SameOrAllDifferent(x, y, z)
    ensures z == if x == y then x else OtherNumber(x, y)
  {
  }

  lemma ShadingForced(x: Shading, y: Shading, z: Shading)
    requires SameOrAllDifferent(x, y, z)
    ensures z == if x == y then x else OtherShading(x, y)
  {
  }

  lemma ShapeForced(x: Shape, y: Shape, z: Shape)
    requires SameOrAllDifferent(x, y, z)
    ensures z == if x == y then x else OtherShape(x, y)
  {
  }

  /** It is the only card that does: a set is determined by two of its cards. */
  lemma MissingCardUnique(a: Card, b: Card, c: Card)
    requires IsSet(a, b, c)
    ensures c == MissingCard(a, b)
  {
    ColorForced(a.color, b.color, c.color);
    NumberForced(a.number, b.number, c.number);
    ShadingForced(a.shading, b.shading, c.shading);
    ShapeForced(a.shape, b.shape, c.shape);
  }

  /** The missing card does not depend on the order of the pair. */
  lemma MissingCardSymmetric(a: Card, b: Card)
    ensures MissingCard(a, b) == MissingCard(b, a)
  {
    MissingCardCompletesSet(a, b);
    MissingCardUnique(b, a, MissingCard(a, b));
  }

  /** For two different cards the missing card is a third, different card. */
  lemma MissingCardDiffers(a: Card, b: Card)
    requires a != b
    ensures MissingCard(a, b) != a && MissingCard(a, b) != b
  {
  }

  // ---------------------------------------------------------------------------
  // `existsSet`

  /** What `existsSet` searches for: a pair, taken in row-major order, whose
      missing card lies among the cards. */
  ghost predicate HasSet(cards: seq<Card>) {
    exists i, j :: 0 <= i < j < |cards| && MissingCard(cards[i], cards[j]) in cards
  }

  /** Three different positions holding a set. */
  ghost predicate SetAt(cards: seq<Card>, i: int, j: int, k: int) {
    && 0 <= i < |cards| && 0 <= j < |cards| && 0 <= k < |cards|
    && i != j && j != k && i != k
    && IsSet(cards[i], cards[j], cards[k])
  }

  /** On cards that are all different, the pair search finds a set exactly
      when three cards on the board form one. */
  lemma HasSetIffSetOnBoard(cards: seq<Card>)
    requires Distinct(cards)
    ensures HasSet(cards) <==> exists i, j, k :: SetAt(cards, i, j, k)
  {
    if HasSet(cards) {
      var i, j :| 0 <= i < j < |cards| && MissingCard(cards[i], cards[j]) in cards;
      var k :| 0 <= k < |cards| && cards[k] == MissingCard(cards[i], cards[j]);
      DistinctAt(cards, i, j);
      MissingCardDiffers(cards[i], cards[j]);
      MissingCardCompletesSet(cards[i], cards[j]);
      assert SetAt(cards, i, j, k);
    }
    if exists i, j, k :: SetAt(cards, i, j, k) {
      var i, j, k :| SetAt(cards, i, j, k);
      var lo, hi := if i < j then i else j, if i < j then j else i;
      assert IsSet(cards[lo], cards[hi], cards[k]);
      MissingCardUnique(cards[lo], cards[hi], cards[k]);
      assert MissingCard(cards[lo], cards[hi]) in cards;
    }
  }
}
