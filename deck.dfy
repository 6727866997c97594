/** Deck generation (`generateRandomCards` before its shuffle). The outermost
    loop runs over colors, then numbers, shadings and shapes; the attribute
    count stops the nesting early, fixing the remaining attributes to
    One, Solid and Squiggle. Any count other than 1, 2 or 3 nests all four
    loops. */
module DeckGen {
  import opened Seqs
  import opened Cards

  // One function per loop level: `...Run(..., i)` is what the loop at that
  // level has appended after its first `i` iterations, `...Block` what one
  // iteration of the enclosing loop appends.

  function ShapeRun(c: Color, n: Number, s: Shading, i: nat): seq<Card>
    requires i <= 3
  {
    if i == 0 then [] else ShapeRun(c, n, s, i - 1) + [Card(c, n, s, AllShapes[i - 1])]
  }

  function ShadingBlock(c: Color, n: Number, s: Shading, attributes: int): seq<Card> {
    if attributes == 3 then [Card(c, n, s, Squiggle)] else ShapeRun(c, n, s, 3)
  }

  function ShadingRun(c: Color, n: Number, attributes: int, i: nat): seq<Card>
    requires i <= 3
  {
    if i == 0 then [] else ShadingRun(c, n, attributes, i - 1) + ShadingBlock(c, n, AllShadings[i - 1], attributes)
  }

  function NumberBlock(c: Color, n: Number, attributes: int): seq<Card> {
    if attributes == 2 then [Card(c, n, Solid, Squiggle)] else ShadingRun(c, n, attributes, 3)
  }

  function NumberRun(c: Color, attributes: int, i: nat): seq<Card>
    requires i <= 3
  {
    if i == 0 then [] else NumberRun(c, attributes, i - 1) + NumberBlock(c, AllNumbers[i - 1], attributes)
  }

  function ColorBlock(c: Color, attributes: int): seq<Card> {
    if attributes == 1 then [Card(c, One, Solid, Squiggle)] else NumberRun(c, attributes, 3)
  }

  function ColorRun(attributes: int, i: nat): seq<Card>
    requires i <= 3
  {
    if i == 0 then [] else ColorRun(attributes, i - 1) + ColorBlock(AllColors[i - 1], attributes)
  }

  /** The full deck in generation order. */
  function UnshuffledDeck(attributes: int): seq<Card> {
    ColorRun(attributes, 3)
  }

  /** The deck size the configuration promises: 3^k for k in 1..3, else 81. */
  function DeckSize(attributes: int): nat {
    if attributes == 1 then 3 else if attributes == 2 then 9 else if attributes == 3 then 27 else 81
  }

  /** The attributes beyond the configured count carry their fixed values. */
  predicate FixedBeyond(attributes: int, x: Card) {
    && (attributes == 1 ==> x.number == One)
    && (attributes == 1 || attributes == 2 ==> x.shading == Solid)
    && (attributes == 1 || attributes == 2 || attributes == 3 ==> x.shape == Squiggle)
  }

  // ---------------------------------------------------------------------------
  // The generating loops

  /** `generateRandomCards` without its final shuffle: the color loop. Each
      nested loop level is a method of its own that appends one block. */
  method GenerateCards(attributes: int) returns (cards: seq<Card>)
    ensures cards == UnshuffledDeck(attributes)
  {
    cards := [];
    for i := 0 to 3
      invariant cards == ColorRun(attributes, i)
    {
      cards := AppendColorBlock(cards, AllColors[i], attributes);
    }
  }

  /** One iteration of the color loop: the number loop, or a single card when
      only color varies. */
  method AppendColorBlock(cards: seq<Card>, color: Color, attributes: int) returns (r: seq<Card>)
    ensures r == cards + ColorBlock(color, attributes)
  {
    if attributes == 1 {
      r := cards + [Card(color, One, Solid, Squiggle)];
    } else {
      r := cards;
      for j := 0 to 3
        invariant r == cards + NumberRun(color, attributes, j)
      {
        var next := AppendNumberBlock(r, color, AllNumbers[j], attributes);
        AppendAssoc(cards, NumberRun(color, attributes, j), NumberBlock(color, AllNumbers[j], attributes));
        assert NumberRun(color, attributes, j + 1) == NumberRun(color, attributes, j) + NumberBlock(color, AllNumbers[j], attributes);
        r := next;
      }
      assert ColorBlock(color, attributes) == NumberRun(color, attributes, 3);
    }
  }

  /** One iteration of the number loop: the shading loop, or a single card
      when two attributes vary. */
  method AppendNumberBlock(cards: seq<Card>, color: Color, number: Number, attributes: int) returns (r: seq<Card>)
    ensures r == cards + NumberBlock(color, number, attributes)
  {
    if attributes == 2 {
      r := cards + [Card(color, number, Solid, Squiggle)];
    } else {
      r := cards;
      for l := 0 to 3
        invariant r == cards + ShadingRun(color, number, attributes, l)
      {
        var next := AppendShadingBlock(r, color, number, AllShadings[l], attributes);
        AppendAssoc(cards, ShadingRun(color, number, attributes, l), ShadingBlock(color, number, AllShadings[l], attributes));
        assert ShadingRun(color, number, attributes, l + 1) == ShadingRun(color, number, attributes, l) + ShadingBlock(color, number, AllShadings[l], attributes);
        r := next;
      }
      assert NumberBlock(color, number, attributes) == ShadingRun(color, number, attributes, 3);
    }
  }

  /** One iteration of the shading loop: the shape loop, or a single card
      when three attributes vary. */
  method AppendShadingBlock(cards: seq<Card>, color: Color, number: Number, shading: Shading, attributes: int)
    returns (r: seq<Card>)
    ensures r == cards + ShadingBlock(color, number, shading, attributes)
  {
    if attributes == 3 {
      r := cards + [Card(color, number, shading, Squiggle)];
    } else {
      r := cards;
      for m := 0 to 3
        invariant r == cards + ShapeRun(color, number, shading, m)
      {
        AppendAssoc(cards, ShapeRun(color, number, shading, m), [Card(color, number, shading, AllShapes[m])]);
        r := r + [Card(color, number, shading, AllShapes[m])];
      }
    }
  }

  // ---------------------------------------------------------------------------
  // Size, membership and distinctness, level by level

  /** Number of cards one iteration of the shading loop appends. */
  function ShadingBlockSize(attributes: int): nat { if attributes == 3 then 1 else 3 }
  /** Number of cards one iteration of the number loop appends. */
  function NumberBlockSize(attributes: int): nat { if attributes == 2 then 1 else 3 * ShadingBlockSize(attributes) }
  /** Number of cards one iteration of the color loop appends. */
  function ColorBlockSize(attributes: int): nat { if attributes == 1 then 1 else 3 * NumberBlockSize(attributes) }

  lemma RunLength(i: int, k: int)
    ensures (i - 1) * k + k == i * k
  {
  }

  /** Positions in the `values()` lists. */
  function ColorIndex(c: Color): (r: nat) ensures r < 3 { match c case Red => 0 case Green => 1 case Purple => 2 }
  function NumberIndex(n: Number): (r: nat) ensures r < 3 { match n case One => 0 case Two => 1 case Three => 2 }
  function ShadingIndex(s: Shading): (r: nat) ensures r < 3 { match s case Solid => 0 case Striped => 1 case Outlined => 2 }
  function ShapeIndex(s: Shape): (r: nat) ensures r < 3 { match s case Squiggle => 0 case Diamond => 1 case Oval => 2 }

  lemma ListedAt(k: nat)
    requires k < 3
    ensures ColorIndex(AllColors[k]) == k && NumberIndex(AllNumbers[k]) == k
    ensures ShadingIndex(AllShadings[k]) == k && ShapeIndex(AllShapes[k]) == k
  {
    assert k == 0 || k == 1 || k == 2;
  }

  /** The card of the `k`-th shape is the one card of that shape. */
  lemma ShapeAt(c: Color, n: Number, s: Shading, k: nat)
    requires k < 3
    ensures forall x :: x in [Card(c, n, s, AllShapes[k])] <==>
      x.color == c && x.number == n && x.shading == s && ShapeIndex(x.shape) == k
  {
    ListedAt(k);
    forall x: Card | ShapeIndex(x.shape) == k ensures x.shape == AllShapes[k] {
      match x.shape case Squiggle => {} case Diamond => {} case Oval => {}
    }
  }

  lemma {:induction false} ShapeRunFacts(c: Color, n: Number, s: Shading, i: nat)
    requires i <= 3
    ensures |ShapeRun(c, n, s, i)| == i && Distinct(ShapeRun(c, n, s, i))
    ensures forall x :: x in ShapeRun(c, n, s, i) <==>
      x.color == c && x.number == n && x.shading == s && ShapeIndex(x.shape) < i
  {
    if i > 0 {
      var prev, last := ShapeRun(c, n, s, i - 1), [Card(c, n, s, AllShapes[i - 1])];
      ShapeRunFacts(c, n, s, i - 1);
      ShapeAt(c, n, s, i - 1);
      assert ShapeRun(c, n, s, i) == prev + last;
      DistinctAppend(prev, last);
      forall x: Card ensures x in prev + last <==>
        x.color == c && x.number == n && x.shading == s && ShapeIndex(x.shape) < i
      {
        assert x in prev + last <==> x in prev || x in last;
      }
    }
  }

  lemma ShadingBlockFacts(c: Color, n: Number, s: Shading, attributes: int)
    ensures |ShadingBlock(c, n, s, attributes)| == ShadingBlockSize(attributes)
    ensures Distinct(ShadingBlock(c, n, s, attributes))
    ensures forall x :: x in ShadingBlock(c, n, s, attributes) <==>
      x.color == c && x.number == n && x.shading == s && (attributes == 3 ==> x.shape == Squiggle)
  {
    if attributes != 3 {
      ShapeRunFacts(c, n, s, 3);
    }
  }

  /** The block of the `k`-th shading holds the cards of that shading. */
  lemma ShadingBlockAt(c: Color, n: Number, attributes: int, k: nat)
    requires k < 3
    ensures |ShadingBlock(c, n, AllShadings[k], attributes)| == ShadingBlockSize(attributes)
    ensures Distinct(ShadingBlock(c, n, AllShadings[k], attributes))
    ensures forall x :: x in ShadingBlock(c, n, AllShadings[k], attributes) <==>
      x.color == c && x.number == n && ShadingIndex(x.shading) == k && (attributes == 3 ==> x.shape == Squiggle)
  {
    ShadingBlockFacts(c, n, AllShadings[k], attributes);
    ListedAt(k);
    forall x: Card | ShadingIndex(x.shading) == k ensures x.shading == AllShadings[k] {
      match x.shading case Solid => {} case Striped => {} case Outlined => {}
    }
  }

  lemma {:induction false} ShadingRunFacts(c: Color, n: Number, attributes: int, i: nat)
    requires i <= 3
    ensures |ShadingRun(c, n, attributes, i)| == i * ShadingBlockSize(attributes)
    ensures Distinct(ShadingRun(c, n, attributes, i))
    ensures forall x :: x in ShadingRun(c, n, attributes, i) <==>
      x.color == c && x.number == n && ShadingIndex(x.shading) < i && (attributes == 3 ==> x.shape == Squiggle)
  {
    if i > 0 {
      var prev, block := ShadingRun(c, n, attributes, i - 1), ShadingBlock(c, n, AllShadings[i - 1], attributes);
      ShadingRunFacts(c, n, attributes, i - 1);
      ShadingBlockAt(c, n, attributes, i - 1);
      assert ShadingRun(c, n, attributes, i) == prev + block;
      RunLength(i, ShadingBlockSize(attributes));
      DistinctAppend(prev, block);
      forall x: Card ensures x in prev + block <==>
        x.color == c && x.number == n && ShadingIndex(x.shading) < i && (attributes == 3 ==> x.shape == Squiggle)
      {
        assert x in prev + block <==> x in prev || x in block;
      }
    }
  }

  lemma NumberBlockFacts(c: Color, n: Number, attributes: int)
    requires attributes != 1
    ensures |NumberBlock(c, n, attributes)| == NumberBlockSize(attributes)
    ensures Distinct(NumberBlock(c, n, attributes))
    ensures forall x :: x in NumberBlock(c, n, attributes) <==>
      x.color == c && x.number == n && FixedBeyond(attributes, x)
  {
    if attributes != 2 {
      ShadingRunFacts(c, n, attributes, 3);
      forall x: Card ensures x in NumberBlock(c, n, attributes) <==> x.color == c && x.number == n && FixedBeyond(attributes, x) {
        assert ShadingIndex(x.shading) < 3;
      }
    }
  }

  /** The block of the `k`-th number holds the cards of that number. */
  lemma NumberBlockAt(c: Color, attributes: int, k: nat)
    requires attributes != 1 && k < 3
    ensures |NumberBlock(c, AllNumbers[k], attributes)| == NumberBlockSize(attributes)
    ensures Distinct(NumberBlock(c, AllNumbers[k], attributes))
    ensures forall x :: x in NumberBlock(c, AllNumbers[k], attributes) <==>
      x.color == c && NumberIndex(x.number) == k && FixedBeyond(attributes, x)
  {
    NumberBlockFacts(c, AllNumbers[k], attributes);
    ListedAt(k);
    forall x: Card | NumberIndex(x.number) == k ensures x.number == AllNumbers[k] {
      match x.number case One => {} case Two => {} case Three => {}
    }
  }

  lemma {:induction false} NumberRunFacts(c: Color, attributes: int, i: nat)
    requires attributes != 1 && i <= 3
    ensures |NumberRun(c, attributes, i)| == i * NumberBlockSize(attributes)
    ensures Distinct(NumberRun(c, attributes, i))
    ensures forall x :: x in NumberRun(c, attributes, i) <==>
      x.color == c && NumberIndex(x.number) < i && FixedBeyond(attributes, x)
  {
    if i > 0 {
      var prev, block := NumberRun(c, attributes, i - 1), NumberBlock(c, AllNumbers[i - 1], attributes);
      NumberRunFacts(c, attributes, i - 1);
      NumberBlockAt(c, attributes, i - 1);
      assert NumberRun(c, attributes, i) == prev + block;
      RunLength(i, NumberBlockSize(attributes));
      DistinctAppend(prev, block);
      forall x: Card ensures x in prev + block <==> x.color == c && NumberIndex(x.number) < i && FixedBeyond(attributes, x) {
        assert x in prev + block <==> x in prev || x in block;
      }
    }
  }

  lemma ColorBlockFacts(c: Color, attributes: int)
    ensures |ColorBlock(c, attributes)| == ColorBlockSize(attributes)
    ensures Distinct(ColorBlock(c, attributes))
    ensures forall x :: x in ColorBlock(c, attributes) <==> x.color == c && FixedBeyond(attributes, x)
  {
    if attributes != 1 {
      NumberRunFacts(c, attributes, 3);
      forall x: Card ensures x in ColorBlock(c, attributes) <==> x.color == c && FixedBeyond(attributes, x) {
        assert NumberIndex(x.number) < 3;
      }
    }
  }

  /** The block of the `k`-th color holds the cards of that color. */
  lemma ColorBlockAt(attributes: int, k: nat)
    requires k < 3
    ensures |ColorBlock(AllColors[k], attributes)| == ColorBlockSize(attributes)
    ensures Distinct(ColorBlock(AllColors[k], attributes))
    ensures forall x :: x in ColorBlock(AllColors[k], attributes) <==> ColorIndex(x.color) == k && FixedBeyond(attributes, x)
  {
    ColorBlockFacts(AllColors[k], attributes);
    ListedAt(k);
    forall x: Card | ColorIndex(x.color) == k ensures x.color == AllColors[k] {
      match x.color case Red => {} case Green => {} case Purple => {}
    }
  }

  lemma {:induction false} ColorRunFacts(attributes: int, i: nat)
    requires i <= 3
    ensures |ColorRun(attributes, i)| == i * ColorBlockSize(attributes)
    ensures Distinct(ColorRun(attributes, i))
    ensures forall x :: x in ColorRun(attributes, i) <==> ColorIndex(x.color) < i && FixedBeyond(attributes, x)
  {
    if i > 0 {
      var prev, block := ColorRun(attributes, i - 1), ColorBlock(AllColors[i - 1], attributes);
      ColorRunFacts(attributes, i - 1);
      ColorBlockAt(attributes, i - 1);
      assert ColorRun(attributes, i) == prev + block;
      RunLength(i, ColorBlockSize(attributes));
      DistinctAppend(prev, block);
      forall x: Card ensures x in prev + block <==> ColorIndex(x.color) < i && FixedBeyond(attributes, x) {
        assert x in prev + block <==> x in prev || x in block;
      }
    }
  }

  /** The generated deck holds 3^k cards for k in 1..3 and 81 otherwise, no
      card twice, and exactly the cards whose non-varying attributes carry
      their fixed values. */
  lemma UnshuffledDeckContents(attributes: int)
    ensures |UnshuffledDeck(attributes)| == DeckSize(attributes)
    ensures Distinct(UnshuffledDeck(attributes))
    ensures forall x :: x in UnshuffledDeck(attributes) <==> FixedBeyond(attributes, x)
  {
    ColorRunFacts(attributes, 3);
    forall x: Card ensures x in UnshuffledDeck(attributes) <==> FixedBeyond(attributes, x) {
      assert ColorIndex(x.color) < 3;
    }
  }

  /** The deck is closed under completing pairs: the missing card of two deck
      cards is a deck card, since the fixed attributes are shared. */
  lemma DeckClosed(attributes: int, a: Card, b: Card)
    requires a in UnshuffledDeck(attributes) && b in UnshuffledDeck(attributes)
    ensures MissingCard(a, b) in UnshuffledDeck(attributes)
  {
    UnshuffledDeckContents(attributes);
  }
}
