/**
 * Properties of the main-line outline `MainFold`, which `Consume` and
 * `Parse` are proved to mirror node by node.
 */
module MainLineProps {
  import opened LexSpec
  import opened Game

  /**
   * Once the game phase has started, every main-line node before the last
   * one is settled: later items only touch the last node or append new
   * ones, so the outline never shrinks.
   */
  lemma {:induction false} MainFoldSettled(s: Outline, items: seq<Item>)
    requires s.game && |s.ml| > 0
    ensures |MainFold(s, items)| >= |s.ml|
    ensures MainFold(s, items)[..|s.ml| - 1] == s.ml[..|s.ml| - 1]
    decreases |items|
  {
    if items != [] && !IsTerminal(items[0].typ) {
      var t := OutlineStep(s, items[0]);
      assert t.game && |t.ml| >= |s.ml| && t.ml[..|s.ml| - 1] == s.ml[..|s.ml| - 1];
      MainFoldSettled(t, items[1..]);
      assert MainFold(s, items) == MainFold(t, items[1..]);
      assert t.ml[..|t.ml| - 1][..|s.ml| - 1] == t.ml[..|s.ml| - 1];
      assert MainFold(t, items[1..])[..|t.ml| - 1][..|s.ml| - 1] == MainFold(t, items[1..])[..|s.ml| - 1];
    }
  }

  /** The outline after every item of `items`, none of which stops the builder. */
  function OutlineAfter(s: Outline, items: seq<Item>): Outline
    decreases |items|
  {
    if items == [] then s else OutlineAfter(OutlineStep(s, items[0]), items[1..])
  }

  /**
   * The builder has no look-ahead: folding `p + q` is folding `p` and then
   * folding `q` from where `p` left the outline.
   */
  lemma {:induction false} MainFoldAppend(s: Outline, p: seq<Item>, q: seq<Item>)
    requires forall k :: 0 <= k < |p| ==> !IsTerminal(p[k].typ)
    ensures MainFold(s, p + q) == MainFold(OutlineAfter(s, p), q)
    decreases |p|
  {
    if p != [] {
      assert (p + q)[0] == p[0] && (p + q)[1..] == p[1..] + q;
      MainFoldAppend(OutlineStep(s, p[0]), p[1..], q);
    } else {
      assert p + q == q;
    }
  }
}

module MainLineExamples {
  import opened LexSpec
  import opened LexChars
  import opened Game
  import opened GameProps
  import opened MainLineProps

  /** The items of `(;K[v]`: the header node. */
  const HeaderNode: seq<Item> := [
    Item(ItemLeftParen, 0, "("), Item(ItemSemiColon, 1, ";"), Item(ItemPropertyName, 2, "K"),
    Item(ItemPropertyValue, 4, "v")]

  /** The items of `;B[a])` at offset 6, ending the stream. */
  const RootNode: seq<Item> := [
    Item(ItemSemiColon, 6, ";"), Item(ItemPropertyName, 7, "B"), Item(ItemPropertyValue, 9, "a"),
    Item(ItemRightParen, 11, ")"), Item(ItemEOF, 12, "")]

  /** The items of `(;K[v];B[a])`. */
  const Flat: seq<Item> := HeaderNode + RootNode

  /** The items of `(;GM[1];B[aa]`: header node, then the root with its move. */
  const Opening: seq<Item> := [
    Item(ItemLeftParen, 0, "("), Item(ItemSemiColon, 1, ";"), Item(ItemPropertyName, 2, "GM"),
    Item(ItemPropertyValue, 5, "1"), Item(ItemSemiColon, 7, ";"), Item(ItemPropertyName, 8, "B"),
    Item(ItemPropertyValue, 10, "aa")]

  /** The items of `(;W[bb])` at offset 13. */
  const FirstVariation: seq<Item> := [
    Item(ItemLeftParen, 13, "("), Item(ItemSemiColon, 14, ";"), Item(ItemPropertyName, 15, "W"),
    Item(ItemPropertyValue, 17, "bb"), Item(ItemRightParen, 20, ")")]

  /** The items of `(;W[cc]))` at offset 21, closing the game tree. */
  const SecondVariation: seq<Item> := [
    Item(ItemLeftParen, 21, "("), Item(ItemSemiColon, 22, ";"), Item(ItemPropertyName, 23, "W"),
    Item(ItemPropertyValue, 25, "cc"), Item(ItemRightParen, 28, ")"), Item(ItemRightParen, 29, ")")]

  /** The items of `(;GM[1];B[aa](;W[bb])(;W[cc]))`. */
  const Branching: seq<Item> := Opening + (FirstVariation + (SecondVariation + [Item(ItemEOF, 30, "")]))

  /** The header node's properties stay out of the tree; the root holds the first move. */
  lemma FlatMainLine()
    ensures MainFold(Start, Flat) == [Content(Property("B", "a"), [], 0)]
  {
    MainFoldAppend(Start, HeaderNode, RootNode);
    assert OutlineAfter(Start, HeaderNode) == Outline([], true, false, 0, Property("K", "v"));
  }

  /** The header node leaves `K` in the header and the builder in the header phase. */
  lemma HeaderNodeFold(rest: seq<Item>)
    ensures HeaderFold(GameInfo(map[]), HeaderNode + rest, false, false, NoProperty)
      == HeaderFold(GameInfo(map["K" := "v"]), rest, true, false, Property("K", "v"))
  {
    var gi0 := GameInfo(map[]);
    var items := HeaderNode + rest;
    assert items[0..] == items && items[4..] == rest;
    assert items[0] == HeaderNode[0] && items[1] == HeaderNode[1] && items[2] == HeaderNode[2] && items[3] == HeaderNode[3];
    HeaderFoldAt(gi0, items, 0, false, false, NoProperty);
    HeaderFoldAt(gi0, items, 1, false, false, NoProperty);
    HeaderFoldAt(gi0, items, 2, true, false, NoProperty);
    HeaderFoldAt(gi0, items, 3, true, false, Property("K", ""));
    assert Upper("K") == "K";
  }

  /** The header of `(;K[v];B[a])` holds `K` and nothing else. */
  lemma FlatHeader()
    ensures HeaderFold(GameInfo(map[]), Flat, false, false, NoProperty) == GameInfo(map["K" := "v"])
  {
    var k := Property("K", "v");
    var gi := GameInfo(map["K" := "v"]);
    HeaderNodeFold(RootNode);
    HeaderFoldInGame(gi, RootNode[1..], k);
    assert HeaderFold(gi, RootNode, true, false, k) == gi;
  }

  /** The stream is one the builder accepts, with two semicolons. */
  lemma FlatConsumable()
    ensures Consumable(Flat) && SemiCount(Flat) == 2
  {
    assert Flat[..0] == [];
    SemiCountSnoc(Flat, 0); SemiCountSnoc(Flat, 1); SemiCountSnoc(Flat, 2); SemiCountSnoc(Flat, 3);
    SemiCountSnoc(Flat, 4); SemiCountSnoc(Flat, 5); SemiCountSnoc(Flat, 6); SemiCountSnoc(Flat, 7);
    SemiCountSnoc(Flat, 8);
    assert Flat[..9] == Flat;
  }

  /** The root once its move is read. */
  const Moved := Outline([Content(Property("B", "aa"), [], 0)], false, true, 0, Property("B", "aa"))

  /** After the header node and the root's move. */
  lemma OpeningOutline()
    ensures OutlineAfter(Start, Opening) == Moved
  {
  }

  /** A variation adds one to the root's count and leaves the builder back at the root. */
  lemma FirstVariationOutline()
    ensures OutlineAfter(Moved, FirstVariation)
      == Outline([Content(Property("B", "aa"), [], 1)], false, true, 0, Property("W", "bb"))
  {
  }

  /** The second variation, and the `)` that closes the game tree. */
  lemma SecondVariationOutline()
    ensures OutlineAfter(Outline([Content(Property("B", "aa"), [], 1)], false, true, 0, Property("W", "bb")), SecondVariation)
      == Outline([Content(Property("B", "aa"), [], 2)], false, true, 0, Property("W", "cc"))
  {
  }

  /** Both variations hang off the root, whose own move is the one before them. */
  lemma BranchingMainLine()
    ensures MainFold(Start, Branching) == [Content(Property("B", "aa"), [], 2)]
  {
    var first := Outline([Content(Property("B", "aa"), [], 1)], false, true, 0, Property("W", "bb"));
    var second := Outline([Content(Property("B", "aa"), [], 2)], false, true, 0, Property("W", "cc"));
    var eof := [Item(ItemEOF, 30, "")];
    MainFoldAppend(Start, Opening, FirstVariation + (SecondVariation + eof));
    OpeningOutline();
    MainFoldAppend(Moved, FirstVariation, SecondVariation + eof);
    FirstVariationOutline();
    MainFoldAppend(first, SecondVariation, eof);
    SecondVariationOutline();
    assert MainFold(second, eof) == second.ml;
  }

  /**
   * Building the record from the items of `(;K[v];B[a])`: the header holds
   * `K`, the tree is a single root holding the move `B[a]`.
   */
  method BuildFlat() returns (header: (string, bool), point: Property, nodes: nat)
    ensures header == ("v", true)
    ensures point == Property("B", "a")
    ensures nodes == 1
  {
    var g := new SGFGame();
    FlatConsumable();
    g.Consume(Flat);
    FlatMainLine();
    FlatHeader();
    assert Upper("k") == "K";
    header := g.gameInfo.GetProperty("k");
    point := g.gameTree.point;
    nodes := g.NodeCount();
  }
}
