/**
 * The game record and its builder (parse/parse.go): properties, the tree
 * of `Node`s linked by `next` (the main line) and `variations`, the header
 * map `GameInfo`, and `SGFGame` with its main-line queries and `Parse`,
 * which consumes the scanner's items with a three-phase mode machine
 * (idle, header, in game) and a stack of nodes for nested parentheses.
 */
module Game {
  import opened LexChars
  import opened LexSpec
  import opened LexProps
  import opened Lexing

  /** `Property`: a name and its raw value. */
  datatype Property = Property(name: string, value: string)

  /** The zero `Property{}`: no name, no value. */
  const NoProperty := Property("", "")

  /** The two property names that are stored as a node's move. */
  predicate IsMove(name: string) {
    name == "B" || name == "W"
  }

  class Node {
    /** The move (`B` or `W` property), `NoProperty` when there is none. */
    var point: Property
    /** All other properties, in the order they were added. */
    var properties: seq<Property>
    /** First nodes of the alternative continuations after this node. */
    var variations: seq<Node>
    /** The following node of the same sequence. */
    var next: Node?

    ghost predicate IsEmpty()
      reads this
    {
      point == NoProperty && properties == [] && variations == [] && next == null
    }

    /** `new(Node)` */
    constructor ()
      ensures IsEmpty()
    {
      point := NoProperty;
      properties := [];
      variations := [];
      next := null;
    }

    /**
     * `AddProperty`: a `B` or `W` property replaces the move; any other is
     * appended to the properties. `next` and `variations` are not touched.
     */
    method AddProperty(prop: Property)
      modifies this`point, this`properties
      ensures IsMove(prop.name) ==> point == prop && properties == old(properties)
      ensures !IsMove(prop.name) ==> point == old(point) && properties == old(properties) + [prop]
    {
      if prop.name == "B" || prop.name == "W" {
        point := prop;
      } else {
        properties := properties + [prop];
      }
    }

    /** `NewNode`: a fresh empty node becomes `next`; nothing else changes. */
    method NewNode() returns (n: Node)
      modifies this`next
      ensures fresh(n) && n.IsEmpty() && next == n
    {
      n := new Node();
      next := n;
    }

    /** `NewVariation`: a fresh empty node is appended to `variations`; nothing else changes. */
    method NewVariation() returns (n: Node)
      modifies this`variations
      ensures fresh(n) && n.IsEmpty() && variations == old(variations) + [n]
    {
      n := new Node();
      variations := variations + [n];
    }
  }

  /** `GameInfo`: the header, from upper-case property name to raw value. */
  datatype GameInfo = GameInfo(properties: map<string, string>)
  {
    /**
     * `GameInfo.AddProperty`: the value is stored under the upper-cased
     * name, replacing any earlier value; all other entries are kept.
     */
    function AddProperty(prop: Property): (gi: GameInfo)
      ensures Upper(prop.name) in gi.properties && gi.properties[Upper(prop.name)] == prop.value
      ensures gi.properties.Keys == properties.Keys + {Upper(prop.name)}
      ensures forall k :: k in properties && k != Upper(prop.name) ==> gi.properties[k] == properties[k]
    {
      GameInfo(properties[Upper(prop.name) := prop.value])
    }

    /**
     * `GameInfo.GetProperty`: the value stored under the upper-cased name
     * and `true`, or `""` and `false` when there is none.
     */
    function GetProperty(name: string): (r: (string, bool))
      ensures r.1 <==> Upper(name) in properties
      ensures r.1 ==> r.0 == properties[Upper(name)]
      ensures !r.1 ==> r.0 == ""
    {
      if Upper(name) in properties then (properties[Upper(name)], true) else ("", false)
    }
  }

  /** An entry of the error list: the kind and position of the scanner's error item. */
  datatype ParseError = ParseError(kind: ErrorKind, pos: nat)

  /** The outcome of `NthNode`: the node, or which of the two errors it returns. */
  datatype NthResult = Found(node: Node) | LessThanOne | BeyondCount(count: nat)

  /**
   * The local state of `Parse`: the current node, the property being
   * completed, the two phase flags and the stack of saved nodes.
   */
  datatype Builder = Builder(currentNode: Node?, prop: Property, parsingSetup: bool, parsingGame: bool, nodeStack: seq<Node>)

  /** The builder state `Parse` starts from. */
  const Initial := Builder(null, NoProperty, false, false, [])

  /**
   * The shape the builder keeps: at most one phase flag is set; before the
   * game phase there is no current node and nothing on the stack; in the
   * game phase the current node and every saved node end their sequence
   * (`next == null`), and the current node is not on the stack, which holds
   * no node twice.
   */
  ghost predicate BuilderOk(b: Builder)
    reads b.currentNode, b.nodeStack
  {
    && !(b.parsingSetup && b.parsingGame)
    && (!b.parsingGame ==> b.currentNode == null && b.nodeStack == [])
    && (b.parsingGame ==>
          && b.currentNode != null && b.currentNode.next == null
          && b.currentNode !in b.nodeStack
          && (forall j, k :: 0 <= j < k < |b.nodeStack| ==> b.nodeStack[j] != b.nodeStack[k])
          && (forall j :: 0 <= j < |b.nodeStack| ==> b.nodeStack[j].next == null))
  }

  /**
   * The header after the builder, in phases `setup` and `game` with pending
   * property `prop`, consumes `items` up to the first EOF or error item.
   */
  function HeaderFold(gi: GameInfo, items: seq<Item>, setup: bool, game: bool, prop: Property): GameInfo
    decreases |items|
  {
    if items == [] then gi
    else
      var it := items[0];
      match it.typ
      case ItemSemiColon => HeaderFold(gi, items[1..], !setup && !game, setup || game, prop)
      case ItemPropertyName => HeaderFold(gi, items[1..], setup, game, Property(it.val, ""))
      case ItemPropertyValue =>
        var p := prop.(value := it.val);
        HeaderFold(if setup then gi.AddProperty(p) else gi, items[1..], setup, game, p)
      case ItemLeftParen => HeaderFold(gi, items[1..], setup, game, prop)
      case ItemRightParen => HeaderFold(gi, items[1..], setup, game, prop)
      case ItemEOF => gi
      case ItemError(_) => gi
  }

  /** The number of semicolon items. */
  function SemiCount(items: seq<Item>): nat {
    if items == [] then 0
    else SemiCount(items[..|items| - 1]) + (if items[|items| - 1].typ == ItemSemiColon then 1 else 0)
  }

  /** A semicolon anywhere makes the count positive. */
  lemma {:induction false} SemiCountAt(items: seq<Item>, k: nat)
    requires k < |items| && items[k].typ == ItemSemiColon
    ensures SemiCount(items) >= 1
    decreases |items|
  {
    if k < |items| - 1 {
      var front := items[..|items| - 1];
      assert front[k] == items[k];
      SemiCountAt(front, k);
    }
  }

  /** Counting one more item. */
  lemma SemiCountSnoc(items: seq<Item>, i: nat)
    requires i < |items|
    ensures SemiCount(items[..i + 1]) == SemiCount(items[..i]) + (if items[i].typ == ItemSemiColon then 1 else 0)
  {
    assert items[..i + 1][..i] == items[..i];
  }

  /** Folding the items from `i` on is folding `items[i]`, then the rest. */
  lemma HeaderFoldAt(gi: GameInfo, items: seq<Item>, i: nat, setup: bool, game: bool, prop: Property)
    requires i < |items|
    ensures HeaderFold(gi, items[i..], setup, game, prop) == HeaderFold(gi, [items[i]] + items[i + 1..], setup, game, prop)
  {
    assert items[i..] == [items[i]] + items[i + 1..];
  }

  /**
   * The shape of a stream the builder relies on: it ends with its only EOF
   * or error item, and every value comes after a semicolon (so a phase flag
   * is set when it arrives).
   */
  ghost predicate Consumable(items: seq<Item>) {
    && |items| > 0
    && IsTerminal(items[|items| - 1].typ)
    && (forall k :: 0 <= k < |items| - 1 ==> !IsTerminal(items[k].typ))
    && (forall k :: 0 <= k < |items| && items[k].typ == ItemPropertyValue ==> SemiCount(items[..k]) >= 1)
  }

  /** Every stream the scanner produces has that shape. */
  lemma LexConsumable(input: string)
    ensures Consumable(Lex(input))
  {
    var r := Lex(input);
    LexGrammar(input);
    LexValueAfterSemiColon(input);
    forall k | 0 <= k < |r| && r[k].typ == ItemPropertyValue
      ensures SemiCount(r[..k]) >= 1
    {
      SemiCountAt(r[..k], 1);
    }
  }

  /** The error a stream ends with, if it ends with one. */
  function TrailingError(items: seq<Item>): seq<ParseError> {
    if |items| > 0 && items[|items| - 1].typ.ItemError? then
      [ParseError(items[|items| - 1].typ.kind, items[|items| - 1].pos)]
    else []
  }

  /**
   * What a main-line node holds once the stream is consumed: its move, its
   * other properties in order, and how many variations branch after it.
   */
  datatype Content = Content(point: Property, properties: seq<Property>, variations: nat)

  /** The content of a fresh node. */
  const EmptyContent := Content(NoProperty, [], 0)

  /** `Node.AddProperty` on contents: a move replaces the move, anything else is appended. */
  function AddToContent(c: Content, p: Property): Content {
    if IsMove(p.name) then c.(point := p) else c.(properties := c.properties + [p])
  }

  /** The last node of a main line receives a property. */
  function AddLast(ml: seq<Content>, p: Property): seq<Content> {
    if ml == [] then ml else ml[..|ml| - 1] + [AddToContent(ml[|ml| - 1], p)]
  }

  /** The last node of a main line gains a variation. */
  function BranchLast(ml: seq<Content>): seq<Content> {
    if ml == [] then ml
    else ml[..|ml| - 1] + [ml[|ml| - 1].(variations := ml[|ml| - 1].variations + 1)]
  }

  /**
   * What the builder has made of the main line so far: its contents, the
   * two phase flags, how many parentheses deep inside variations it is
   * (the height of the node stack), and the pending property.
   */
  datatype Outline = Outline(ml: seq<Content>, setup: bool, game: bool, depth: nat, prop: Property)

  /** The outline before the first item. */
  const Start := Outline([], false, false, 0, NoProperty)

  /**
   * The effect of one item on the outline. Only at depth 0 is the current
   * node the last main-line node: there `(` adds a variation to it, `;`
   * appends a new node and a value goes into it. Deeper inside variations
   * nothing reaches the main line; `(` and `)` only change the depth.
   */
  function OutlineStep(s: Outline, it: Item): Outline {
    match it.typ
    case ItemLeftParen =>
      if !s.game then s
      else s.(ml := if s.depth == 0 then BranchLast(s.ml) else s.ml, depth := s.depth + 1)
    case ItemRightParen =>
      if s.game && s.depth > 0 then s.(depth := s.depth - 1) else s
    case ItemSemiColon =>
      if !s.setup && !s.game then s.(setup := true)
      else if !s.game then s.(setup := false, game := true, ml := [EmptyContent], depth := 0)
      else s.(ml := if s.depth == 0 then s.ml + [EmptyContent] else s.ml)
    case ItemPropertyName => s.(prop := Property(it.val, ""))
    case ItemPropertyValue =>
      var p := s.prop.(value := it.val);
      s.(prop := p, ml := if s.game && s.depth == 0 then AddLast(s.ml, p) else s.ml)
    case ItemEOF => s
    case ItemError(_) => s
  }

  /** The main line after consuming `items` from outline `s`, up to the first EOF or error item. */
  function MainFold(s: Outline, items: seq<Item>): seq<Content>
    decreases |items|
  {
    if items == [] || IsTerminal(items[0].typ) then s.ml
    else MainFold(OutlineStep(s, items[0]), items[1..])
  }

  /** Folding the items from `i` on is stopping at a terminal `items[i]` or stepping past it. */
  lemma MainFoldAt(s: Outline, items: seq<Item>, i: nat)
    requires i < |items|
    ensures MainFold(s, items[i..]) ==
      if IsTerminal(items[i].typ) then s.ml else MainFold(OutlineStep(s, items[i]), items[i + 1..])
  {
    assert items[i..][1..] == items[i + 1..];
  }

  /** The contents of a node as the main line records them. */
  ghost function ContentOf(n: Node): Content
    reads n`point, n`properties, n`variations
  {
    Content(n.point, n.properties, |n.variations|)
  }

  class SGFGame {
    var gameInfo: GameInfo
    var gameTree: Node?
    var errors: seq<ParseError>
    /** The main line: the nodes reached from `gameTree` by following `next`. */
    ghost var MainLine: seq<Node>

    /** `MainLine` is exactly the `next`-chain from `gameTree`, and it ends. */
    ghost predicate Valid()
      reads this, MainLine
    {
      && (gameTree == null <==> MainLine == [])
      && (gameTree != null ==> MainLine[0] == gameTree)
      && (forall i :: 0 <= i < |MainLine| - 1 ==> MainLine[i].next == MainLine[i + 1])
      && (MainLine != [] ==> MainLine[|MainLine| - 1].next == null)
    }

    /** The main line holds exactly the contents `ml`, node by node. */
    ghost predicate Mirrors(ml: seq<Content>)
      reads this`MainLine, MainLine
    {
      |MainLine| == |ml| && forall i :: 0 <= i < |ml| ==> ContentOf(MainLine[i]) == ml[i]
    }

    /**
     * The builder state `b` matches outline `s`: the same flags and pending
     * property; in the game phase the stack height is the depth and the main
     * line holds `s.ml`. At depth 0 the current node is the last main-line
     * node; deeper, the bottom of the stack is, and the current node and the
     * rest of the stack lie off the main line.
     */
    ghost predicate Tracks(b: Builder, s: Outline)
      reads this`MainLine, MainLine, b.currentNode, b.nodeStack
    {
      && b.parsingSetup == s.setup && b.parsingGame == s.game && b.prop == s.prop
      && (s.game ==>
            && |b.nodeStack| == s.depth && Mirrors(s.ml) && |MainLine| > 0
            && (b.nodeStack == [] ==> b.currentNode == MainLine[|MainLine| - 1])
            && (b.nodeStack != [] ==>
                  && b.nodeStack[0] == MainLine[|MainLine| - 1]
                  && b.currentNode !in MainLine
                  && forall j :: 1 <= j < |b.nodeStack| ==> b.nodeStack[j] !in MainLine))
    }

    /** The zero `SGFGame`: empty header, no tree, no errors. */
    constructor ()
      ensures Valid()
      ensures gameInfo == GameInfo(map[]) && gameTree == null && errors == []
    {
      gameInfo := GameInfo(map[]);
      gameTree := null;
      errors := [];
      MainLine := [];
    }

    /** `NodeCount`: the length of the main line, 0 without a tree. */
    method NodeCount() returns (count: nat)
      requires Valid()
      ensures count == |MainLine|
    {
      count := 0;
      var node := gameTree;
      while node != null
        invariant count <= |MainLine|
        invariant node == if count < |MainLine| then MainLine[count] else null
        decreases |MainLine| - count
      {
        count := count + 1;
        node := node.next;
      }
    }

    /**
     * `NthNode`: fails for `n < 1` and for `n` beyond the node count;
     * otherwise the node reached from `gameTree` after `n - 1` `next` steps.
     */
    method NthNode(n: int) returns (r: NthResult)
      requires Valid()
      ensures n < 1 ==> r == LessThanOne
      ensures 1 <= n <= |MainLine| ==> r == Found(MainLine[n - 1])
      ensures n > |MainLine| ==> r == BeyondCount(|MainLine|)
    {
      if n < 1 {
        return LessThanOne;
      }
      var nodeCount := NodeCount();
      if n > nodeCount {
        return BeyondCount(nodeCount);
      }
      var node := gameTree;
      var k := n;
      while k > 1
        invariant 1 <= k <= n
        invariant node == MainLine[n - k]
        decreases k
      {
        node := node.next;
        k := k - 1;
      }
      return Found(node);
    }

    /** `AddError`: one more error at the end of the list. */
    method AddError(e: ParseError)
      modifies this`errors
      ensures errors == old(errors) + [e]
    {
      errors := errors + [e];
    }

    /** `)` in the game phase: the most recently saved node becomes current again; nothing happens when none is saved. */
    method LeaveVariation(it: Item, b: Builder, ghost s: Outline) returns (nb: Builder)
      requires Valid() && BuilderOk(b) && Tracks(b, s) && b.parsingGame && it.typ == ItemRightParen
      ensures |b.nodeStack| > 0 ==>
        nb == b.(currentNode := b.nodeStack[|b.nodeStack| - 1], nodeStack := b.nodeStack[..|b.nodeStack| - 1])
      ensures |b.nodeStack| == 0 ==> nb == b
      ensures Tracks(nb, OutlineStep(s, it))
      ensures Valid() && BuilderOk(nb)
    {
      nb := b;
      if |b.nodeStack| > 0 {
        nb := b.(currentNode := b.nodeStack[|b.nodeStack| - 1], nodeStack := b.nodeStack[..|b.nodeStack| - 1]);
      }
    }

    /** The second `;`: a fresh empty root becomes the tree and the current node, and the game phase starts. */
    method StartGame(it: Item, b: Builder, ghost s: Outline) returns (nb: Builder)
      requires Valid() && BuilderOk(b) && Tracks(b, s) && b.parsingSetup && it.typ == ItemSemiColon
      modifies this`gameTree, this`MainLine
      ensures Valid() && BuilderOk(nb)
      ensures gameTree != null && fresh(gameTree) && gameTree.IsEmpty() && MainLine == [gameTree]
      ensures nb == b.(parsingSetup := false, parsingGame := true, currentNode := gameTree)
      ensures Tracks(nb, OutlineStep(s, it))
    {
      var root := new Node();
      gameTree := root;
      MainLine := [root];
      nb := b.(parsingSetup := false, parsingGame := true, currentNode := root);
      assert Mirrors([EmptyContent]);
    }

    /** `(` in the game phase: the current node is saved and a new last variation of it becomes current. */
    method EnterVariation(it: Item, b: Builder, ghost s: Outline) returns (nb: Builder)
      requires Valid() && BuilderOk(b) && Tracks(b, s) && b.parsingGame && it.typ == ItemLeftParen
      modifies b.currentNode`variations
      ensures fresh(nb.currentNode) && nb.currentNode.IsEmpty()
      ensures nb == b.(currentNode := nb.currentNode, nodeStack := b.nodeStack + [b.currentNode])
      ensures b.currentNode.variations == old(b.currentNode.variations) + [nb.currentNode]
      ensures Tracks(nb, OutlineStep(s, it))
      ensures Valid() && BuilderOk(nb)
    {
      ghost var last := |MainLine| - 1;
      forall k | 0 <= k < last
        ensures MainLine[k] != MainLine[last]
      {
        assert MainLine[k].next == MainLine[k + 1];
      }
      var cur: Node := b.currentNode;
      var v := cur.NewVariation();
      nb := b.(currentNode := v, nodeStack := b.nodeStack + [cur]);
      ghost var t := OutlineStep(s, it);
      if b.nodeStack == [] {
        assert t == s.(ml := BranchLast(s.ml), depth := 1);
        assert forall k :: 0 <= k < last ==> ContentOf(MainLine[k]) == s.ml[k] == t.ml[k];
        assert ContentOf(cur) == t.ml[last];
        assert Mirrors(t.ml);
      } else {
        assert t == s.(depth := s.depth + 1);
        assert forall k :: 0 <= k < |MainLine| ==> ContentOf(MainLine[k]) == s.ml[k];
        assert Mirrors(t.ml);
      }
    }

    /**
     * `;` in the game phase: a new empty node becomes the `next` of the
     * current node and then current; the main line grows when the current
     * node was its last node.
     */
    method AppendNode(it: Item, b: Builder, ghost s: Outline) returns (nb: Builder)
      requires Valid() && BuilderOk(b) && Tracks(b, s) && b.parsingGame && it.typ == ItemSemiColon
      modifies this`MainLine, b.currentNode`next
      ensures Valid() && BuilderOk(nb)
      ensures fresh(nb.currentNode) && nb.currentNode.IsEmpty()
      ensures nb == b.(currentNode := nb.currentNode)
      ensures b.currentNode.next == nb.currentNode
      ensures MainLine ==
        if |old(MainLine)| > 0 && b.currentNode == old(MainLine)[|old(MainLine)| - 1] then old(MainLine) + [nb.currentNode]
        else old(MainLine)
      ensures Tracks(nb, OutlineStep(s, it))
    {
      ghost var ml0 := MainLine;
      var cur: Node := b.currentNode;
      ghost var atLast := |MainLine| > 0 && cur == MainLine[|MainLine| - 1];
      forall i | 0 <= i < |MainLine| - 1
        ensures MainLine[i].next != null
      {
        assert MainLine[i].next == MainLine[i + 1];
      }
      assert !atLast ==> cur !in MainLine;
      var n := cur.NewNode();
      if atLast {
        MainLine := MainLine + [n];
        assert forall k :: 0 <= k < |ml0| ==> ContentOf(ml0[k]) == s.ml[k];
        assert Mirrors(s.ml + [EmptyContent]);
      } else {
        assert forall k :: 0 <= k < |ml0| ==> ContentOf(ml0[k]) == s.ml[k];
      }
      nb := b.(currentNode := n);
    }

    /** A property value in the game phase: the completed property goes to the current node. */
    method AddToCurrent(it: Item, b: Builder, ghost s: Outline) returns (nb: Builder)
      requires Valid() && BuilderOk(b) && Tracks(b, s) && b.parsingGame && it.typ == ItemPropertyValue
      modifies b.currentNode`point, b.currentNode`properties
      ensures nb == b.(prop := b.prop.(value := it.val))
      ensures IsMove(nb.prop.name) ==> b.currentNode.point == nb.prop && b.currentNode.properties == old(b.currentNode.properties)
      ensures !IsMove(nb.prop.name) ==>
        b.currentNode.point == old(b.currentNode.point) && b.currentNode.properties == old(b.currentNode.properties) + [nb.prop]
      ensures Tracks(nb, OutlineStep(s, it))
      ensures Valid() && BuilderOk(nb)
    {
      ghost var last := |MainLine| - 1;
      forall k | 0 <= k < last
        ensures MainLine[k] != MainLine[last]
      {
        assert MainLine[k].next == MainLine[k + 1];
      }
      var p := b.prop.(value := it.val);
      nb := b.(prop := p);
      var cur: Node := b.currentNode;
      cur.AddProperty(p);
      if b.nodeStack == [] {
        assert forall k :: 0 <= k < last ==> ContentOf(MainLine[k]) == s.ml[k];
        assert OutlineStep(s, it).ml == AddLast(s.ml, p);
      } else {
        assert forall k :: 0 <= k < |MainLine| ==> ContentOf(MainLine[k]) == s.ml[k];
      }
    }

    /**
     * One turn of the loop in `Parse`: the effect of item `it` on the
     * record and on the builder state `b`.
     *
     * - `(` and `)` act only in the game phase: `(` saves the current node
     *   and moves into a new last variation of it; `)` restores the most
     *   recently saved node, and does nothing when none is saved.
     * - The first `;` only enters the header phase; the second creates an
     *   empty root and enters the game phase; each later one appends a new
     *   `next` node and moves to it.
     * - A value completes the pending property, which goes to the header in
     *   the header phase and to the current node otherwise.
     * - An error item adds exactly one error; it and EOF stop the loop.
     */
    method ParseItem(it: Item, b: Builder, ghost s: Outline) returns (nb: Builder, stop: bool)
      requires Valid() && BuilderOk(b) && Tracks(b, s)
      requires it.typ == ItemPropertyValue ==> b.parsingSetup || b.parsingGame
      modifies this, b.currentNode
      ensures Valid() && BuilderOk(nb)
      ensures stop <==> IsTerminal(it.typ)
      ensures errors == old(errors) + (if it.typ.ItemError? then [ParseError(it.typ.kind, it.pos)] else [])
      ensures gameInfo ==
        if it.typ == ItemPropertyValue && b.parsingSetup then old(gameInfo).AddProperty(nb.prop) else old(gameInfo)
      // the builder state
      ensures it.typ == ItemLeftParen ==>
        if b.parsingGame then
          && fresh(nb.currentNode) && nb.currentNode.IsEmpty()
          && nb == b.(currentNode := nb.currentNode, nodeStack := nb.nodeStack)
          && nb.nodeStack == b.nodeStack + [b.currentNode]
        else nb == b
      ensures it.typ == ItemRightParen ==>
        if b.parsingGame && |b.nodeStack| > 0 then
          nb == b.(currentNode := b.nodeStack[|b.nodeStack| - 1], nodeStack := b.nodeStack[..|b.nodeStack| - 1])
        else nb == b
      ensures it.typ == ItemSemiColon && !b.parsingSetup && !b.parsingGame ==>
        nb == b.(parsingSetup := true)
      ensures it.typ == ItemSemiColon && b.parsingSetup ==>
        && nb == b.(parsingSetup := false, parsingGame := true, currentNode := gameTree)
        && gameTree != null && fresh(gameTree) && gameTree.IsEmpty() && MainLine == [gameTree]
      ensures it.typ == ItemSemiColon && b.parsingGame ==>
        && fresh(nb.currentNode) && nb.currentNode.IsEmpty()
        && nb == b.(currentNode := nb.currentNode)
        && MainLine ==
             if |old(MainLine)| > 0 && b.currentNode == old(MainLine)[|old(MainLine)| - 1] then old(MainLine) + [nb.currentNode]
             else old(MainLine)
      ensures it.typ == ItemPropertyName ==> nb == b.(prop := Property(it.val, ""))
      ensures it.typ == ItemPropertyValue ==> nb == b.(prop := b.prop.(value := it.val))
      ensures IsTerminal(it.typ) ==> nb == b
      // the tree: only the second semicolon replaces it
      ensures !(it.typ == ItemSemiColon && b.parsingSetup) ==> gameTree == old(gameTree)
      ensures !(it.typ == ItemSemiColon && (b.parsingSetup || b.parsingGame)) ==> MainLine == old(MainLine)
      // the current node
      ensures b.currentNode != null ==>
        && b.currentNode.variations ==
             (if it.typ == ItemLeftParen then old(b.currentNode.variations) + [nb.currentNode]
              else old(b.currentNode.variations))
        && b.currentNode.next ==
             (if it.typ == ItemSemiColon then nb.currentNode else old(b.currentNode.next))
        && b.currentNode.point ==
             (if it.typ == ItemPropertyValue && IsMove(nb.prop.name) then nb.prop else old(b.currentNode.point))
        && b.currentNode.properties ==
             (if it.typ == ItemPropertyValue && !IsMove(nb.prop.name) then old(b.currentNode.properties) + [nb.prop]
              else old(b.currentNode.properties))
      // the main line keeps mirroring the outline of the items so far
      ensures Tracks(nb, if stop then s else OutlineStep(s, it))
    {
      nb, stop := b, false;
      match it.typ {
        case ItemLeftParen =>
          if b.parsingGame {
            nb := EnterVariation(it, b, s);
          }
        case ItemRightParen =>
          if b.parsingGame {
            nb := LeaveVariation(it, b, s);
          }
        case ItemSemiColon =>
          if !b.parsingSetup && !b.parsingGame {
            nb := b.(parsingSetup := true);
          } else if !b.parsingGame {
            nb := StartGame(it, b, s);
          } else {
            nb := AppendNode(it, b, s);
          }
        case ItemPropertyName =>
          nb := b.(prop := Property(it.val, ""));
        case ItemPropertyValue =>
          if b.parsingSetup {
            var p := b.prop.(value := it.val);
            nb := b.(prop := p);
            gameInfo := gameInfo.AddProperty(p);
          } else {
            nb := AddToCurrent(it, b, s);
          }
        case ItemError(kind) =>
          AddError(ParseError(kind, it.pos));
          stop := true;
        case ItemEOF =>
          stop := true;
      }
    }

    /** Item `i` of a stream, with the phase flags following the semicolon count. */
    method ConsumeAt(items: seq<Item>, i: nat, b: Builder, ghost s: Outline) returns (nb: Builder, stop: bool)
      requires Valid() && BuilderOk(b) && Consumable(items) && i < |items|
      requires Tracks(b, s)
      requires (b.parsingSetup || b.parsingGame) <==> SemiCount(items[..i]) >= 1
      requires b.parsingGame <==> SemiCount(items[..i]) >= 2
      requires b.parsingGame ==> gameTree != null
      modifies this, b.currentNode
      ensures Valid() && BuilderOk(nb)
      ensures nb.currentNode != null ==> fresh(nb.currentNode) || nb.currentNode == b.currentNode || nb.currentNode in b.nodeStack
      ensures forall n :: n in nb.nodeStack ==> n in b.nodeStack || n == b.currentNode
      ensures stop <==> i + 1 == |items|
      ensures (nb.parsingSetup || nb.parsingGame) <==> SemiCount(items[..i + 1]) >= 1
      ensures nb.parsingGame <==> SemiCount(items[..i + 1]) >= 2
      ensures !nb.parsingGame ==> gameTree == old(gameTree) && MainLine == old(MainLine)
      ensures nb.parsingGame && !b.parsingGame ==> gameTree != null && fresh(gameTree) && |MainLine| > 0
      ensures b.parsingGame ==> nb.parsingGame && gameTree == old(gameTree) && |MainLine| >= |old(MainLine)|
      ensures !stop ==>
        HeaderFold(old(gameInfo), items[i..], b.parsingSetup, b.parsingGame, b.prop)
        == HeaderFold(gameInfo, items[i + 1..], nb.parsingSetup, nb.parsingGame, nb.prop)
      ensures stop ==> gameInfo == HeaderFold(old(gameInfo), items[i..], b.parsingSetup, b.parsingGame, b.prop)
      ensures errors == old(errors) + (if stop then TrailingError(items) else [])
      ensures Tracks(nb, if stop then s else OutlineStep(s, items[i]))
    {
      SemiCountSnoc(items, i);
      HeaderFoldAt(old(gameInfo), items, i, b.parsingSetup, b.parsingGame, b.prop);
      if items[i].typ == ItemPropertyValue {
        assert SemiCount(items[..i]) >= 1;
      }
      nb, stop := ParseItem(items[i], b, s);
    }

    /**
     * The loop of `Parse` over a stream of items: consume them until EOF or
     * the first error. The header is what the header phase collected; the
     * error list grows by the stream's error, if any; a new tree exists
     * exactly when the stream has at least two semicolons, otherwise the
     * tree is left as it was.
     */
    method Consume(items: seq<Item>)
      requires Valid() && Consumable(items)
      modifies this
      ensures Valid()
      ensures gameInfo == HeaderFold(old(gameInfo), items, false, false, NoProperty)
      ensures errors == old(errors) + TrailingError(items)
      ensures SemiCount(items) >= 2 ==> gameTree != null && fresh(gameTree) && |MainLine| > 0
      ensures SemiCount(items) < 2 ==> gameTree == old(gameTree) && MainLine == old(MainLine)
      ensures SemiCount(items) >= 2 ==> Mirrors(MainFold(Start, items))
    {
      var b := Initial;
      var i := 0;
      var stop := false;
      ghost var s := Start;
      while !stop
        invariant 0 <= i <= |items|
        invariant stop <==> i == |items|
        invariant Valid() && BuilderOk(b)
        invariant b.currentNode != null ==> fresh(b.currentNode)
        invariant forall n :: n in b.nodeStack ==> fresh(n)
        invariant (b.parsingSetup || b.parsingGame) <==> SemiCount(items[..i]) >= 1
        invariant b.parsingGame <==> SemiCount(items[..i]) >= 2
        invariant !b.parsingGame ==> gameTree == old(gameTree) && MainLine == old(MainLine)
        invariant b.parsingGame ==> gameTree != null && fresh(gameTree) && |MainLine| > 0
        invariant !stop ==>
          HeaderFold(old(gameInfo), items, false, false, NoProperty)
          == HeaderFold(gameInfo, items[i..], b.parsingSetup, b.parsingGame, b.prop)
        invariant stop ==> gameInfo == HeaderFold(old(gameInfo), items, false, false, NoProperty)
        invariant errors == old(errors) + (if stop then TrailingError(items) else [])
        invariant Tracks(b, s)
        invariant !stop ==> MainFold(Start, items) == MainFold(s, items[i..])
        invariant stop ==> MainFold(Start, items) == s.ml
        decreases |items| - i
      {
        MainFoldAt(s, items, i);
        b, stop := ConsumeAt(items, i, b, s);
        s := if stop then s else OutlineStep(s, items[i]);
        i := i + 1;
      }
      assert items[..i] == items;
      assert s.ml == MainFold(Start, items);
    }

    /**
     * `Parse`: scan the input (line breaks stripped) and consume its items
     * as `Consume` describes.
     */
    method Parse(input: string)
      requires Valid()
      modifies this
      ensures Valid()
      ensures gameInfo == HeaderFold(old(gameInfo), Lex(StripNewlines(input)), false, false, NoProperty)
      ensures errors == old(errors) + TrailingError(Lex(StripNewlines(input)))
      ensures SemiCount(Lex(StripNewlines(input))) >= 2 ==> gameTree != null && fresh(gameTree) && |MainLine| > 0
      ensures SemiCount(Lex(StripNewlines(input))) < 2 ==> gameTree == old(gameTree) && MainLine == old(MainLine)
      ensures SemiCount(Lex(StripNewlines(input))) >= 2 ==> Mirrors(MainFold(Start, Lex(StripNewlines(input))))
    {
      var items := Scan(input);
      LexConsumable(StripNewlines(input));
      Consume(items);
    }
  }
}
