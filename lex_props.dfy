/**
 * Properties of the item stream of the SGF scanner (parse/lex.go):
 * the stream always ends with exactly one EOF or error item, consecutive
 * items follow the scanner's grammar, every item's text is the input it
 * was cut from (upper-cased for names), positions never decrease, and an
 * input without `(` yields a single EOF item.
 */
module LexProps {
  import opened LexChars
  import opened LexSpec

  /** The type of the first item a state emits (for `Begin`, the one it hands over to). */
  function FirstType(s: StateFn): ItemType {
    match s
    case Nil => ItemEOF
    case Begin => ItemLeftParen
    case LeftParen => ItemLeftParen
    case RightParen => ItemRightParen
    case SemiColon => ItemSemiColon
    case PropertyName => ItemPropertyName
    case LeftBracket => ItemPropertyValue
  }

  /**
   * Which item types may follow item `a`. A value may only be followed by
   * something other than the missing-`]` error when the rune after its
   * text is `]`; nothing may follow EOF or an error.
   */
  predicate FollowsType(input: string, a: Item, t: ItemType) {
    match a.typ
    case ItemLeftParen => t == ItemSemiColon || t == ItemError(SemiColonExpected)
    case ItemSemiColon => t == ItemPropertyName || t == ItemError(PropertyExpected)
    case ItemPropertyName => t == ItemPropertyValue || t == ItemError(LeftBracketExpected)
    case ItemPropertyValue =>
      if PeekAt(input, a.pos + |a.val|) == Ch(']') then
        t != ItemEOF && t != ItemError(SemiColonExpected) && t != ItemError(PropertyExpected)
        && t != ItemError(LeftBracketExpected) && t != ItemError(RightBracketExpected)
      else t == ItemError(RightBracketExpected)
    case ItemRightParen =>
      t == ItemLeftParen || t == ItemPropertyName || t == ItemRightParen || t == ItemSemiColon || t == ItemEOF
    case ItemEOF => false
    case ItemError(_) => false
  }

  /** Every two consecutive items follow the grammar. */
  predicate Chained(input: string, r: seq<Item>) {
    forall k :: 0 <= k < |r| - 1 ==> FollowsType(input, r[k], r[k + 1].typ)
  }

  /** What the scanner promises about a single item, relative to the input. */
  predicate ItemOk(input: string, it: Item) {
    it.pos + |it.val| <= |input| &&
    match it.typ
    case ItemPropertyName =>
      |it.val| > 0
      && (forall k :: it.pos <= k < it.pos + |it.val| ==> IsAlpha(Ch(input[k])))
      && it.val == Upper(input[it.pos..it.pos + |it.val|])
    case ItemPropertyValue =>
      it.val == input[it.pos..it.pos + |it.val|]
      && forall k :: 0 <= k < |it.val| ==> IsPropertyValueChar(Ch(it.val[k]))
    case ItemSemiColon => it.val == ";" && it.val == input[it.pos..it.pos + 1]
    case ItemRightParen => it.val == ")" && it.val == input[it.pos..it.pos + 1]
    case ItemLeftParen =>
      |it.val| > 0 && it.val == input[it.pos..it.pos + |it.val|] && it.val[|it.val| - 1] == '('
    case ItemEOF => it.val == input[it.pos..it.pos + |it.val|]
    case ItemError(_) => it.val == ""
  }

  /** Item positions never decrease. */
  predicate Sorted(r: seq<Item>) {
    forall j, k :: 0 <= j < k < |r| ==> r[j].pos <= r[k].pos
  }

  /** The grammar facts about the items one state emits. */
  lemma StepShape(input: string, s: StateFn, pos: nat, start: nat)
    requires Ready(input, s, pos, start) && s != Nil
    ensures var o := Step(input, s, pos, start);
      && Chained(input, o.emitted)
      && (o.next == Nil ==> |o.emitted| > 0 && IsTerminal(o.emitted[|o.emitted| - 1].typ))
      && (o.next != Nil && |o.emitted| > 0 ==> FollowsType(input, o.emitted[|o.emitted| - 1], FirstType(o.next)))
      && (|o.emitted| == 0 ==> s == Begin && o.next == LeftParen)
      && (|o.emitted| > 0 ==> o.emitted[0].typ == if s == Begin then ItemEOF else FirstType(s))
  {
    var o := Step(input, s, pos, start);
    match s {
      case Begin => assert o == BeginStep(input, pos, start);
      case LeftParen => assert o == LeftParenStep(input, pos, start);
      case RightParen => assert o == RightParenStep(input, pos, start);
      case SemiColon => assert o == SemiColonStep(input, pos, start);
      case PropertyName => assert o == PropertyNameStep(input, pos, start);
      case LeftBracket =>
        assert o == LeftBracketStep(input, pos, start);
        var q := RunEnd(input, pos + 1, ValueChar);
        assert o.emitted[0].pos + |o.emitted[0].val| == q;
    }
  }

  /**
   * The items of one state's outcome `o`, entered with pending start `start`:
   * well formed, in order, at or after `start` and at or before the new start.
   */
  predicate EmitsOk(input: string, start: nat, o: Outcome) {
    && start <= o.start
    && Sorted(o.emitted)
    && forall k :: 0 <= k < |o.emitted| ==> ItemOk(input, o.emitted[k]) && start <= o.emitted[k].pos <= o.start
  }

  /**
   * `lexBegin` emits nothing while a `(` lies ahead; otherwise its one EOF
   * item carries all the pending text, placed at `start`.
   */
  lemma BeginItems(input: string, pos: nat, start: nat)
    requires Ready(input, Begin, pos, start)
    ensures EmitsOk(input, start, BeginStep(input, pos, start))
    ensures var o := BeginStep(input, pos, start);
      && (o.next == Nil <==> '(' !in input[pos..])
      && (o.next == Nil ==> o.emitted == [Item(ItemEOF, start, input[start..])])
      && (o.next == LeftParen ==> o.emitted == [] && o.start == start && input[o.pos] == '(' && '(' !in input[pos..o.pos])
  {
    var q := FindParen(input, pos);
    if q < |input| {
      assert input[pos..][q - pos] == '(';
    } else {
      assert forall c :: c in input[pos..] ==> c != '(';
    }
  }

  /** The `)` item is the one character at `pos`; a closing EOF item after it is empty. */
  lemma RightParenItems(input: string, pos: nat, start: nat)
    requires Ready(input, RightParen, pos, start)
    ensures EmitsOk(input, start, RightParenStep(input, pos, start))
    ensures var o := RightParenStep(input, pos, start);
      && o.emitted[0] == Item(ItemRightParen, pos, ")")
      && (o.next == Nil ==> o.emitted == [Item(ItemRightParen, pos, ")"), Item(ItemEOF, pos + 1, "")])
  {
    assert input[start..pos + 1] == [input[pos]] == ")";
  }

  /** The `;` item is the one character at `pos`. */
  lemma SemiColonItems(input: string, pos: nat, start: nat)
    requires Ready(input, SemiColon, pos, start)
    ensures EmitsOk(input, start, SemiColonStep(input, pos, start))
    ensures SemiColonStep(input, pos, start).emitted[0] == Item(ItemSemiColon, pos, ";")
  {
    assert input[start..pos + 1] == [input[pos]] == ";";
  }

  /** The `(` item is the text skipped before it followed by `(`, placed at `start`. */
  lemma LeftParenItems(input: string, pos: nat, start: nat)
    requires Ready(input, LeftParen, pos, start)
    ensures EmitsOk(input, start, LeftParenStep(input, pos, start))
    ensures LeftParenStep(input, pos, start).emitted[0] == Item(ItemLeftParen, start, input[start..pos] + "(")
  {
    assert input[start..pos + 1][pos - start] == '(';
    assert input[start..pos + 1] == input[start..pos] + [input[pos]];
  }

  /** The name item is the run of letters at `pos`, upper-cased. */
  lemma PropertyNameItems(input: string, pos: nat, start: nat)
    requires Ready(input, PropertyName, pos, start)
    ensures EmitsOk(input, start, PropertyNameStep(input, pos, start))
  {
    var q := RunEnd(input, pos, Alpha);
    assert PropertyNameStep(input, pos, start).emitted[0].val == Upper(input[pos..q]);
  }

  /**
   * The value item starts just after the `[` and is the longest run of
   * printable runes other than `]` there.
   */
  lemma LeftBracketItems(input: string, pos: nat, start: nat)
    requires Ready(input, LeftBracket, pos, start)
    ensures EmitsOk(input, start, LeftBracketStep(input, pos, start))
    ensures var it := LeftBracketStep(input, pos, start).emitted[0];
      && it.typ == ItemPropertyValue && it.pos == pos + 1
      && !IsPropertyValueChar(PeekAt(input, pos + 1 + |it.val|))
  {
    var q := RunEnd(input, pos + 1, ValueChar);
    var v := input[pos + 1..q];
    assert LeftBracketStep(input, pos, start).emitted[0] == Item(ItemPropertyValue, pos + 1, v);
    assert pos + 1 + |v| == q;
    assert forall k :: 0 <= k < |v| ==> v[k] == input[pos + 1 + k];
  }

  /** The item facts about the items one state emits. */
  lemma StepItems(input: string, s: StateFn, pos: nat, start: nat)
    requires Ready(input, s, pos, start) && s != Nil
    ensures EmitsOk(input, start, Step(input, s, pos, start))
  {
    match s {
      case Begin => BeginItems(input, pos, start);
      case LeftParen => LeftParenItems(input, pos, start);
      case RightParen => RightParenItems(input, pos, start);
      case SemiColon => SemiColonItems(input, pos, start);
      case PropertyName => PropertyNameItems(input, pos, start);
      case LeftBracket => LeftBracketItems(input, pos, start);
    }
  }

  /** Items of one outcome followed by well-formed items at or after its new start. */
  lemma ItemsConcat(input: string, start: nat, o: Outcome, rest: seq<Item>)
    requires EmitsOk(input, start, o)
    requires Sorted(rest) && forall k :: 0 <= k < |rest| ==> ItemOk(input, rest[k]) && o.start <= rest[k].pos
    ensures var r := o.emitted + rest;
      && Sorted(r)
      && forall k :: 0 <= k < |r| ==> ItemOk(input, r[k]) && start <= r[k].pos
  {
    var r := o.emitted + rest;
    var n := |o.emitted|;
    assert forall k :: n <= k < |r| ==> r[k] == rest[k - n];
    assert forall k :: 0 <= k < n ==> r[k] == o.emitted[k];
  }

  /** Gluing a chained prefix to a chained rest through a linking pair keeps the chain. */
  lemma ChainedConcat(input: string, a: seq<Item>, b: seq<Item>)
    requires Chained(input, a) && Chained(input, b)
    requires |a| > 0 && |b| > 0 ==> FollowsType(input, a[|a| - 1], b[0].typ)
    ensures Chained(input, a + b)
  {
    var r := a + b;
    forall k | 0 <= k < |r| - 1
      ensures FollowsType(input, r[k], r[k + 1].typ)
    {
      if k < |a| - 1 {
        assert r[k] == a[k] && r[k + 1] == a[k + 1];
      } else if k == |a| - 1 {
        assert r[k] == a[|a| - 1] && r[k + 1] == b[0];
      } else {
        assert r[k] == b[k - |a|] && r[k + 1] == b[k - |a| + 1];
      }
    }
  }

  /**
   * The stream from any state is non-empty, starts with the state's first
   * item type, follows the grammar throughout and ends with EOF or an error.
   */
  lemma {:induction false} LexFromShape(input: string, s: StateFn, pos: nat, start: nat)
    requires Ready(input, s, pos, start) && s != Nil
    ensures var r := LexFrom(input, s, pos, start);
      && |r| > 0
      && IsTerminal(r[|r| - 1].typ)
      && Chained(input, r)
      && (s == Begin ==> r[0].typ == ItemLeftParen || r[0].typ == ItemEOF)
      && (s != Begin ==> r[0].typ == FirstType(s))
    decreases |input| - pos, Rank(s)
  {
    var o := Step(input, s, pos, start);
    StepShape(input, s, pos, start);
    LexFromUnfold(input, s, pos, start);
    if o.next == Nil {
      assert LexFrom(input, o.next, o.pos, o.start) == [];
      assert LexFrom(input, s, pos, start) == o.emitted;
    } else {
      var rest := LexFrom(input, o.next, o.pos, o.start);
      LexFromShape(input, o.next, o.pos, o.start);
      ChainedConcat(input, o.emitted, rest);
      var r := o.emitted + rest;
      assert r[|r| - 1] == rest[|rest| - 1];
      if |o.emitted| > 0 {
        assert r[0] == o.emitted[0];
        assert !IsTerminal(o.emitted[0].typ) || |o.emitted| == 1;
      }
    }
  }

  /** Every item of the stream from a state is well formed, at or after `start`, and in order. */
  lemma {:induction false} LexFromItems(input: string, s: StateFn, pos: nat, start: nat)
    requires Ready(input, s, pos, start)
    ensures var r := LexFrom(input, s, pos, start);
      && Sorted(r)
      && forall k :: 0 <= k < |r| ==> ItemOk(input, r[k]) && start <= r[k].pos
    decreases |input| - pos, Rank(s)
  {
    if s != Nil {
      var o := Step(input, s, pos, start);
      StepItems(input, s, pos, start);
      LexFromUnfold(input, s, pos, start);
      LexFromItems(input, o.next, o.pos, o.start);
      ItemsConcat(input, start, o, LexFrom(input, o.next, o.pos, o.start));
    }
  }

  /**
   * The stream of every input ends with exactly one EOF or error item and
   * nothing follows it; it opens with `(` or is that single EOF item; a `(`
   * is always followed by `;` or an error; a `;` by a property name or an
   * error, so a doubled `;;` yields a single semicolon item; a name by a
   * value or an error; and a value not closed by `]` by an error.
   */
  lemma LexGrammar(input: string)
    ensures |Lex(input)| > 0
    ensures var r := Lex(input); IsTerminal(r[|r| - 1].typ)
    ensures var r := Lex(input); forall k :: 0 <= k < |r| - 1 ==> !IsTerminal(r[k].typ)
    ensures var r := Lex(input); r[0].typ == ItemLeftParen || r[0].typ == ItemEOF
    ensures var r := Lex(input);
      forall k :: 0 <= k < |r| - 1 && r[k].typ == ItemLeftParen ==>
        r[k + 1].typ == ItemSemiColon || r[k + 1].typ.ItemError?
    ensures var r := Lex(input);
      forall k :: 0 <= k < |r| - 1 && r[k].typ == ItemSemiColon ==>
        r[k + 1].typ == ItemPropertyName || r[k + 1].typ.ItemError?
    ensures var r := Lex(input);
      forall k :: 0 <= k < |r| - 1 && r[k].typ == ItemPropertyName ==>
        r[k + 1].typ == ItemPropertyValue || r[k + 1].typ.ItemError?
    ensures var r := Lex(input);
      forall k :: (0 <= k < |r| && r[k].typ == ItemPropertyValue && PeekAt(input, r[k].pos + |r[k].val|) != Ch(']')) ==>
        k == |r| - 2 && r[k + 1].typ == ItemError(RightBracketExpected)
  {
    var r := Lex(input);
    LexFromShape(input, Begin, 0, 0);
    forall k | 0 <= k < |r| - 1
      ensures !IsTerminal(r[k].typ) && FollowsType(input, r[k], r[k + 1].typ)
    {
      assert Chained(input, r);
      assert FollowsType(input, r[k], r[k + 1].typ);
    }
    forall k | 0 <= k < |r| && r[k].typ == ItemPropertyValue && PeekAt(input, r[k].pos + |r[k].val|) != Ch(']')
      ensures k == |r| - 2 && r[k + 1].typ == ItemError(RightBracketExpected)
    {
      assert k < |r| - 1;
      assert FollowsType(input, r[k], r[k + 1].typ);
      assert IsTerminal(r[k + 1].typ);
    }
  }

  /**
   * Every item's text is the input it was cut from: a name is a non-empty
   * run of letters, upper-cased; a value is a run of printable runes with
   * no `]`; positions never decrease.
   */
  lemma LexItems(input: string)
    ensures var r := Lex(input);
      && Sorted(r)
      && (forall k :: 0 <= k < |r| ==> ItemOk(input, r[k]))
      && (forall k :: 0 <= k < |r| && r[k].typ == ItemPropertyValue ==> ']' !in r[k].val)
      && (forall k :: 0 <= k < |r| && r[k].typ == ItemPropertyName ==>
            |r[k].val| > 0 && forall i :: 0 <= i < |r[k].val| ==> 'A' <= r[k].val[i] <= 'Z')
  {
    var r := Lex(input);
    LexFromItems(input, Begin, 0, 0);
    forall k | 0 <= k < |r| && r[k].typ == ItemPropertyValue
      ensures ']' !in r[k].val
    {
      assert ItemOk(input, r[k]);
      assert forall i :: 0 <= i < |r[k].val| ==> IsPropertyValueChar(Ch(r[k].val[i])) && r[k].val[i] != ']';
    }
    forall k | 0 <= k < |r| && r[k].typ == ItemPropertyName
      ensures |r[k].val| > 0 && forall i :: 0 <= i < |r[k].val| ==> 'A' <= r[k].val[i] <= 'Z'
    {
      var it := r[k];
      assert ItemOk(input, it);
      var raw := input[it.pos..it.pos + |it.val|];
      assert forall i :: 0 <= i < |raw| ==> raw[i] == input[it.pos + i];
      UpperOfLetters(raw);
    }
  }

  /** An input yields the single item EOF (carrying the whole input) exactly when it has no `(`. */
  lemma LexNoParen(input: string)
    ensures |Lex(input)| > 0
    ensures '(' !in input ==> Lex(input) == [Item(ItemEOF, 0, input)]
    ensures Lex(input)[0].typ == ItemEOF <==> '(' !in input
  {
    LexFromShape(input, Begin, 0, 0);
    LexFromUnfold(input, Begin, 0, 0);
    var q := FindParen(input, 0);
    if '(' in input {
      var i :| 0 <= i < |input| && input[i] == '(';
      assert q < |input|;
      LexFromShape(input, LeftParen, q, 0);
    } else {
      assert q == |input|;
      assert input[0..] == input;
    }
  }

  /**
   * A property value never comes before the second item, and the second
   * item is then a semicolon: a value is always preceded by a `;`.
   */
  lemma LexValueAfterSemiColon(input: string)
    ensures var r := Lex(input);
      forall k :: 0 <= k < |r| && r[k].typ == ItemPropertyValue ==> 2 <= k && r[1].typ == ItemSemiColon
  {
    var r := Lex(input);
    LexGrammar(input);
  }

  /**
   * A value item never opens a property: the item before it is the name it
   * belongs to or an earlier value of the same property.
   */
  lemma LexValuesNamed(input: string)
    ensures var r := Lex(input);
      forall k :: 0 <= k < |r| && r[k].typ == ItemPropertyValue ==>
        0 < k && (r[k - 1].typ == ItemPropertyName || r[k - 1].typ == ItemPropertyValue)
  {
    var r := Lex(input);
    LexGrammar(input);
    LexFromShape(input, Begin, 0, 0);
    forall k | 0 <= k < |r| && r[k].typ == ItemPropertyValue
      ensures 0 < k && (r[k - 1].typ == ItemPropertyName || r[k - 1].typ == ItemPropertyValue)
    {
      assert k != 0;
      assert FollowsType(input, r[k - 1], r[k].typ);
    }
  }

  /**
   * The scanner as written keeps the blanks between a value and the next
   * property name in that name's text: after `C[x] B[y]` it emits the name
   * " B", which is not a run of letters, while the corrected step emits "B".
   */
  lemma AsWrittenNameKeepsBlank()
    ensures var input := "C[x] B[y]";
      var o := LeftBracketStepAsWritten(input, 1, 1);
      && o.next == PropertyName && o.pos == 5 && o.start == 4
      && PropertyNameStep(input, o.pos, o.start).emitted[0].val == " B"
    ensures var input := "C[x] B[y]";
      var o := LeftBracketStep(input, 1, 1);
      && o.next == PropertyName && o.pos == 5 && o.start == 5
      && PropertyNameStep(input, o.pos, o.start).emitted[0].val == "B"
  {
    var input := "C[x] B[y]";
    assert RunEnd(input, 3, ValueChar) == 3;
    assert RunEnd(input, 2, ValueChar) == 3;
    assert RunEnd(input, 5, WhiteSpace) == 5;
    assert RunEnd(input, 4, WhiteSpace) == 5;
    assert RunEnd(input, 6, Alpha) == 6;
    assert RunEnd(input, 5, Alpha) == 6;
    assert input[4..6] == " B";
    assert input[5..6] == "B";
    assert Upper(" B") == " B";
    assert Upper("B") == "B";
  }

  /**
   * `quoteContext` as written panics exactly when the cursor is at the end of
   * the input; elsewhere it quotes the corrected context, minus its last rune
   * when the window reaches the end of the input.
   */
  lemma QuoteAsWrittenPanics(input: string, pos: nat)
    requires pos <= |input|
    ensures QuoteContextAsWritten(input, pos).Panic? <==> pos == |input|
    ensures pos + 6 < |input| ==> QuoteContextAsWritten(input, pos) == Quoted(QuoteContext(input, pos))
    ensures pos < |input| <= pos + 6 ==>
      var q := QuoteContext(input, pos);
      QuoteContextAsWritten(input, pos) == Quoted(q[..|q| - 1])
  {
    var q := QuoteContext(input, pos);
    var lo := if pos < 6 then 0 else pos - 6;
    if pos < |input| <= pos + 6 {
      assert q == input[lo..pos] + "|" + input[pos..|input|];
      assert q[..|q| - 1] == input[lo..pos] + "|" + input[pos..|input| - 1];
    }
  }

  /**
   * Input cut off right after `(`, `;` or a property name makes the state
   * report its error at the end of the input, where `QuoteErrorContext`, as
   * written, panics; the corrected context is the runes before the end and `|`.
   */
  lemma AsWrittenTruncatedInputPanics()
    ensures var o := LeftParenStep("(", 0, 0);
      && o.emitted[|o.emitted| - 1] == ErrorItem(SemiColonExpected, 1) && o.pos == 1
      && QuoteContextAsWritten("(", o.pos) == Panic && QuoteContext("(", o.pos) == "(|"
    ensures var o := SemiColonStep("(;", 1, 1);
      && o.emitted[|o.emitted| - 1] == ErrorItem(PropertyExpected, 2) && o.pos == 2
      && QuoteContextAsWritten("(;", o.pos) == Panic && QuoteContext("(;", o.pos) == "(;|"
    ensures var o := PropertyNameStep("(;GM", 2, 2);
      && o.emitted[|o.emitted| - 1] == ErrorItem(LeftBracketExpected, 4) && o.pos == 4
      && QuoteContextAsWritten("(;GM", o.pos) == Panic && QuoteContext("(;GM", o.pos) == "(;GM|"
  {
    assert RunEnd("(;GM", 4, Alpha) == 4;
    assert RunEnd("(;GM", 3, Alpha) == 4;
    assert RunEnd("(;GM", 2, Alpha) == 4;
  }
}
