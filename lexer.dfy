/**
 * The `lexer` of parse/lex.go as a class: the cursor fields `pos`,
 * `start` and `width`, the cursor operations, the six state functions and
 * the `run` trampoline. Items are collected in the field `items` instead
 * of being sent over a channel; every state function is proved to do what
 * the corresponding `LexSpec` step function says, and `Run` to produce the
 * stream `LexSpec.LexFrom` describes.
 */
module Lexing {
  import opened LexChars
  import opened LexSpec

  class Lexer {
    /** The input with line breaks already stripped. */
    const input: string
    /** The next state function to enter. */
    var state: StateFn
    /** Current position in the input. */
    var pos: nat
    /** Start of the pending item. */
    var start: nat
    /** Width of the last rune read (0 at end of input). */
    var width: nat
    /** Items emitted so far, in order. */
    var items: seq<Item>

    ghost predicate Valid()
      reads this
    {
      start <= pos <= |input|
    }

    /** `lex`: the scanner over the input with its line breaks stripped. */
    constructor (raw: string)
      ensures input == StripNewlines(raw)
      ensures state == Nil && pos == 0 && start == 0 && width == 0 && items == []
      ensures Valid()
    {
      input := StripNewlines(raw);
      state := Nil;
      pos, start, width := 0, 0, 0;
      items := [];
    }

    /** `next`: the next rune, or `Eof` (leaving `pos` alone) at the end. */
    method Next() returns (r: Rune)
      requires Valid()
      modifies this`pos, this`width
      ensures Valid()
      ensures r == PeekAt(input, old(pos))
      ensures width == (if old(pos) < |input| then 1 else 0)
      ensures pos == old(pos) + width
    {
      if pos >= |input| {
        width := 0;
        return Eof;
      }
      r := Ch(input[pos]);
      width := 1;
      pos := pos + width;
    }

    /** `backup`: step back over the rune read by the last `next`. */
    method Backup()
      requires width <= pos
      modifies this`pos
      ensures pos == old(pos) - width
    {
      pos := pos - width;
    }

    /** `peek`: the next rune, leaving `pos` unchanged. */
    method Peek() returns (r: Rune)
      requires Valid()
      modifies this`pos, this`width
      ensures Valid()
      ensures r == PeekAt(input, pos)
      ensures pos == old(pos)
      ensures width == (if pos < |input| then 1 else 0)
    {
      r := Next();
      Backup();
    }

    /**
     * `emit`: the item's text is exactly the pending input, upper-cased for a
     * property name, and it is placed at `start`; nothing is pending afterwards.
     */
    method Emit(t: ItemType)
      requires Valid()
      modifies this`items, this`start
      ensures Valid()
      ensures items == old(items) +
        [Item(t, old(start), if t == ItemPropertyName then Upper(input[old(start)..pos]) else input[old(start)..pos])]
      ensures start == pos
    {
      var i := Item(t, start, input[start..pos]);
      if i.typ == ItemPropertyName {
        i := i.(val := Upper(i.val));
      }
      items := items + [i];
      start := pos;
    }

    /** `ignore`: drop the pending input. */
    method Ignore()
      requires Valid()
      modifies this`start
      ensures Valid() && start == pos
    {
      start := pos;
    }

    /** `advance`: drop the next rune. */
    method Advance()
      requires Valid()
      modifies this`pos, this`start, this`width
      ensures Valid()
      ensures pos == (if old(pos) < |input| then old(pos) + 1 else old(pos))
      ensures start == pos
    {
      var r := Next();
      Ignore();
    }

    /** `acceptAlphaRun`: consume the maximal run of letters. */
    method AcceptAlphaRun()
      requires Valid()
      modifies this`pos, this`width
      ensures Valid()
      ensures pos == RunEnd(input, old(pos), Alpha)
    {
      var r := Next();
      while IsAlpha(r)
        invariant Valid() && old(pos) + width <= pos
        invariant width == (if r == Eof then 0 else 1)
        invariant r == PeekAt(input, pos - width)
        invariant forall j :: old(pos) <= j < pos - width ==> IsAlpha(Ch(input[j]))
        decreases |input| + width - pos
      {
        r := Next();
      }
      Backup();
      RunEndUnique(input, old(pos), Alpha, pos);
    }

    /** `acceptPropertyValueRun`: consume the maximal run of value runes. */
    method AcceptPropertyValueRun()
      requires Valid()
      modifies this`pos, this`width
      ensures Valid()
      ensures pos == RunEnd(input, old(pos), ValueChar)
    {
      var r := Next();
      while IsPropertyValueChar(r)
        invariant Valid() && old(pos) + width <= pos
        invariant width == (if r == Eof then 0 else 1)
        invariant r == PeekAt(input, pos - width)
        invariant forall j :: old(pos) <= j < pos - width ==> IsPropertyValueChar(Ch(input[j]))
        decreases |input| + width - pos
      {
        r := Next();
      }
      Backup();
      RunEndUnique(input, old(pos), ValueChar, pos);
    }

    /** `errorf`: emit an error item at `start` and stop the scan. */
    method Errorf(kind: ErrorKind) returns (s: StateFn)
      modifies this`items
      ensures items == old(items) + [ErrorItem(kind, start)]
      ensures s == Nil
    {
      items := items + [ErrorItem(kind, start)];
      return Nil;
    }

    /** `lexBegin` */
    method LexBegin() returns (s: StateFn)
      requires Valid()
      modifies this`pos, this`start, this`width, this`items
      ensures Valid()
      ensures var o := BeginStep(input, old(pos), old(start));
        s == o.next && pos == o.pos && start == o.start && items == old(items) + o.emitted
    {
      while true
        invariant Valid() && old(pos) <= pos && start == old(start) && items == old(items)
        invariant forall j :: old(pos) <= j < pos ==> input[j] != '('
        decreases |input| - pos
      {
        if pos < |input| && input[pos] == '(' {
          return LeftParen;
        }
        var r := Next();
        if r == Eof {
          break;
        }
      }
      assert input[start..pos] == input[start..];
      Emit(ItemEOF);
      return Nil;
    }

    /** `lexLeftParen` */
    method LexLeftParen() returns (s: StateFn)
      requires Valid() && PeekAt(input, pos) == Ch('(')
      modifies this`pos, this`start, this`width, this`items
      ensures Valid()
      ensures var o := LeftParenStep(input, old(pos), old(start));
        s == o.next && pos == o.pos && start == o.start && items == old(items) + o.emitted
    {
      pos := pos + 1;
      Emit(ItemLeftParen);
      var r := Peek();
      if r != Ch(';') {
        s := Errorf(SemiColonExpected);
        return;
      }
      return SemiColon;
    }

    /** `lexRightParen` */
    method LexRightParen() returns (s: StateFn)
      requires Valid() && PeekAt(input, pos) == Ch(')')
      modifies this`pos, this`start, this`width, this`items
      ensures Valid()
      ensures var o := RightParenStep(input, old(pos), old(start));
        s == o.next && pos == o.pos && start == o.start && items == old(items) + o.emitted
    {
      pos := pos + 1;
      Emit(ItemRightParen);
      var r := Peek();
      if r == Ch('(') {
        return LeftParen;
      } else if IsAlpha(r) {
        return PropertyName;
      } else if r == Ch(')') {
        return RightParen;
      } else if r == Ch(';') {
        return SemiColon;
      }
      Emit(ItemEOF);
      return Nil;
    }

    /** `lexSemiColon` */
    method LexSemiColon() returns (s: StateFn)
      requires Valid() && PeekAt(input, pos) == Ch(';')
      modifies this`pos, this`start, this`width, this`items
      ensures Valid()
      ensures var o := SemiColonStep(input, old(pos), old(start));
        s == o.next && pos == o.pos && start == o.start && items == old(items) + o.emitted
    {
      pos := pos + 1;
      Emit(ItemSemiColon);
      var r := Peek();
      if r == Ch(';') {
        Advance();
      }
      r := Peek();
      if !IsAlpha(r) {
        s := Errorf(PropertyExpected);
        return;
      }
      return PropertyName;
    }

    /** `lexPropertyName` */
    method LexPropertyName() returns (s: StateFn)
      requires Valid()
      modifies this`pos, this`start, this`width, this`items
      ensures Valid()
      ensures var o := PropertyNameStep(input, old(pos), old(start));
        s == o.next && pos == o.pos && start == o.start && items == old(items) + o.emitted
    {
      AcceptAlphaRun();
      Emit(ItemPropertyName);
      var r := Peek();
      if r != Ch('[') {
        s := Errorf(LeftBracketExpected);
        return;
      }
      return LeftBracket;
    }

    /**
     * The whitespace skip of `lexLeftBracket` (`for isWhiteSpace(l.peek()) { l.next() }`),
     * followed by `ignore` so that the blanks do not reach the next item.
     */
    method SkipWhiteSpace() returns (r: Rune)
      requires Valid()
      modifies this`pos, this`start, this`width
      ensures Valid()
      ensures pos == RunEnd(input, old(pos), WhiteSpace) && start == pos
      ensures r == PeekAt(input, pos)
    {
      r := Peek();
      while IsWhiteSpace(r)
        invariant Valid() && old(pos) <= pos && start == old(start)
        invariant r == PeekAt(input, pos)
        invariant forall j :: old(pos) <= j < pos ==> IsWhiteSpace(Ch(input[j]))
        decreases |input| - pos
      {
        r := Next();
        r := Peek();
      }
      RunEndUnique(input, old(pos), WhiteSpace, pos);
      Ignore();
    }

    /** `lexLeftBracket`, with the skipped whitespace dropped from the pending text. */
    method LexLeftBracket() returns (s: StateFn)
      requires Valid() && PeekAt(input, pos) == Ch('[')
      modifies this`pos, this`start, this`width, this`items
      ensures Valid()
      ensures var o := LeftBracketStep(input, old(pos), old(start));
        s == o.next && pos == o.pos && start == o.start && items == old(items) + o.emitted
    {
      Advance();
      AcceptPropertyValueRun();
      Emit(ItemPropertyValue);
      var r := Peek();
      if r != Ch(']') {
        s := Errorf(RightBracketExpected);
        return;
      }
      Advance();
      r := SkipWhiteSpace();
      if r == Ch('[') {
        return LeftBracket;
      } else if r == Ch(';') {
        return SemiColon;
      } else if r == Ch('(') {
        return LeftParen;
      } else if r == Ch(')') {
        return RightParen;
      } else if IsAlpha(r) {
        return PropertyName;
      }
      s := Errorf(PropertyNodeOrParenExpected);
    }

    /** `l.state(l)`: enter state `s`, which must not be the nil state. */
    method Enter(s: StateFn) returns (n: StateFn)
      requires Valid() && Ready(input, s, pos, start) && s != Nil
      modifies this`pos, this`start, this`width, this`items
      ensures Valid()
      ensures var o := Step(input, s, old(pos), old(start));
        n == o.next && pos == o.pos && start == o.start && items == old(items) + o.emitted
      ensures Ready(input, n, pos, start)
      ensures items + LexFrom(input, n, pos, start) == old(items) + LexFrom(input, s, old(pos), old(start))
      ensures old(pos) <= pos && (n == Nil || old(pos) < pos || Rank(n) < Rank(s))
    {
      LexFromUnfold(input, s, pos, start);
      match s {
        case Begin => n := LexBegin();
        case LeftParen => n := LexLeftParen();
        case RightParen => n := LexRightParen();
        case SemiColon => n := LexSemiColon();
        case PropertyName => n := LexPropertyName();
        case LeftBracket => n := LexLeftBracket();
      }
    }

    /**
     * `run`: enter `Begin`, then keep entering the state the last one
     * returned until it is `Nil`. The items appended are exactly the
     * stream of the pure scanner from the starting cursor.
     */
    method Run()
      requires Valid()
      modifies this
      ensures Valid() && state == Nil
      ensures items == old(items) + LexFrom(input, Begin, old(pos), old(start))
    {
      state := Begin;
      while state != Nil
        invariant Valid() && Ready(input, state, pos, start)
        invariant items + LexFrom(input, state, pos, start) == old(items) + LexFrom(input, Begin, old(pos), old(start))
        decreases |input| - pos, Rank(state)
      {
        state := Enter(state);
      }
    }
  }

  /**
   * `lex` followed by draining its items: run a fresh scanner over the raw
   * input. The result is the pure stream of the input with its line breaks
   * stripped.
   */
  method Scan(raw: string) returns (items: seq<Item>)
    ensures items == Lex(StripNewlines(raw))
  {
    var l := new Lexer(raw);
    l.Run();
    items := l.items;
  }
}
