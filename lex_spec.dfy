/**
 * The SGF scanner of parse/lex.go as pure functions: the items it emits,
 * its six states, what one state does to the cursor and which items it
 * emits (one `...Step` function per state), and the whole item stream
 * `Lex(input)` obtained by running the states from `Begin` until `Nil`.
 *
 * The class `Lexing.Lexer` is proved to produce exactly these items.
 */
module LexSpec {
  import opened LexChars

  /** Why the scan stopped with an error item (the message text is not modelled). */
  datatype ErrorKind =
    | SemiColonExpected
    | PropertyExpected
    | LeftBracketExpected
    | RightBracketExpected
    | PropertyNodeOrParenExpected

  /** `itemType`; an error item carries the kind of error it reports. */
  datatype ItemType =
    | ItemEOF
    | ItemError(kind: ErrorKind)
    | ItemLeftParen
    | ItemRightParen
    | ItemSemiColon
    | ItemPropertyName
    | ItemPropertyValue

  /** `item`: its type, the index where its text starts, and its text. */
  datatype Item = Item(typ: ItemType, pos: nat, val: string)

  /** The two items after which the scanner stops. */
  predicate IsTerminal(t: ItemType) {
    t.ItemEOF? || t.ItemError?
  }

  /** `stateFn`: the state functions of the scanner, `Nil` for the nil state. */
  datatype StateFn = Nil | Begin | LeftParen | RightParen | SemiColon | PropertyName | LeftBracket

  /** What one state function does: the next state, the new cursor and the items it emits. */
  datatype Outcome = Outcome(next: StateFn, pos: nat, start: nat, emitted: seq<Item>)

  /** The error item `errorf` sends: it is placed at `start`. */
  function ErrorItem(kind: ErrorKind, start: nat): Item {
    Item(ItemError(kind), start, "")
  }

  /** The text of a quoted error context, or the slice panic that cuts it short. */
  datatype Quote = Panic | Quoted(text: string)

  /**
   * `quoteContext` as written: up to six runes before the cursor, a `|`, and
   * the runes after it up to `pos + 6`, but with that end clipped to
   * `|input| - 1`. Go panics on a slice whose end lies before its start,
   * which `Panic` stands for.
   */
  function QuoteContextAsWritten(input: string, pos: nat): Quote
    requires pos <= |input|
  {
    var lo := if pos < 6 then 0 else pos - 6;
    var hi := if pos + 6 >= |input| then |input| - 1 else pos + 6;
    if hi < pos then Panic else Quoted(input[lo..pos] + "|" + input[pos..hi])
  }

  /**
   * The context an error message quotes, with the end clipped to `|input|`:
   * the (at most six) runes before the cursor, a `|`, and the (at most six)
   * runes from the cursor on. It is defined at every cursor position,
   * including the end of the input.
   */
  function QuoteContext(input: string, pos: nat): (r: string)
    requires pos <= |input|
    ensures var before := if pos < 6 then pos else 6;
      var after := if |input| - pos < 6 then |input| - pos else 6;
      && |r| == before + 1 + after
      && r[..before] == input[pos - before..pos]
      && r[before] == '|'
      && r[before + 1..] == input[pos..pos + after]
  {
    var lo := if pos < 6 then 0 else pos - 6;
    var hi := if pos + 6 > |input| then |input| else pos + 6;
    input[lo..pos] + "|" + input[pos..hi]
  }

  /**
   * The condition under which each state is entered: the rune under the
   * cursor is the one the state consumes first, and every state but
   * `Begin` and `LeftParen` starts with nothing pending (`start == pos`).
   */
  predicate Ready(input: string, s: StateFn, pos: nat, start: nat) {
    start <= pos <= |input| &&
    match s
    case Nil => true
    case Begin => true
    case LeftParen => PeekAt(input, pos) == Ch('(')
    case RightParen => PeekAt(input, pos) == Ch(')') && start == pos
    case SemiColon => PeekAt(input, pos) == Ch(';') && start == pos
    case PropertyName => IsAlpha(PeekAt(input, pos)) && start == pos
    case LeftBracket => PeekAt(input, pos) == Ch('[') && start == pos
  }

  /** Only `Begin` may hand over without consuming a rune; it ranks above the others. */
  function Rank(s: StateFn): nat {
    if s == Begin then 1 else 0
  }

  /** `lexBegin`: skip to the first `(`, or emit EOF with everything skipped. */
  function BeginStep(input: string, pos: nat, start: nat): Outcome
    requires start <= pos <= |input|
  {
    var q := FindParen(input, pos);
    if q < |input| then Outcome(LeftParen, q, start, [])
    else Outcome(Nil, |input|, |input|, [Item(ItemEOF, start, input[start..])])
  }

  /** `lexLeftParen`: emit `(`; a `;` must follow at once. */
  function LeftParenStep(input: string, pos: nat, start: nat): Outcome
    requires start <= pos < |input|
  {
    var p := pos + 1;
    var paren := Item(ItemLeftParen, start, input[start..p]);
    if PeekAt(input, p) != Ch(';') then Outcome(Nil, p, p, [paren, ErrorItem(SemiColonExpected, p)])
    else Outcome(SemiColon, p, p, [paren])
  }

  /** `lexSemiColon`: emit `;`, drop a doubled `;`; a letter must follow. */
  function SemiColonStep(input: string, pos: nat, start: nat): Outcome
    requires start <= pos < |input|
  {
    var p := pos + 1;
    var semi := Item(ItemSemiColon, start, input[start..p]);
    var p2 := if PeekAt(input, p) == Ch(';') then p + 1 else p;
    if !IsAlpha(PeekAt(input, p2)) then Outcome(Nil, p2, p2, [semi, ErrorItem(PropertyExpected, p2)])
    else Outcome(PropertyName, p2, p2, [semi])
  }

  /** `lexPropertyName`: emit the upper-cased run of letters; a `[` must follow. */
  function PropertyNameStep(input: string, pos: nat, start: nat): Outcome
    requires start <= pos <= |input|
  {
    var q := RunEnd(input, pos, Alpha);
    var name := Item(ItemPropertyName, start, Upper(input[start..q]));
    if PeekAt(input, q) != Ch('[') then Outcome(Nil, q, q, [name, ErrorItem(LeftBracketExpected, q)])
    else Outcome(LeftBracket, q, q, [name])
  }

  /** The state the scanner enters after a value, chosen by the next significant rune. */
  function AfterValue(r: Rune): StateFn {
    if r == Ch('[') then LeftBracket
    else if r == Ch(';') then SemiColon
    else if r == Ch('(') then LeftParen
    else if r == Ch(')') then RightParen
    else if IsAlpha(r) then PropertyName
    else Nil
  }

  /**
   * `lexLeftBracket`: drop `[`, emit the run of value runes, which must be
   * closed by `]`; drop `]` and any whitespace, then dispatch. The skipped
   * whitespace is dropped from the pending text (see `LeftBracketStepAsWritten`
   * for the scanner as written, which keeps it).
   */
  function LeftBracketStep(input: string, pos: nat, start: nat): Outcome
    requires start <= pos < |input|
  {
    var v := pos + 1;
    var q := RunEnd(input, v, ValueChar);
    var value := Item(ItemPropertyValue, v, input[v..q]);
    if PeekAt(input, q) != Ch(']') then Outcome(Nil, q, q, [value, ErrorItem(RightBracketExpected, q)])
    else
      var w := RunEnd(input, q + 1, WhiteSpace);
      var n := AfterValue(PeekAt(input, w));
      if n == Nil then Outcome(Nil, w, w, [value, ErrorItem(PropertyNodeOrParenExpected, w)])
      else Outcome(n, w, w, [value])
  }

  /**
   * `lexLeftBracket` exactly as parse/lex.go writes it: the whitespace after
   * `]` is consumed with `next` but never `ignore`d, so `start` stays just
   * after the `]` and the next item's text begins with the blanks.
   */
  function LeftBracketStepAsWritten(input: string, pos: nat, start: nat): Outcome
    requires start <= pos < |input|
  {
    var v := pos + 1;
    var q := RunEnd(input, v, ValueChar);
    var value := Item(ItemPropertyValue, v, input[v..q]);
    if PeekAt(input, q) != Ch(']') then Outcome(Nil, q, q, [value, ErrorItem(RightBracketExpected, q)])
    else
      var w := RunEnd(input, q + 1, WhiteSpace);
      var n := AfterValue(PeekAt(input, w));
      if n == Nil then Outcome(Nil, w, q + 1, [value, ErrorItem(PropertyNodeOrParenExpected, q + 1)])
      else Outcome(n, w, q + 1, [value])
  }

  /** `lexRightParen`: emit `)`, then dispatch; anything unexpected ends the scan with EOF. */
  function RightParenStep(input: string, pos: nat, start: nat): Outcome
    requires start <= pos < |input|
  {
    var p := pos + 1;
    var paren := Item(ItemRightParen, start, input[start..p]);
    var r := PeekAt(input, p);
    if r == Ch('(') then Outcome(LeftParen, p, p, [paren])
    else if IsAlpha(r) then Outcome(PropertyName, p, p, [paren])
    else if r == Ch(')') then Outcome(RightParen, p, p, [paren])
    else if r == Ch(';') then Outcome(SemiColon, p, p, [paren])
    else Outcome(Nil, p, p, [paren, Item(ItemEOF, p, "")])
  }

  /**
   * One turn of the `run` trampoline. Every state hands over to a state
   * whose entry condition holds, and each turn either stops, consumes at
   * least one rune, or (only `Begin`) passes to a lower-ranked state: the
   * scan terminates on every input.
   */
  function Step(input: string, s: StateFn, pos: nat, start: nat): (o: Outcome)
    requires Ready(input, s, pos, start) && s != Nil
    ensures Ready(input, o.next, o.pos, o.start)
    ensures o.next != Begin
    ensures pos <= o.pos
    ensures o.next == Nil || pos < o.pos || (s == Begin && o.next == LeftParen)
  {
    match s
    case Begin => BeginStep(input, pos, start)
    case LeftParen => LeftParenStep(input, pos, start)
    case RightParen => RightParenStep(input, pos, start)
    case SemiColon => SemiColonStep(input, pos, start)
    case PropertyName => PropertyNameStep(input, pos, start)
    case LeftBracket => LeftBracketStep(input, pos, start)
  }

  /** The items emitted from state `s` with cursor `pos`, `start` until the nil state. */
  function LexFrom(input: string, s: StateFn, pos: nat, start: nat): seq<Item>
    requires Ready(input, s, pos, start)
    decreases |input| - pos, Rank(s)
  {
    if s == Nil then []
    else
      var o := Step(input, s, pos, start);
      o.emitted + LexFrom(input, o.next, o.pos, o.start)
  }

  /** One turn of the trampoline, as an equation on streams. */
  lemma LexFromUnfold(input: string, s: StateFn, pos: nat, start: nat)
    requires Ready(input, s, pos, start) && s != Nil
    ensures var o := Step(input, s, pos, start);
      LexFrom(input, s, pos, start) == o.emitted + LexFrom(input, o.next, o.pos, o.start)
  {
  }

  /** The whole item stream of an input (newlines already stripped). */
  function Lex(input: string): seq<Item> {
    LexFrom(input, Begin, 0, 0)
  }
}
