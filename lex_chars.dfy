/**
 * Character classes and string helpers used by the SGF scanner
 * (parse/lex.go): the rune predicates, maximal runs of a class,
 * the search for the opening parenthesis, ASCII upper-casing and
 * the newline stripping applied before scanning.
 *
 * The scanner works on Unicode code points; this model works on
 * `char` indices, and stands in ASCII versions for the library
 * predicates `unicode.IsLetter`, `unicode.IsPrint` and `strings.ToUpper`.
 */
module LexChars {

  /** A rune read from the input, or the end-of-input marker (`eof = -1`). */
  datatype Rune = Eof | Ch(c: char)

  /** The rune at index `p`, or `Eof` past the end. */
  function PeekAt(input: string, p: nat): Rune {
    if p < |input| then Ch(input[p]) else Eof
  }

  /** `isAlpha`: a letter (ASCII letters stand for `unicode.IsLetter`). */
  predicate IsAlpha(r: Rune) {
    r.Ch? && (('A' <= r.c <= 'Z') || ('a' <= r.c <= 'z'))
  }

  /** `unicode.IsPrint`, restricted to ASCII: space through tilde. */
  predicate IsPrint(r: Rune) {
    r.Ch? && ' ' <= r.c <= '~'
  }

  /** `isPropertyValueChar`: printable and not the closing bracket. */
  predicate IsPropertyValueChar(r: Rune) {
    IsPrint(r) && r != Ch(']')
  }

  predicate IsSpace(r: Rune) {
    r == Ch(' ') || r == Ch('\t')
  }

  predicate IsEndOfLine(r: Rune) {
    r == Ch('\r') || r == Ch('\n')
  }

  predicate IsWhiteSpace(r: Rune) {
    IsSpace(r) || IsEndOfLine(r)
  }

  /** The three classes of runes the scanner consumes in runs. */
  datatype CharClass = Alpha | ValueChar | WhiteSpace

  predicate InClass(k: CharClass, r: Rune) {
    match k
    case Alpha => IsAlpha(r)
    case ValueChar => IsPropertyValueChar(r)
    case WhiteSpace => IsWhiteSpace(r)
  }

  /**
   * The end of the maximal run of runes of class `k` that starts at `p`:
   * every rune in between is in the class and the rune at the end is not
   * (end of input is in no class).
   */
  function RunEnd(input: string, p: nat, k: CharClass): (q: nat)
    requires p <= |input|
    ensures p <= q <= |input|
    ensures forall j :: p <= j < q ==> InClass(k, Ch(input[j]))
    ensures !InClass(k, PeekAt(input, q))
    decreases |input| - p
  {
    if p < |input| && InClass(k, Ch(input[p])) then RunEnd(input, p + 1, k) else p
  }

  /** Any position with the two defining properties of a run end is the run end. */
  lemma RunEndUnique(input: string, p: nat, k: CharClass, q: nat)
    requires p <= q <= |input|
    requires forall j :: p <= j < q ==> InClass(k, Ch(input[j]))
    requires !InClass(k, PeekAt(input, q))
    ensures RunEnd(input, p, k) == q
  {
    assert forall j :: p <= j < |input| ==> PeekAt(input, j) == Ch(input[j]);
  }

  /**
   * The index of the first `(` at or after `p`, or `|input|` when there is none.
   */
  function FindParen(input: string, p: nat): (q: nat)
    requires p <= |input|
    ensures p <= q <= |input|
    ensures forall j :: p <= j < q ==> input[j] != '('
    ensures q < |input| ==> input[q] == '('
    decreases |input| - p
  {
    if p == |input| || input[p] == '(' then p else FindParen(input, p + 1)
  }

  /** ASCII upper-casing of one character. */
  function UpperChar(c: char): char {
    if 'a' <= c <= 'z' then (c as int - 32) as char else c
  }

  /** `strings.ToUpper`, restricted to ASCII letters. */
  function Upper(s: string): string {
    seq(|s|, i requires 0 <= i < |s| => UpperChar(s[i]))
  }

  /** Upper-casing a run of letters gives a run of capital letters. */
  lemma UpperOfLetters(s: string)
    requires forall i :: 0 <= i < |s| ==> IsAlpha(Ch(s[i]))
    ensures |Upper(s)| == |s|
    ensures forall i :: 0 <= i < |s| ==> 'A' <= Upper(s)[i] <= 'Z'
  {
    forall i | 0 <= i < |s|
      ensures 'A' <= Upper(s)[i] <= 'Z'
    {
      assert IsAlpha(Ch(s[i]));
    }
  }

  /** Upper-casing is idempotent, so upper-cased keys are canonical. */
  lemma UpperIdempotent(s: string)
    ensures Upper(Upper(s)) == Upper(s)
  {
    var u := Upper(s);
    assert |Upper(u)| == |u|;
    forall i | 0 <= i < |u|
      ensures Upper(u)[i] == u[i]
    {
      assert u[i] == UpperChar(s[i]);
    }
  }

  /**
   * `strings.Replace(s, c, "", -1)` for a one-character `c`: every `c` is
   * removed, every other character keeps its number of occurrences.
   */
  function RemoveAll(s: string, c: char): (r: string)
    ensures c !in r
    ensures multiset(r) == multiset(s)[c := 0]
    ensures |r| <= |s|
  {
    if s == [] then []
    else
      assert s == [s[0]] + s[1..];
      if s[0] == c then RemoveAll(s[1..], c) else [s[0]] + RemoveAll(s[1..], c)
  }

  /** Removal distributes over concatenation, so the kept characters stay in order. */
  lemma {:induction false} RemoveAllConcat(a: string, b: string, c: char)
    ensures RemoveAll(a + b, c) == RemoveAll(a, c) + RemoveAll(b, c)
    decreases |a|
  {
    if a == [] {
      assert a + b == b;
    } else {
      assert (a + b)[0] == a[0];
      assert (a + b)[1..] == a[1..] + b;
      RemoveAllConcat(a[1..], b, c);
    }
  }

  /** A string without `c` is left as it is. */
  lemma {:induction false} RemoveAllAbsent(s: string, c: char)
    requires c !in s
    ensures RemoveAll(s, c) == s
    decreases |s|
  {
    if s != [] {
      assert s == [s[0]] + s[1..];
      RemoveAllAbsent(s[1..], c);
    }
  }

  /** `strip_newlines`: every `\n` and then every `\r` is removed. */
  function StripNewlines(s: string): (r: string)
    ensures '\n' !in r && '\r' !in r
    ensures multiset(r) == multiset(s)['\n' := 0]['\r' := 0]
  {
    var t := RemoveAll(s, '\n');
    var r := RemoveAll(t, '\r');
    assert multiset(r)['\n'] == multiset(t)['\n'] == 0;
    r
  }

  /** Stripping distributes over concatenation: all other characters are kept, in order. */
  lemma StripNewlinesConcat(a: string, b: string)
    ensures StripNewlines(a + b) == StripNewlines(a) + StripNewlines(b)
  {
    RemoveAllConcat(a, b, '\n');
    RemoveAllConcat(RemoveAll(a, '\n'), RemoveAll(b, '\n'), '\r');
  }

  /** A one-character string is dropped exactly when it is a line break. */
  lemma StripNewlinesChar(c: char)
    ensures StripNewlines([c]) == if c == '\n' || c == '\r' then [] else [c]
  {
    assert [c][1..] == [];
  }

  /** Input without line breaks passes through unchanged. */
  lemma StripNewlinesAbsent(s: string)
    requires '\n' !in s && '\r' !in s
    ensures StripNewlines(s) == s
  {
    RemoveAllAbsent(s, '\n');
    RemoveAllAbsent(s, '\r');
  }
}
