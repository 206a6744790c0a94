# sgfinfo `parse/`: the SGF reader, modelled and verified in Dafny

`sgfinfo` reads game records in the Smart Game Format (SGF FF[4]). Its
`parse/` package has two cooperating parts:

- **The scanner** (`parse/lex.go`) is a character-level state machine with
  the states `lexBegin`, `lexLeftParen`, `lexSemiColon`, `lexPropertyName`,
  `lexLeftBracket` and `lexRightParen`. The states move the cursor fields
  `pos`, `start` and `width`. They emit typed items: `(`, `)`, `;`, property
  name, property value, EOF and error.
- **The tree builder** (`SGFGame.Parse` in `parse/parse.go`) consumes those
  items with a three-phase mode machine: idle, then header, then in game.
  - Header properties go into a name-to-value map.
  - The game becomes a tree of `Node`s. Nodes are linked by `next` (the main
    line) and by `variations` (alternative continuations).
  - A stack of saved nodes restores the position across nested parentheses.

The model has seven files:

- `lex_chars.dfy` (`LexChars`): the rune predicates, maximal runs of a
  character class, the search for `(`, ASCII upper-casing and
  `strip_newlines`.
- `lex_spec.dfy` (`LexSpec`): the item and state types, and one pure step
  function per state. Each step function gives that state's next state, new
  cursor and emitted items. `LexFrom` and `Lex` give the whole item stream of
  an input.
- `lexer.dfy` (`Lexing`): the scanner as a class `Lexer` with its cursor
  fields and methods. Every state method is proved to do what its step
  function says. `Run`, the trampoline, is proved to append exactly `LexFrom`.
- `lex_props.dfy` (`LexProps`): properties of every stream.
  - Grammar: the stream ends with exactly one EOF or error item, and each
    item type may only follow certain others.
  - Item text: each item's text is the input it was cut from.
  - Positions never decrease.
  - An input without `(` yields a single EOF item.
- `game.dfy` (`Game`): `Node`, `GameInfo` and `SGFGame`.
  - `SGFGame` has `NodeCount`, `NthNode`, `AddError` and `Parse`.
  - `ParseItem` is the body of `Parse`'s loop. Its contract states the effect
    of each item kind exactly.
  - `HeaderFold` is a pure fold that gives the header `Parse` collects.
  - `MainFold` is a pure fold that gives the contents of each main-line
    node: its move, its other properties in order, and its number of
    variations. `Parse` is proved to build a main line that matches it
    node by node.
- `game_props.dfy` (`GameProps`): properties of the header.
  - Lookups are case-insensitive, and the last write wins.
  - Keys are always upper case, and each key is the name of a property in
    the stream.
  - Nothing reaches the header before the first `;` or after the second.
- `main_line_props.dfy` (`MainLineProps`, `MainLineExamples`): properties of
  `MainFold`, and two worked streams.
  - Main-line nodes before the last one are settled.
  - Folding a stream in pieces gives the same result.
  - `(;K[v];B[a])` builds a header holding `K` and a single root holding the
    move `B[a]`.
  - `(;GM[1];B[aa](;W[bb])(;W[cc]))` builds a root holding `B[aa]` with two
    variations.

Behaviours of the code a reader might not expect:

- **The first node of a variation is empty.** `(` creates an empty variation
  node, and the `;` that follows appends a `next` node to it. So the moves of
  `(;W[bb])` end up in the second node of the variation, not the first
  (parse/parse.go:152-156, 174-175).
- **`)` followed by a character that is not `(`, `)`, `;` or a letter ends
  the scan with an EOF item, not an error.** This includes whitespace
  (parse/lex.go:256-258).
- **The whitespace after a `]` is kept by the code as written.** This looks
  like a bug, so the model uses the corrected scanner; see Findings.

## Model

| member | source | states |
|---|---|---|
| LexChars.RunEnd | parse/lex.go:175-186 | the end of the maximal run of one character class: everything before it is in the class and the rune at it (or end of input) is not |
| LexChars.RunEndUnique | parse/lex.go:175-186 | any position with those two properties is the run end, so the run a loop consumes is exactly `RunEnd` |
| LexChars.FindParen | parse/lex.go:220-232 | the first `(` at or after a position, or the input length when there is none |
| LexChars.UpperOfLetters | parse/lex.go:140-142 | upper-casing a run of letters gives a run of capital letters of the same length |
| LexChars.UpperIdempotent | parse/parse.go:104-111 | upper-casing twice is upper-casing once, so upper-cased names are canonical keys |
| LexChars.RemoveAll | parse/lex.go:74-78 | removing one character: it no longer occurs and every other character keeps its number of occurrences |
| LexChars.RemoveAllConcat | parse/lex.go:74-78 | removal distributes over concatenation, so the kept characters stay in order |
| LexChars.RemoveAllAbsent | parse/lex.go:74-78 | a string without the character is unchanged |
| LexChars.StripNewlines | parse/lex.go:74-78 | the result has no `\n` and no `\r`, and every other character keeps its number of occurrences |
| LexChars.StripNewlinesConcat | parse/lex.go:74-78 | stripping distributes over concatenation, so all other characters are kept in order |
| LexChars.StripNewlinesChar | parse/lex.go:74-78 | a single character is dropped exactly when it is `\n` or `\r` |
| LexChars.StripNewlinesAbsent | parse/lex.go:74-78 | input without line breaks passes through unchanged |
| LexSpec.Step | parse/lex.go:203-207 | every state hands over to a state whose entry condition holds; each turn stops, consumes a rune, or (only from `lexBegin`) moves to `lexLeftParen`, so the scan terminates |
| Lexing.Lexer.constructor | parse/lex.go:210-217 | the scanner starts on the input with its line breaks stripped, at position 0, with nothing emitted |
| Lexing.Lexer.Next | parse/lex.go:114-123 | returns the rune at `pos` and advances by its width 1, or returns end of input with width 0 and `pos` unchanged |
| Lexing.Lexer.Backup | parse/lex.go:133-135 | steps `pos` back by `width` |
| Lexing.Lexer.Peek | parse/lex.go:126-130 | returns the rune at `pos` and leaves `pos` unchanged (`next` then `backup` restores it) |
| Lexing.Lexer.Emit | parse/lex.go:138-145 | appends one item placed at `start` whose text is exactly `input[start..pos]` (upper-cased for a property name), then `start == pos` |
| Lexing.Lexer.Ignore | parse/lex.go:148-150 | drops the pending text: `start == pos` |
| Lexing.Lexer.Advance | parse/lex.go:153-156 | drops the next rune: `pos` moves past it (not past the end) and nothing is pending |
| Lexing.Lexer.AcceptAlphaRun | parse/lex.go:175-179 | `pos` ends at the end of the maximal run of letters |
| Lexing.Lexer.AcceptPropertyValueRun | parse/lex.go:182-186 | `pos` ends at the end of the maximal run of printable runes other than `]` |
| Lexing.Lexer.Errorf | parse/lex.go:190-193 | appends one error item placed at `start` and returns the nil state |
| Lexing.Lexer.LexBegin | parse/lex.go:220-232 | does what `LexSpec.BeginStep` says: moves to the first `(`, or emits EOF with all skipped text and stops |
| Lexing.Lexer.LexLeftParen | parse/lex.go:234-241 | does what `LexSpec.LeftParenStep` says: emits `(`, then demands `;` |
| Lexing.Lexer.LexRightParen | parse/lex.go:243-260 | does what `LexSpec.RightParenStep` says: emits `)`, then dispatches on `(`, a letter, `)` or `;`, otherwise emits EOF and stops |
| Lexing.Lexer.LexSemiColon | parse/lex.go:262-272 | does what `LexSpec.SemiColonStep` says: emits `;`, drops a doubled `;`, then demands a letter |
| Lexing.Lexer.LexPropertyName | parse/lex.go:274-281 | does what `LexSpec.PropertyNameStep` says: emits the upper-cased run of letters, then demands `[` |
| Lexing.Lexer.SkipWhiteSpace | parse/lex.go:293-295 | `pos` ends at the end of the run of whitespace and the blanks are not pending (corrected, see Findings) |
| Lexing.Lexer.LexLeftBracket | parse/lex.go:283-313 | does what `LexSpec.LeftBracketStep` says: emits the value, demands `]`, skips whitespace and dispatches, otherwise reports an error |
| Lexing.Lexer.Enter | parse/lex.go:205-206 | entering a state is its step function; the stream still to come shrinks by exactly the items appended, and the cursor advances or the state's rank drops |
| Lexing.Lexer.Run | parse/lex.go:203-207 | the items appended are exactly the pure stream `LexFrom` from `lexBegin`, and the state ends nil |
| Lexing.Scan | parse/lex.go:210-217 | running a fresh scanner over the raw input yields exactly the pure stream `Lex` of the input with its line breaks stripped |
| LexProps.StepShape | parse/lex.go:234-313 | the items one state emits follow the grammar, start with that state's item type, and end with EOF or an error exactly when the state hands over to nil |
| LexProps.BeginItems | parse/lex.go:220-232 | `lexBegin` stops exactly when no `(` lies ahead, and then emits one EOF item holding all the pending text, placed at `start`; otherwise it emits nothing and hands over at the first `(` with `start` kept |
| LexProps.RightParenItems | parse/lex.go:243-260 | the `)` item is the one character `)` at `pos`; when the scan stops there, the only other item is an empty EOF just after it |
| LexProps.SemiColonItems | parse/lex.go:262-272 | the `;` item is the one character `;` at `pos` |
| LexProps.LeftParenItems | parse/lex.go:234-241 | the `(` item is the pending text before it followed by `(`, placed at the old `start` |
| LexProps.PropertyNameItems | parse/lex.go:274-281 | the name item is a non-empty run of letters from the input, upper-cased |
| LexProps.LeftBracketItems | parse/lex.go:283-291 | the value item starts just after `[`; it is input text, all printable and without `]`, and the rune after it is not a value rune (the run is maximal) |
| LexProps.StepItems | parse/lex.go:138-145 | every item one state emits is well formed and placed between the old and the new `start`, in order |
| LexProps.ItemsConcat | parse/lex.go:138-145 | well-formed ordered items followed by well-formed items placed later stay well formed and ordered |
| LexProps.ChainedConcat | parse/lex.go:203-207 | joining two streams that follow the grammar, through a pair that follows it, gives a stream that follows it |
| LexProps.LexFromShape | parse/lex.go:190-193 | the stream from any state is non-empty, follows the grammar and ends with EOF or an error |
| LexProps.LexFromItems | parse/lex.go:138-145 | every item of the stream from any state is well formed, at or after `start`, and positions never decrease |
| LexProps.LexGrammar | parse/lex.go:203-313 | the stream ends with exactly one EOF or error item and nothing follows it; it opens with `(` or EOF; `(` is followed by `;` or an error; `;` by a name or an error (so `;;` yields one item); a name by a value or an error; a value not closed by `]` by an error, last |
| LexProps.LexItems | parse/lex.go:138-145 | item positions never decrease; names are non-empty runs of capitals cut from the input; values are input text with no `]` |
| LexProps.LexNoParen | parse/lex.go:220-232 | an input yields the single EOF item (carrying the whole input) exactly when it has no `(` |
| LexProps.LexValueAfterSemiColon | parse/lex.go:262-272 | a value never comes before the third item and the second item is then `;` |
| LexProps.LexValuesNamed | parse/lex.go:274-297 | a value item is never first and always comes right after a property-name item or another value item, because only `lexPropertyName` and a `[` after a value enter `lexLeftBracket` |
| LexSpec.QuoteContext | parse/lex.go:158-168 | the context an error message quotes, corrected: the at most six runes before the cursor, a `|`, and the at most six runes from the cursor on, defined at every position including the end of the input |
| LexProps.QuoteAsWrittenPanics | parse/lex.go:158-168 | `quoteContext` as written panics exactly when the cursor is at the end of the input; otherwise it quotes the corrected context, without its last rune when the window reaches the end |
| LexProps.AsWrittenTruncatedInputPanics | parse/lex.go:235-240 | on `(`, `(;` and `(;GM` the `(`, `;` and property-name states report their error at the end of the input, where `quoteContext` as written panics, while the corrected context is the input followed by `|` |
| LexProps.AsWrittenNameKeepsBlank | parse/lex.go:283-297 | after `C[x] B[y]` the scanner as written emits the name `" B"`, the corrected one `"B"` |
| Game.Node.constructor | parse/parse.go:58-63 | a new node has no move, no properties, no variations and no successor |
| Game.Node.AddProperty | parse/parse.go:78-85 | `B` or `W` replaces the move and keeps the properties; any other name is appended to the properties and keeps the move |
| Game.Node.NewNode | parse/parse.go:87-90 | `next` becomes a fresh empty node, which is returned; no other field changes |
| Game.Node.NewVariation | parse/parse.go:92-96 | exactly one fresh empty node is appended to `variations` and returned; no other field changes |
| Game.GameInfo.AddProperty | parse/parse.go:104-106 | the value is stored under the upper-cased name, replacing any earlier one, and every other entry is kept |
| Game.GameInfo.GetProperty | parse/parse.go:108-111 | the value under the upper-cased name and `true`, or `""` and `false` when there is none |
| Game.LexConsumable | parse/parse.go:179-185 | every stream the scanner produces ends with its only EOF or error item, and each value comes after a `;` |
| Game.SGFGame.constructor | parse/parse.go:98-102 | a new record has an empty header, no tree and no errors |
| Game.SGFGame.NodeCount | parse/parse.go:113-119 | the length of the `next`-chain from `gameTree`, 0 without a tree |
| Game.SGFGame.NthNode | parse/parse.go:121-134 | fails for `n < 1` and for `n` beyond the node count (reporting the count); otherwise the node reached after `n - 1` `next` steps |
| Game.SGFGame.AddError | parse/parse.go:136-138 | exactly one error is appended |
| Game.SGFGame.LeaveVariation | parse/parse.go:157-163 | `)` in the game phase pops the most recently saved node and makes it current, and does nothing on an empty stack; the builder is back at the depth the outline records |
| Game.SGFGame.StartGame | parse/parse.go:168-172 | the second `;` makes a fresh empty root the tree, the whole main line and the current node, and enters the game phase; the main line then holds one empty node |
| Game.SGFGame.EnterVariation | parse/parse.go:152-156 | `(` in the game phase pushes the current node and moves into a fresh empty node appended to its variations; on the main line, this adds one variation to the node the outline's last entry describes |
| Game.SGFGame.AppendNode | parse/parse.go:173-175 | `;` in the game phase makes a fresh empty node the `next` of the current node and moves to it; the main line grows by that node exactly when the current node was its last |
| Game.SGFGame.AddToCurrent | parse/parse.go:179-185 | a value in the game phase completes the pending property and gives it to the current node (as the move for `B`/`W`, else appended); the main line changes only when the current node is its last |
| Game.SGFGame.ParseItem | parse/parse.go:151-191 | `(` and `)` act only in the game phase (push and move into a new last variation; pop and restore, nothing on an empty stack); the first `;` only enters the header phase, the second creates an empty root, later ones append a `next` node and move to it; a value goes to the header in the header phase, else to the current node; an error adds exactly one error; error and EOF stop; and the main line keeps matching the outline `OutlineStep` gives |
| Game.SGFGame.ConsumeAt | parse/parse.go:150-191 | one item keeps the record and the builder consistent: the phase follows the semicolon count, the header follows `HeaderFold`, the main line follows `MainFold` |
| Game.SGFGame.Consume | parse/parse.go:148-193 | the header is the fold of the header phase, the error list grows by the stream's error if any, a tree is created exactly when the stream has two semicolons, and then its main line holds node by node the move, properties and variation count `MainFold` gives |
| Game.SGFGame.Parse | parse/parse.go:140-194 | the same for the stream the scanner produces from the input |
| GameProps.GetAfterAdd | parse/parse.go:104-111 | a stored value is found under any spelling of its name |
| GameProps.GetOtherAfterAdd | parse/parse.go:104-111 | storing a property leaves the lookups of every other name unchanged |
| GameProps.LastWriteWins | parse/parse.go:104-106 | of two values stored under the same name in any spelling, the last one wins |
| GameProps.GetCaseInsensitive | parse/parse.go:108-111 | looking up a name is looking up its upper-case form |
| GameProps.AddPropertyCanonical | parse/parse.go:104-106 | storing a property keeps every key upper case |
| GameProps.HeaderFoldCanonical | parse/parse.go:179-183 | the header `Parse` collects has upper-case keys only |
| GameProps.HeaderFoldInGame | parse/parse.go:164-183 | once the game phase has started the header no longer changes |
| GameProps.HeaderFoldIdle | parse/parse.go:164-183 | before the first `;` no property reaches the header |
| GameProps.HeaderFoldKeys | parse/parse.go:177-183 | from any builder state, every key the header gains is the upper-case form of some property-name item of the stream or of the name of the property pending when the fold starts |
| GameProps.HeaderFoldKeysChained | parse/parse.go:177-183 | when each value follows a name or a value, the pending name can become a key only through a value that opens the stream; otherwise every new key comes from a property-name item |
| GameProps.HeaderKeysNamed | parse/parse.go:148-183 | from the builder's start (no pending property) on a stream where no value opens a property, every new header key is the upper-case form of some property-name item, so the empty name never becomes a key |
| GameProps.LexHeaderKeys | parse/parse.go:140-183 | every key of the header `Parse` builds from the scanner's stream is the upper-case form of one of that stream's property-name items |
| MainLineProps.MainFoldSettled | parse/parse.go:164-185 | once the game phase has started, every main-line node before the last is settled: later items never change it and the main line never shrinks |
| MainLineProps.MainFoldAppend | parse/parse.go:148-191 | the builder has no look-ahead: the main line of `p + q` is that of `q` folded from where `p` left the builder |
| MainLineExamples.FlatMainLine | parse/parse.go:164-185 | for `(;K[v];B[a])` the main line is one root holding the move `B[a]`, no other property and no variation |
| MainLineExamples.FlatHeader | parse/parse.go:179-183 | for `(;K[v];B[a])` the header is exactly `K` mapped to `v` |
| MainLineExamples.BuildFlat | parse/parse.go:140-194 | consuming the items of `(;K[v];B[a])` gives a header where `k` looks up `v`, a root whose move is `B[a]`, and one node |
| MainLineExamples.BranchingMainLine | parse/parse.go:152-185 | for `(;GM[1];B[aa](;W[bb])(;W[cc]))` the main line is one root holding `B[aa]` with two variations |

## Left out

- The goroutine and the unbuffered channel between scanner and builder (parse/lex.go:41, 143, 191, 196-200, 215) are not modelled. The scanner runs to completion into `items`, and `Parse` then reads that sequence. `nextItem`'s `lastPos` is not modelled either.
- Message text is not modelled: `succinct`, `QuoteErrorContext`, the `errorf` format arguments and the `String` methods. An error item carries only its kind and position, and its text is empty. The builder records the same kind and position instead of the message. Of `quoteContext` only the window it cuts is modelled (`QuoteContextAsWritten`, `QuoteContext`), for the finding below.
- Lexing.Lexer.LexLeftParen, LexSemiColon and LexPropertyName, with the steps they are proved equal to and LexProps.LexGrammar, describe the corrected behaviour when the error lies at the end of the input (input cut off right after `(`, `;` or a property name, such as `(`, `(;` or `(;GM`). There the source's `QuoteErrorContext` call (parse/lex.go:238, 269, 278) panics in `quoteContext` (parse/lex.go:163-167) and the program stops; the model emits the error item and ends the stream, and `Parse` records one error. See Findings.
- Unicode is not modelled. `unicode.IsLetter`, `unicode.IsPrint` and `strings.ToUpper` become their ASCII versions. `utf8.DecodeRuneInString` reads one `char`, so positions are character indices, not byte offsets, and `width` is 0 or 1.
- Lexing.Lexer.LexBegin and the other state methods do not state the final value of `width`. No caller reads `width` before the next `next` sets it.
- The item types `itemLeftBracket` and `itemRightBracket` are never emitted and are not modelled.
- The `Stack` type is not part of this model. The builder's stack is a `seq<Node>`, and popping an empty one leaves the current node as it is.
- `GameInfo` is a value wrapping a `map<string, string>`. The source's `gi.properties` field access does not type-check against its `map[string]string` declaration. A nil header map, which makes the source panic on the first store, is not modelled; the map starts empty.
- Game.SGFGame.ParseItem requires the header or game phase when a value arrives. In the idle phase the source would dereference a nil node. `Parse` proves that the scanner's streams never trigger this: a value always comes after a `;`.
- Game.SGFGame.Parse updates the record in place and does not return the pointer the source returns.
- Game.SGFGame.Parse states the header, the errors and the contents of every main-line node: its move, its properties and its number of variations. It does not state the contents or the shape of the variation subtrees after the whole stream, such as their nodes' properties, single ownership or acyclicity. `ParseItem` states the effect of each item on the current node and the stack.
- Game.SGFGame.Consume states the header, the errors and the contents of every main-line node (its move, its properties and its number of variations) after the whole stream. Like `Parse`, it does not state the contents or the shape of the variation subtrees, such as their nodes' properties, single ownership or acyclicity; only `ParseItem` states what each item does to the current node and the stack inside a variation.
- MainLineExamples.BuildFlat and the other worked streams start from the item stream, not from the input text: the scanner's output for those inputs is written out rather than derived from `Lex`.
- The constant tables (`sgf/constants.go`, parse/parse.go:17-42) and the unused `PlayerInfo` and `Point` types are not part of this model.

## Findings

| source | as written | input that shows it | evidently intended | confidence | as-written member | corrected member |
|---|---|---|---|---|---|---|
| parse/lex.go:293-295 | After `]`, `lexLeftBracket` skips whitespace with `next` but never calls `ignore`. The blanks stay pending, so the next item's text starts with them, and its position is just after the `]`. | `(;GM[1];C[x] B[y])`: the name item after `C[x]` is `" B"`. `Parse` then stores `" B"` as an ordinary property, not as the move. | The skipped whitespace is dropped: the name is `"B"`, and every name is a non-empty run of capital letters. | not executed | LexProps.AsWrittenNameKeepsBlank (on LexSpec.LeftBracketStepAsWritten) | LexSpec.LeftBracketStep, Lexing.Lexer.SkipWhiteSpace, LexProps.LexItems |
| parse/lex.go:163-167 | `quoteContext` clips the end of its window to `len(input) - 1` and then slices `input[pos:end]`. When the cursor is at the end of the input, that end lies before `pos`, and Go panics. `lexLeftParen`, `lexSemiColon` and `lexPropertyName` call it (through `QuoteErrorContext`, parse/lex.go:238, 269, 278) with the cursor where their error lies. When the window reaches the end of the input but the cursor does not, it also drops the last rune of the input. | `(;GM`: the property-name state reports `[` expected at position 4, the end of the input, and `quoteContext` slices `input[4:3]`. `(` and `(;` fail the same way. | The window ends at `len(input)`, so the message quotes the runes before the cursor and a `|`, and the scanner emits the error item. | not executed | LexProps.QuoteAsWrittenPanics, LexProps.AsWrittenTruncatedInputPanics (on LexSpec.QuoteContextAsWritten) | LexSpec.QuoteContext, LexSpec.LeftParenStep, LexSpec.SemiColonStep, LexSpec.PropertyNameStep, LexProps.LexGrammar |
