# A verified model of the analisador-sintatico lexer

The repository is a small lexer, written in Python, for a C-like teaching
language. `tokenize` walks the source string with a cursor and a line
counter. At each position it tries eight anchored patterns in a fixed order,
and the first one that matches wins:

1. blank space;
2. a `/* */` comment;
3. a `//` comment;
4. a float;
5. an integer;
6. a string;
7. an identifier;
8. an operator or punctuation symbol.

The first three rules emit nothing. An identifier is tagged `RESERVED` when
it is one of the eight keywords, and `ID.<text>` otherwise. Numbers and
strings are tagged `NUM-FLOAT.<text>`, `NUM-INT.<text>` and `STRING.<text>`.
A symbol is renamed through `get_symbol_token`. When no rule matches, the
character is reported and skipped. The token list always ends with
`('EOF', 'EOF', line)`.

Along the way the lexer fills three symbol tables:

- the reserved-word table, a copy of the keyword dictionary;
- the identifier table, which numbers identifiers 1, 2, 3, … in the order
  they first occur;
- the literal table, which numbers numbers and strings in one shared
  sequence of the same kind.

The Dafny model has eight modules:

- `Wrappers`: `Option`.
- `Assoc`: the keyword dictionary as an ordered list of entries, the lookup
  in it, and the map it stands for.
- `Patterns`: the eight patterns, each written by hand as a matcher on the
  text at the cursor. A matcher returns the length of the text its regular
  expression matches there, or `None`. The module also holds the ordered
  rule list and the first-rule-wins selection.
- `Symbols`: the token kinds, `get_symbol_token` as `SymbolKind` (with its
  inverse `Spelling`), and the tag strings.
- `SymbolTables`: recording a text into a table (`Intern`) and the
  first-seen numbering.
- `Lexer`: the pure semantics of a whole run (`Scan`, one loop iteration
  `Advance`, classifying a lexeme `Classify`) and the imperative lexer. The
  imperative part is a `class Lexer` whose fields are the three tables. Its
  `Tokenize` method runs the `while` loop and writes the tables in place.
  It is proved to produce exactly what `Scan` describes.
- `RuleOrder`: what the rule order implies for particular inputs.
- `LexerFacts`: properties of whole runs, proved by induction on the
  cursor.

The patterns follow Python's `re` module without flags:

- `.` matches every character except `'\n'`;
- `*` and `+` are greedy, and `*?` is lazy;
- an alternation takes the first alternative that matches.

This has consequences the model keeps. A block comment or a string must
close on the line where it opens. The string pattern has no escapes. An
unclosed `/*` is not a comment at all: its `/` lexes as `DIVIDE` and its `*`
as `TIMES`. An unclosed `"` is one unexpected character, and the text after
it is lexed as usual.

The source comment at main.py:23 calls the block-comment pattern
multi-line, but `.` does not match `'\n'`, so neither a comment nor a string
can span a line (`UnclosedCommentTokens`, `UnclosedQuote`).

The constants `Lexer.ReservedWords` and `Lexer.Initial` are the keyword
dictionary and the initial tables of main.py:4-18; `Lexer.KeywordsExact`,
`LexerFacts.InitialHoldsKeywords` and `Lexer.Lexer.constructor` state what
they hold.

## Model

| member | source | states |
|---|---|---|
| Assoc.LookupFinds | main.py:76-78 | A key is found exactly when some entry of the keyword list has it, and the value found is that entry's. |
| Assoc.Lookup | main.py:76-78 | Definition of `text in reserved_words` and `reserved_words[text]` over the keyword list; its meaning is stated by Assoc.LookupFinds. |
| Assoc.ToMap | main.py:16 | The keys of the copied table are exactly the keys of the keyword list. |
| Assoc.LookupToMap | main.py:16 | Asking the keyword list and asking its copy agree, on membership, and on the value when the key is present. |
| Patterns.RunEnd | main.py:22-28 | The greedy `*` and `+`: the end of the longest run, from i, of characters with the property; every character before it has the property and the one at the end does not. |
| Patterns.LazyUntil | main.py:23-27 | The lazy `.*?` up to a delimiter: the end of the FIRST occurrence of the delimiter at or after i, with no `'\n'` before it. With no match, every later occurrence has a line break before it. |
| Patterns.MatchBlank | main.py:22 | `[ \t\n]+` matches exactly when the text starts with a blank, and takes the whole run of blanks. |
| Patterns.MatchBlockComment | main.py:23 | A match starts with `/*` and ends at the FIRST `*/` after it, with no `'\n'` in between. No match on a `/*` text means every later `*/` comes after a line break. |
| Patterns.MatchLineComment | main.py:24 | `//.*` matches exactly the texts starting with `//`, and runs up to, but not including, the next `'\n'`. |
| Patterns.MatchFloat | main.py:25 | It matches exactly when a digit run is followed by a dot. The match is the digits, the dot and every digit after the dot, possibly none. |
| Patterns.MatchInt | main.py:26 | It matches exactly when the text starts with a digit, and takes the whole digit run. |
| Patterns.MatchString | main.py:27 | A match is a quote, no quote in between, and the first following quote on the same line. No match on a quoted text means every later quote comes after a line break. |
| Patterns.QuotedUntil | main.py:27 | The same facts as MatchString, stated over characters for the lazy search for the closing quote. |
| Patterns.MatchIdent | main.py:28 | It matches exactly when the text starts with a letter or `_`, and takes the longest run of letters, digits and `_`. |
| Patterns.FirstAlternative | main.py:29 | It finds the first alternative, in written order, that is a prefix of the text; no earlier alternative is one. |
| Patterns.AlternativesShape | main.py:29 | Every symbol alternative is one or two characters long and contains no `'\n'`. |
| Patterns.MatchSymbol | main.py:29 | It matches exactly when some alternative is a prefix. The match is one or two characters long, is itself an alternative and contains no line break. |
| Patterns.Match | main.py:21-30 | Every rule's match is non-empty and within the text. Only the blank rule can consume a `'\n'`. |
| Patterns.FirstSuccess | main.py:68-72 | It returns the first successful attempt; every attempt before it failed, and None means all failed. |
| Patterns.FirstMatch | main.py:68-72 | The winning rule matches with the returned length. There is no winner exactly when no rule matches. |
| Symbols.SymbolKind | main.py:33-58 | A lexeme is renamed to one of the 22 named kinds, spelled exactly as the lexeme, or else stays the generic SYMBOL. |
| Symbols.Spelling | main.py:34-57 | Definition of the 22 dictionary keys, as the inverse of the renaming; its facts are stated by Symbols.SymbolKindOfSpelling and Symbols.SpellingsDistinct. |
| Symbols.SymbolKindOfSpelling | main.py:34-57 | Renaming the spelling of each of the 22 named kinds gives that kind back. |
| Symbols.RenamingIsLookup | main.py:33-58 | A lexeme is renamed to a named kind exactly when it is that kind's spelling, which is the dictionary lookup. |
| Symbols.SpellingsDistinct | main.py:34-57 | Distinct named kinds have distinct spellings, so the table is a function both ways. |
| Symbols.TagIsEofOnlyForEof | main.py:77-101 | The tag "EOF" belongs to the end-of-input kind alone; `ID.EOF` and the like differ from it. |
| Symbols.Tag | main.py:80-101 | Definition of the tag strings the f-strings build (`ID.<text>`, `NUM-FLOAT.<text>`, `NUM-INT.<text>`, `STRING.<text>`, the renamed symbol, `RESERVED`, `EOF`); its facts are stated by Symbols.TagIsEofOnlyForEof. |
| Symbols.SlashAndStarNamed | main.py:55-56 | `/` is DIVIDE and `*` is TIMES. |
| Symbols.IncrementAndDecrementStayGeneric | main.py:58 | `++` and `--` are not in the table and are tagged SYMBOL. |
| SymbolTables.Intern | main.py:81-82 | A new text gets the table's size plus one and grows the table by one. A known text leaves the table's size as it is. Every existing entry keeps its number. |
| SymbolTables.InternAll | main.py:81-82 | Recording texts in order adds exactly those texts as keys and changes no existing number. |
| SymbolTables.Numbering | main.py:81-82 | The first-seen numbering gives the i-th distinct text the number i + 1, and has exactly those texts as keys. |
| SymbolTables.NumberingExtend | main.py:82 | Numbering one more, new text after the others gives it the next number and keeps the others. |
| SymbolTables.FirstSeen | main.py:81 | The texts in order of first occurrence have no duplicates, extend what was already seen, and cover every text given. |
| SymbolTables.InternNumbered | main.py:81-82 | Recording keeps the numbers exactly 1..n, each used once. |
| SymbolTables.InternAllNumbered | main.py:81-82 | Recording many texts keeps the numbers exactly 1..n, each used once. |
| SymbolTables.InternKnown | main.py:81 | Recording a text that is already numbered changes nothing. |
| SymbolTables.InternNew | main.py:82 | Recording a new text into a first-seen numbering gives the numbering extended by it. |
| SymbolTables.InternFirst | main.py:81-82 | The same two cases stated together: recording a text gives the first-seen numbering with that text added if it is new. |
| SymbolTables.InternAllNumbering | main.py:81-82 | Recording a sequence into a first-seen numbering gives the first-seen numbering of the extended sequence. |
| SymbolTables.FreshNumbering | main.py:81-82 | From an empty table, each text gets 1 plus the number of distinct texts recorded before it first occurs. |
| SymbolTables.InternAllAppend | main.py:81-82 | Recording two sequences one after the other is recording their concatenation. |
| SymbolTables.WriteBackSame | main.py:78 | Writing back the value a key already has leaves a table as it is. |
| Lexer.Lexer.constructor | main.py:15-18 | The reserved table starts as a copy of the keyword dictionary; the identifier and literal tables start empty. |
| Lexer.Lexer.Record | main.py:75-92 | The kind given to the lexeme, and the three tables written in place, are those Classify describes. |
| Lexer.Lexer.Step | main.py:72-100 | One iteration, given the result of trying the rules, is exactly Advance: what it emits or reports, where the cursor and line go, and the new tables. |
| Lexer.Lexer.ScanAt | main.py:66-100 | The run from the cursor is this iteration's output followed by the run from where the iteration stops, and the cursor moves forward. |
| Lexer.Lexer.Tokenize | main.py:61-102 | The tokens, the unexpected characters and the final tables are exactly those of the run Scan describes from position 0 on line 1. |
| Lexer.TryRules | main.py:67-72 | The `for`/`break` over the rules returns the first rule that matches and its length. |
| Lexer.Classify | main.py:74-92 | No lexeme of a token-producing rule gets the EOF kind. |
| Lexer.ClassifyKind | main.py:75-92 | An identifier is RESERVED exactly when it is a keyword, and ID with its text otherwise. Numbers and strings keep their text in their kind. A symbol is renamed. The ID kinds and the literal kinds come from exactly the identifier rule and the number and string rules. |
| Lexer.KindOf | main.py:75-92 | No lexeme of a token-producing rule gets the EOF kind; what kind each rule gives is stated by Lexer.ClassifyKind. |
| Lexer.Recorded | main.py:76-90 | Definition of the three table writes; their meaning is stated by Lexer.RecordedTables. |
| Lexer.RecordedTables | main.py:79-90 | Only a non-keyword identifier enters the identifier table. Only a number or a string enters the single literal table, keyed by its raw text. |
| Lexer.SymbolTouchesNoTable | main.py:91-92 | A symbol is renamed and written into no table. |
| Lexer.KeywordsExact | main.py:4-13 | `if` is a keyword; `iffy` and `If` are not, and lex as identifiers. |
| Lexer.Newlines | main.py:100 | Definition of `text.count('\n')`; its facts are stated by Lexer.NewlinesAppend and Lexer.NoNewlineCountsNone. |
| Lexer.NewlinesAppend | main.py:100 | Line counting adds up over a concatenation. |
| Lexer.NoNewlineCountsNone | main.py:100 | A text with no line break advances the line by nothing. |
| Lexer.FirstMatchPossible | main.py:66-98 | What the rules give at the cursor is non-empty and within the input, has no line break unless it is blank space, and an unmatched character is not `'\n'`. |
| Lexer.Advance | main.py:66-100 | One iteration moves the cursor forward and no further than the input's end. It advances the line by the `'\n'` it consumed. It emits at most one token or one report, and reports exactly when nothing matched. With nothing emitted the tables are unchanged. An emitted token is on the current line, is the consumed text and has no line break. |
| Lexer.Consume | main.py:73-100 | An ignored match emits nothing; any other match emits one token of the matched text. The cursor goes to the match's end and the line counts its `'\n'`. |
| Lexer.AdvanceUnmatched | main.py:95-98 | An unmatched character is reported with the current line, emits nothing, leaves the tables, and the cursor moves on by one. |
| Lexer.ConsumeIgnored | main.py:73-100 | A blank or comment match emits nothing and leaves the tables. |
| Lexer.ConsumeEmits | main.py:73-93 | A token-producing match emits one token: the classified kind, the matched text and the current line. |
| Lexer.Scan | main.py:66-101 | Definition of one run from a cursor, a line and the tables: at the end of the input the EOF token alone, otherwise the iteration Advance gives followed by the run from where it stops. Lexer.Lexer.Tokenize is proved equal to it; its facts are stated by Lexer.ScanEndsWithEof and the LexerFacts lemmas. |
| Lexer.ScanFrom | main.py:67-100 | Definition of the run once trying the rules gave a result: the iteration's output put in front of the rest of the run. |
| Lexer.ScanUnfold | main.py:66-100 | A run is its first iteration, which is Advance with the rule that wins at the cursor, followed by the run from where that iteration stops, which is strictly further on. |
| Lexer.ScanAtEnd | main.py:101 | At the end of the input the run is the EOF token on the current line, alone. |
| Lexer.ScanEndsWithEof | main.py:66-101 | Every run terminates and ends with the EOF token, on 1 plus the `'\n'` count from the start (for a run from line 1). |
| Lexer.EndsWithEofAfter | main.py:93-101 | Tokens put in front of a run keep its final EOF last. |
| Lexer.After | main.py:93-98 | Putting an iteration's output in front of a run keeps the run's tables and adds up the lengths. |
| Lexer.AfterAfter | main.py:93-98 | Two iterations' outputs put in front one after the other are their concatenation put in front. |
| RuleOrder.FirstMatchIs | main.py:68-72 | The k-th rule wins with length n exactly when it matches n and no earlier rule matches. |
| RuleOrder.FloatBeforeInt | main.py:25-26 | Digits followed by a dot lex as a single float, including `3.` with no digits after the dot, never as an integer and a dot. |
| RuleOrder.IntWithoutDot | main.py:25-26 | Digits followed by neither a digit nor a dot lex as one integer, the whole digit run. |
| RuleOrder.IdentifierWins | main.py:22-28 | A letter or `_` always starts an identifier match, keyword or not. |
| RuleOrder.LineCommentWins | main.py:22-24 | `//` is always a line comment, never two divide symbols. |
| RuleOrder.BlockCommentWins | main.py:22-23 | A comment closed on its line is skipped as a whole. |
| RuleOrder.UnclosedCommentIsDivide | main.py:23-29 | A `/*` with no `*/` later on its line makes the slash win as a one-character symbol. |
| RuleOrder.StarIsTimes | main.py:29 | A star always wins as the one-character symbol. |
| RuleOrder.TwoCharPreferred | main.py:29 | When the next two characters spell a two-character operator, the symbol rule takes both, never only the first. |
| RuleOrder.SymbolIsLongest | main.py:29 | The symbol rule takes the longest alternative that starts the text. |
| RuleOrder.IncrementAndDecrementAreOneSymbol | main.py:29 | `++` and `--` each lex as one two-character symbol. |
| RuleOrder.NoRuleMatches | main.py:21-30 | No rule matches exactly when the text starts with no blank, digit, letter or `_`, with no closed string and with no symbol. |
| RuleOrder.StrayCharacter | main.py:95-98 | A character such as `#`, `@`, `$` or a carriage return matches no rule. |
| RuleOrder.UnclosedQuote | main.py:27 | A quote with no closing quote later on its line matches no rule. |
| RuleOrder.LoneAmpersandOrBar | main.py:29 | A single ampersand or vertical bar that is not doubled matches no rule. |
| RuleOrder.SymbolWins | main.py:22-29 | Where a symbol character other than `/` starts the text, only the symbol rule can win. |
| LexerFacts.LexemeWellFormed | main.py:75-92 | A lexeme with no line break, classified, is a well-formed token for its kind. |
| LexerFacts.ClassifiedWellFormed | main.py:71-93 | The lexeme of the winning rule, classified, is a well-formed token: a keyword tagged RESERVED, a non-keyword ID, a literal with its own text, `++`/`--` as SYMBOL, or a named symbol spelled as its name. |
| LexerFacts.EmittedWellFormed | main.py:71-93 | Every token one iteration emits is well formed. |
| LexerFacts.ScanWellFormed | main.py:66-100 | Every token of a run before its EOF is well formed. |
| LexerFacts.EofOnlyAtEnd | main.py:101 | The token list ends with EOF, on line 1 plus the input's `'\n'` count. No other token has the EOF kind or the tag "EOF". |
| LexerFacts.ScanLocated | main.py:66-100 | Every token but EOF is the input text where it starts, on the line the `'\n'`s before it give, in input order and without overlap. |
| LexerFacts.LineOfEachToken | main.py:93-100 | Over the whole input, each token but EOF is the input's text at its start, and its line is 1 plus the `'\n'`s before that start. |
| LexerFacts.ScanUnmatched | main.py:95-98 | Every reported character is one no rule matches, with its line, in input order. |
| LexerFacts.ClassifiedTables | main.py:75-92 | After one lexeme, the identifier and literal tables have its identifier or literal interned. A reserved table that holds the keywords is unchanged. |
| LexerFacts.StepTables | main.py:66-100 | The same for one iteration. |
| LexerFacts.ScanTables | main.py:66-101 | A run leaves the identifier table as its identifiers recorded in order, and the literal table as its numbers and strings recorded in order. A reserved table holding the keywords is never changed. |
| LexerFacts.FreshTables | main.py:79-90 | From empty tables the identifiers and the literals are each numbered 1, 2, 3, … in first-seen order, with no number used twice. |
| LexerFacts.IdentifiersAreNotKeywords | main.py:76-82 | No identifier a run records is a keyword. |
| LexerFacts.FreshRunFrom | main.py:61-102 | For a run from fresh tables: the reserved table is unchanged; identifiers and literals are numbered in first-seen order, 1..n without duplicates; no keyword is in the identifier table. |
| LexerFacts.FreshRun | main.py:15-18 | The same from the initial tables, whose reserved table stays equal to the keyword dictionary. |
| LexerFacts.LaterRun | main.py:61-102 | A later call on the tables an earlier one left: a reserved table holding the keywords is unchanged, so one equal to the keyword dictionary stays equal to it. The identifier and literal tables grow by exactly this run's texts in order and stay numbered 1..n without duplicates. No keyword enters the identifier table. |
| LexerFacts.LaterOutcome | main.py:75-92 | The same table facts, stated over any outcome a run from those tables could have. |
| LexerFacts.TwoRuns | main.py:61-102 | Two calls in turn from the initial tables number identifiers and literals in the order they first occur across both calls, as if the two token lists were one; the reserved table stays the keyword dictionary. |
| LexerFacts.InitialHoldsKeywords | main.py:16 | The initial reserved table holds every keyword with its code. |
| LexerFacts.KeywordWriteBack | main.py:78 | Writing a keyword's code back into a table that holds it changes nothing. |
| LexerFacts.UnexpectedCharacterSkipped | main.py:95-98 | Where no rule matches: one report with the character and its line, no token, tables unchanged, and the run resumes one character later. |
| LexerFacts.ScanEmitsOneSymbol | main.py:91-99 | Where the symbol rule wins with one character, that renamed symbol is emitted on the current line, and the run goes on after it with the tables unchanged. |
| LexerFacts.ScanStar | main.py:29 | A star always lexes as TIMES on the current line. |
| LexerFacts.ScanUnclosedSlash | main.py:23-29 | The slash of an unclosed `/*` lexes as DIVIDE. |
| LexerFacts.UnclosedCommentTokens | main.py:23-29 | An unclosed `/*` opens no comment: the run emits DIVIDE `/` and then TIMES `*`, both on the current line. |
| LexerFacts.EmptyInput | main.py:66-101 | An empty input gives the EOF token alone, on line 1, with no report and the tables as they were. |

## Left out

- Printing. `print_symbol_tables` (main.py:105-116) is not modelled. The message printed for an unexpected character (main.py:96) becomes an `Unexpected(character, line)` report that `Tokenize` returns.
- The module-level driver and its sample program (main.py:119-133). It is not part of the lexer. Its result is not restated as a concrete lemma, because unfolding the run over a whole sample text is far too costly for the verifier.
- Python's `re` engine. Each of the eight patterns is a matcher written by hand for that pattern only. Compiling the pattern again on every iteration (main.py:70) has no visible effect.
- Unicode digits. `\d` in Python also matches non-ASCII digits; the model accepts only ASCII `0`-`9`. The identifier pattern `[a-zA-Z_]` is ASCII-only in Python too, so nothing is lost there.
- Global state. The three tables are fields of one `Lexer` object instead of module globals. Tables accumulating across several `tokenize` calls on the same globals is kept: `Tokenize` starts from the object's current tables. The numbering facts hold for later calls too (`LaterRun`, `TwoRuns`).
- The tag strings. A token carries its `Kind`, and `Symbols.Tag` gives the string the source builds. The f-string formatting itself (main.py:80, main.py:84, main.py:88) is not modelled beyond that.
