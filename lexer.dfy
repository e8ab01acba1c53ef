/**
 * The lexer: a scan loop that, at each position, takes the first rule that
 * matches, classifies and records the matched text, and skips (reporting it)
 * a character no rule matches.  Scan is the functional definition of one run;
 * the class Lexer holds the three tables and runs the loop in place.
 */
module Lexer {
  import opened Wrappers
  import opened Assoc
  import opened Patterns
  import opened Symbols
  import opened SymbolTables

  /** The language's keywords with their fixed codes, in the source's order. */
  const ReservedWords: seq<(string, nat)> :=
    [("if", 1), ("else", 2), ("while", 3), ("return", 4),
     ("int", 5), ("float", 6), ("void", 7), ("char", 8)]

  /** A text that is one of the keywords. */
  predicate IsKeyword(w: string) {
    Lookup(ReservedWords, w).Some?
  }

  /** A token: its kind, the exact text matched, and the line the match starts on. */
  datatype Token = Token(kind: Kind, text: string, line: nat)

  /** A character no rule matches, with the line it is on. */
  datatype Unexpected = Unexpected(ch: char, line: nat)

  /** The three symbol tables. */
  datatype Tables = Tables(reserved: map<string, nat>, identifiers: Table, literals: Table)

  /** The tables before any scan: the reserved table is a copy of the keyword table. */
  const Initial: Tables := Tables(ToMap(ReservedWords), map[], map[])

  /** What one run produces. */
  datatype Outcome = Outcome(tokens: seq<Token>, errors: seq<Unexpected>, tables: Tables)

  /** The kinds whose text goes into the literal table. */
  predicate IsLiteral(k: Kind) {
    k.NumInt? || k.NumFloat? || k.Str?
  }

  /** The rules whose lexemes go into the literal table. */
  predicate LiteralRule(rule: Rule) {
    rule == FloatNumber || rule == IntNumber || rule == QuotedString
  }

  /** Number of '\n' in t. */
  function Newlines(t: string): nat
    decreases |t|
  {
    if t == [] then 0 else (if t[0] == '\n' then 1 else 0) + Newlines(t[1..])
  }

  lemma {:induction false} NewlinesAppend(a: string, b: string)
    ensures Newlines(a + b) == Newlines(a) + Newlines(b)
    decreases |a|
  {
    if a == [] {
      assert a + b == b;
    } else {
      assert (a + b)[1..] == a[1..] + b;
      NewlinesAppend(a[1..], b);
    }
  }

  /** Newlines over s[i..k] split at j. */
  lemma {:induction false} NewlinesSplit(s: string, i: nat, j: nat, k: nat)
    requires i <= j <= k <= |s|
    ensures Newlines(s[i..k]) == Newlines(s[i..j]) + Newlines(s[j..k])
  {
    assert s[i..k] == s[i..j] + s[j..k];
    NewlinesAppend(s[i..j], s[j..k]);
  }

  /** Newlines from i on, split at j. */
  lemma {:induction false} NewlinesSuffix(s: string, i: nat, j: nat)
    requires i <= j <= |s|
    ensures Newlines(s[i..]) == Newlines(s[i..j]) + Newlines(s[j..])
  {
    NewlinesSplit(s, i, j, |s|);
    assert s[i..] == s[i..|s|] && s[j..] == s[j..|s|];
  }

  /** A text with no '\n' in it counts no lines. */
  lemma {:induction false} NoNewlineCountsNone(t: string)
    requires NoNewline(t, 0, |t|)
    ensures Newlines(t) == 0
    decreases |t|
  {
    if t != [] {
      NoNewlineCountsNone(t[1..]);
    }
  }

  datatype Classified = Classified(kind: Kind, tables: Tables)

  /**
   * The kind of a lexeme matched by a token-producing rule, and the tables
   * after recording it: identifiers and literals are interned, a reserved word
   * is written back into the reserved table, a symbol touches no table.
   */
  function Classify(rule: Rule, text: string, tb: Tables): (c: Classified)
    requires !Ignored(rule)
    ensures c.kind != EOF
  {
    var keyword := Lookup(ReservedWords, text);
    Classified(KindOf(rule, text, keyword), Recorded(rule, text, keyword, tb))
  }

  /** The kind of a lexeme, once the keyword table has been consulted: keyword is its code, if it is a keyword. */
  function KindOf(rule: Rule, text: string, keyword: Option<nat>): (k: Kind)
    requires !Ignored(rule)
    ensures k != EOF
  {
    match rule
    case Identifier => if keyword.Some? then Reserved else Id(text)
    case FloatNumber => NumFloat(text)
    case IntNumber => NumInt(text)
    case QuotedString => Str(text)
    case Punctuation => SymbolKind(text)
  }

  /** The tables after recording a lexeme whose keyword code, if it is a keyword, is keyword. */
  function Recorded(rule: Rule, text: string, keyword: Option<nat>, tb: Tables): Tables {
    Tables(if rule == Identifier && keyword.Some? then tb.reserved[text := keyword.value] else tb.reserved,
           if rule == Identifier && keyword.None? then Intern(tb.identifiers, text) else tb.identifiers,
           if LiteralRule(rule) then Intern(tb.literals, text) else tb.literals)
  }

  /**
   * The tables after recording: the lexeme is interned in the identifier
   * table if it is an identifier that is not a keyword, in the literal table if
   * it is a number or a string.
   */
  lemma {:induction false} RecordedTables(rule: Rule, text: string, keyword: Option<nat>, tb: Tables)
    ensures var r := Recorded(rule, text, keyword, tb);
      && r.identifiers == InternAll(tb.identifiers, if rule == Identifier && keyword.None? then [text] else [])
      && r.literals == InternAll(tb.literals, if LiteralRule(rule) then [text] else [])
  {
    if rule == Identifier && keyword.None? {
      InternOne(tb.identifiers, text);
      InternNone(tb.literals);
    } else if LiteralRule(rule) {
      InternNone(tb.identifiers);
      InternOne(tb.literals, text);
    } else {
      InternNone(tb.identifiers);
      InternNone(tb.literals);
    }
  }

  /** The kind each rule's lexeme gets: a keyword is reserved, every other lexeme keeps its text in its kind. */
  lemma {:induction false} ClassifyKind(rule: Rule, text: string, keyword: Option<nat>)
    requires !Ignored(rule)
    ensures var k := KindOf(rule, text, keyword);
      && (rule == Identifier ==> (k == Reserved <==> keyword.Some?))
      && (rule == Identifier && keyword.None? ==> k == Id(text))
      && (rule == FloatNumber ==> k == NumFloat(text))
      && (rule == IntNumber ==> k == NumInt(text))
      && (rule == QuotedString ==> k == Str(text))
      && (rule == Punctuation ==> k == SymbolKind(text))
      && (k.Id? <==> rule == Identifier && keyword.None?)
      && (IsLiteral(k) <==> LiteralRule(rule))
  {
    match rule
    case Identifier =>
    case FloatNumber =>
    case IntNumber =>
    case QuotedString =>
    case Punctuation =>
  }

  /** A symbol lexeme is renamed and written into no table. */
  lemma {:induction false} SymbolTouchesNoTable(text: string, tb: Tables)
    ensures Classify(Punctuation, text, tb) == Classified(SymbolKind(text), tb)
  {
  }

  /** Keywords are matched exactly and case-sensitively: "iffy" and "If" are identifiers. */
  lemma KeywordsExact()
    ensures IsKeyword("if") && !IsKeyword("iffy") && !IsKeyword("If")
    ensures KindOf(Identifier, "iffy", Lookup(ReservedWords, "iffy")) == Id("iffy")
    ensures KindOf(Identifier, "if", Lookup(ReservedWords, "if")) == Reserved
  {
  }

  /** What one iteration of the scan loop does at position pos. */
  datatype StepOut = StepOut(emitted: seq<Token>, errors: seq<Unexpected>, next: nat, line: nat, tables: Tables)

  /** The first-rule result m at pos is one the rules can produce there. */
  predicate Possible(s: string, pos: nat, m: Option<(Rule, nat)>)
    requires pos < |s|
  {
    match m
    case Some((rule, n)) => 0 < n <= |s| - pos && (rule != Blank ==> NoNewline(s, pos, pos + n))
    case None => s[pos] != '\n'
  }

  lemma {:induction false} FirstMatchPossible(s: string, pos: nat)
    requires pos < |s|
    ensures Possible(s, pos, FirstMatch(s[pos..]))
  {
    var t := s[pos..];
    match FirstMatch(t)
    case None => assert Match(Rules[0], t).None?;
    case Some((rule, n)) =>
      assert forall k :: 0 <= k < n ==> t[k] == s[pos + k];
  }

  /** One iteration of the scan loop at pos, given the result m of trying the rules there. */
  function Advance(s: string, pos: nat, line: nat, tb: Tables, m: Option<(Rule, nat)>): (o: StepOut)
    requires pos < |s| && Possible(s, pos, m)
    ensures pos < o.next <= |s|
    ensures o.line == line + Newlines(s[pos..o.next])
    ensures |o.emitted| + |o.errors| <= 1
    ensures o.errors != [] <==> m.None?
    ensures o.emitted == [] ==> o.tables == tb
    ensures |o.emitted| == 1 ==>
      var tk := o.emitted[0];
      tk.kind != EOF && tk.line == line && tk.text == s[pos..o.next] && NoNewline(tk.text, 0, |tk.text|)
  {
    match m
    case None =>
      assert s[pos..pos + 1] == [s[pos]];
      StepOut([], [Unexpected(s[pos], line)], pos + 1, line, tb)
    case Some((rule, n)) =>
      var o := Consume(s, pos, line, tb, rule, n);
      assert s[pos..o.next] == s[pos..pos + n];
      o
  }

  /** The iteration at pos when rule matched the n characters there: skip them, or classify and emit them. */
  function Consume(s: string, pos: nat, line: nat, tb: Tables, rule: Rule, n: nat): (o: StepOut)
    requires pos < |s| && Possible(s, pos, Some((rule, n)))
    ensures o.next == pos + n && o.errors == []
    ensures o.line == line + Newlines(s[pos..pos + n])
    ensures |o.emitted| == (if Ignored(rule) then 0 else 1)
    ensures o.emitted == [] ==> o.tables == tb
    ensures |o.emitted| == 1 ==>
      var tk := o.emitted[0];
      tk.kind != EOF && tk.line == line && tk.text == s[pos..pos + n] && NoNewline(tk.text, 0, |tk.text|)
  {
    var text := s[pos..pos + n];
    if Ignored(rule) then
      StepOut([], [], pos + n, line + Newlines(text), tb)
    else
      var c := Classify(rule, text, tb);
      assert forall k :: 0 <= k < n ==> text[k] == s[pos + k];
      StepOut([Token(c.kind, text, line)], [], pos + n, line + Newlines(text), c.tables)
  }

  /**
   * The run from position pos on line line with tables tb: the tokens, the
   * unexpected characters and the final tables (ScanEndsWithEof: it always
   * ends with the one EOF token, on the line reached at the end of the input).
   */
  function Scan(s: string, pos: nat, line: nat, tb: Tables): Outcome
    requires pos <= |s|
    decreases |s| - pos, 1
  {
    if pos == |s| then
      Outcome([Token(EOF, "EOF", line)], [], tb)
    else
      FirstMatchPossible(s, pos);
      ScanFrom(s, pos, line, tb, FirstMatch(s[pos..]))
  }

  /** The run from pos once trying the rules there gave m: this iteration, then the rest. */
  function ScanFrom(s: string, pos: nat, line: nat, tb: Tables, m: Option<(Rule, nat)>): Outcome
    requires pos < |s| && Possible(s, pos, m)
    decreases |s| - pos, 0
  {
    var st := Advance(s, pos, line, tb, m);
    After(st.emitted, st.errors, Scan(s, st.next, st.line, st.tables))
  }

  /**
   * The run from pos < |s| unfolded once: st is the iteration there, Advance
   * with the rule that wins at pos; it stops after pos and counts the lines it
   * consumed, and the run is st's output followed by the run from where st stops.
   */
  lemma {:induction false} ScanUnfold(s: string, pos: nat, line: nat, tb: Tables) returns (st: StepOut)
    requires pos < |s|
    ensures Possible(s, pos, FirstMatch(s[pos..]))
    ensures st == Advance(s, pos, line, tb, FirstMatch(s[pos..]))
    ensures pos < st.next <= |s| && st.line == line + Newlines(s[pos..st.next])
    ensures Scan(s, pos, line, tb) == After(st.emitted, st.errors, Scan(s, st.next, st.line, st.tables))
  {
    FirstMatchPossible(s, pos);
    st := Advance(s, pos, line, tb, FirstMatch(s[pos..]));
  }

  /** The last token of o is EOF on line eofLine. */
  ghost predicate EndsWithEof(o: Outcome, eofLine: nat) {
    |o.tokens| > 0 && o.tokens[|o.tokens| - 1] == Token(EOF, "EOF", eofLine)
  }

  /** Every run ends with the one EOF token, on the line reached at the end of the input. */
  lemma {:induction false} ScanEndsWithEof(s: string, pos: nat, line: nat, tb: Tables)
    requires pos <= |s|
    ensures EndsWithEof(Scan(s, pos, line, tb), line + Newlines(s[pos..]))
    decreases |s| - pos
  {
    if pos == |s| {
      ScanAtEnd(s, line, tb);
      assert s[pos..] == [];
    } else {
      var st := ScanUnfold(s, pos, line, tb);
      ScanEndsWithEof(s, st.next, st.line, st.tables);
      NewlinesSuffix(s, pos, st.next);
      EndsWithEofAfter(Scan(s, pos, line, tb), st, Scan(s, st.next, st.line, st.tables),
                       line, Newlines(s[pos..st.next]), Newlines(s[st.next..]));
    }
  }

  /**
   * A run made of one iteration's output followed by a run that ends with
   * EOF ends with that same EOF.
   */
  lemma {:induction false} EndsWithEofAfter(o: Outcome, st: StepOut, rest: Outcome, line: nat, a: nat, b: nat)
    requires o == After(st.emitted, st.errors, rest)
    requires st.line == line + a && EndsWithEof(rest, st.line + b)
    ensures EndsWithEof(o, line + a + b)
  {
    assert o.tokens == st.emitted + rest.tokens;
  }

  /** The outcome o with tokens and errors put in front of its own. */
  function After(tokens: seq<Token>, errors: seq<Unexpected>, o: Outcome): (r: Outcome)
    ensures r.tables == o.tables
    ensures |r.tokens| == |tokens| + |o.tokens| && |r.errors| == |errors| + |o.errors|
  {
    Outcome(tokens + o.tokens, errors + o.errors, o.tables)
  }

  lemma {:induction false} AfterAfter(t1: seq<Token>, e1: seq<Unexpected>, t2: seq<Token>, e2: seq<Unexpected>, o: Outcome)
    ensures After(t1, e1, After(t2, e2, o)) == After(t1 + t2, e1 + e2, o)
  {
    assert t1 + (t2 + o.tokens) == (t1 + t2) + o.tokens;
    assert e1 + (e2 + o.errors) == (e1 + e2) + o.errors;
  }

  /** At the end of the input the run is the EOF token alone. */
  lemma {:induction false} ScanAtEnd(s: string, line: nat, tb: Tables)
    ensures Scan(s, |s|, line, tb) == Outcome([Token(EOF, "EOF", line)], [], tb)
  {
  }

  lemma {:induction false} AdvanceUnmatched(s: string, pos: nat, line: nat, tb: Tables)
    requires pos < |s| && s[pos] != '\n'
    ensures Advance(s, pos, line, tb, None) == StepOut([], [Unexpected(s[pos], line)], pos + 1, line, tb)
  {
  }

  /** An iteration where a rule matched is that rule's consumption of the matched characters. */
  lemma {:induction false} AdvanceMatched(s: string, pos: nat, line: nat, tb: Tables, rule: Rule, n: nat)
    requires pos < |s| && Possible(s, pos, Some((rule, n)))
    ensures Advance(s, pos, line, tb, Some((rule, n))) == Consume(s, pos, line, tb, rule, n)
  {
  }

  lemma {:induction false} ConsumeIgnored(s: string, pos: nat, line: nat, tb: Tables, rule: Rule, n: nat)
    requires pos < |s| && Possible(s, pos, Some((rule, n))) && Ignored(rule)
    ensures Consume(s, pos, line, tb, rule, n) == StepOut([], [], pos + n, line + Newlines(s[pos..pos + n]), tb)
  {
  }

  lemma {:induction false} ConsumeEmits(s: string, pos: nat, line: nat, tb: Tables, rule: Rule, n: nat)
    requires pos < |s| && Possible(s, pos, Some((rule, n))) && !Ignored(rule)
    ensures var text := s[pos..pos + n];
      var c := Classify(rule, text, tb);
      Consume(s, pos, line, tb, rule, n) ==
        StepOut([Token(c.kind, text, line)], [], pos + n, line + Newlines(text), c.tables)
  {
  }

  /** Tries the rules in order on the text at the scan position; the first that matches wins. */
  method TryRules(t: string) returns (found: Option<(Rule, nat)>)
    ensures found == FirstMatch(t)
  {
    found := None;
    var i := 0;
    while i < |Rules|
      invariant 0 <= i <= |Rules|
      invariant FirstSuccess(Attempts(t), i) == FirstSuccess(Attempts(t), 0)
      invariant found == None
    {
      var m := Match(Rules[i], t);
      if m.Some? {
        found := Some((Rules[i], m.value));
        break;
      }
      i := i + 1;
    }
  }

  /** A lexer owns the three tables, which its runs update in place. */
  class Lexer {
    var reserved: map<string, nat>
    var identifiers: Table
    var literals: Table

    function State(): Tables
      reads this
    {
      Tables(reserved, identifiers, literals)
    }

    constructor ()
      ensures State() == Initial
    {
      reserved := ToMap(ReservedWords);
      identifiers := map[];
      literals := map[];
    }

    /** Classifies a matched lexeme and writes it into the tables. */
    method Record(rule: Rule, text: string) returns (kind: Kind)
      requires !Ignored(rule)
      modifies this
      ensures Classified(kind, State()) == Classify(rule, text, old(State()))
    {
      if rule == Identifier {
        var code := Lookup(ReservedWords, text);
        if code.Some? {
          kind := Reserved;
          reserved := reserved[text := code.value];
        } else {
          kind := Id(text);
          if text !in identifiers {
            identifiers := identifiers[text := |identifiers| + 1];
          }
        }
      } else if rule == FloatNumber || rule == IntNumber || rule == QuotedString {
        kind := if rule == FloatNumber then NumFloat(text) else if rule == IntNumber then NumInt(text) else Str(text);
        if text !in literals {
          literals := literals[text := |literals| + 1];
        }
      } else {
        kind := SymbolKind(text);
      }
    }

    /**
     * Acts on the result found of trying the rules at position: records and
     * emits the matched lexeme, skips an ignored one, or reports the character
     * no rule matches.  This is one iteration of the scan loop, Advance.
     */
    method Step(source: string, position: nat, line: nat, found: Option<(Rule, nat)>)
      returns (emitted: seq<Token>, errors: seq<Unexpected>, next: nat, nextLine: nat)
      requires position < |source| && Possible(source, position, found)
      modifies this
      ensures StepOut(emitted, errors, next, nextLine, State()) == Advance(source, position, line, old(State()), found)
    {
      if found.None? {
        AdvanceUnmatched(source, position, line, State());
        emitted, errors, next, nextLine := [], [Unexpected(source[position], line)], position + 1, line;
      } else {
        var (rule, n) := found.value;
        var text := source[position..position + n];
        emitted, errors, next, nextLine := [], [], position + n, line + Newlines(text);
        if Ignored(rule) {
          AdvanceMatched(source, position, line, State(), rule, n);
          ConsumeIgnored(source, position, line, State(), rule, n);
        } else {
          AdvanceMatched(source, position, line, State(), rule, n);
          ConsumeEmits(source, position, line, State(), rule, n);
          var kind := Record(rule, text);
          emitted := [Token(kind, text, line)];
        }
      }
    }

    /**
     * One iteration of the scan loop at position: try the rules in order, then
     * act on the result.  The run from position is what this iteration
     * produces followed by the run from where it stops.
     */
    method ScanAt(source: string, position: nat, line: nat)
      returns (emitted: seq<Token>, errors: seq<Unexpected>, next: nat, nextLine: nat)
      requires position < |source|
      modifies this
      ensures position < next <= |source|
      ensures Scan(source, position, line, old(State())) == After(emitted, errors, Scan(source, next, nextLine, State()))
    {
      var found := TryRules(source[position..]);
      var st := ScanUnfold(source, position, line, State());
      emitted, errors, next, nextLine := Step(source, position, line, found);
    }

    /** Tokenizes source, growing the tables; unexpected characters are returned, not printed. */
    method Tokenize(source: string) returns (tokens: seq<Token>, errors: seq<Unexpected>)
      modifies this
      ensures Outcome(tokens, errors, State()) == Scan(source, 0, 1, old(State()))
    {
      tokens, errors := [], [];
      var position: nat := 0;
      var line: nat := 1;
      while position < |source|
        invariant position <= |source|
        invariant After(tokens, errors, Scan(source, position, line, State())) == Scan(source, 0, 1, old(State()))
        decreases |source| - position
      {
        var emitted, errs, next, nextLine := ScanAt(source, position, line);
        AfterAfter(tokens, errors, emitted, errs, Scan(source, next, nextLine, State()));
        tokens, errors := tokens + emitted, errors + errs;
        position, line := next, nextLine;
      }
      ScanAtEnd(source, line, State());
      tokens := tokens + [Token(EOF, "EOF", line)];
    }
  }
}
