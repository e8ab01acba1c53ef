/**
 * Properties of a whole run of the lexer, proved over Scan by induction on
 * the scan position: the token stream ends with its only EOF, every token is
 * well formed, the tables end up as the interned texts of the tokens, and
 * every token and every unexpected character carries its line.
 */
module LexerFacts {
  import opened Wrappers
  import opened Assoc
  import opened Patterns
  import opened Symbols
  import opened SymbolTables
  import opened Lexer
  import opened RuleOrder

  /** Of the symbol alternatives, only "++" and "--" have no name of their own. */
  lemma {:induction false} UnnamedAlternatives(i: nat)
    requires i < |SymbolAlternatives| && SymbolKind(SymbolAlternatives[i]) == Symbol
    ensures i < 2
  {
  }

  /** A symbol lexeme the renaming leaves generic is "++" or "--". */
  lemma {:induction false} GenericSymbolIsIncDec(text: string)
    requires text in SymbolAlternatives && SymbolKind(text) == Symbol
    ensures text == "++" || text == "--"
  {
    var i :| 0 <= i < |SymbolAlternatives| && SymbolAlternatives[i] == text;
    UnnamedAlternatives(i);
  }

  /** What every token but EOF satisfies. */
  predicate WellFormed(tk: Token) {
    && 0 < |tk.text| && NoNewline(tk.text, 0, |tk.text|)
    && match tk.kind
       case EOF => false
       case Reserved => IsKeyword(tk.text)
       case Id(x) => x == tk.text && !IsKeyword(tk.text)
       case NumInt(x) => x == tk.text
       case NumFloat(x) => x == tk.text
       case Str(x) => x == tk.text
       case Symbol => tk.text == "++" || tk.text == "--"
       case _ => IsNamedSymbol(tk.kind) && Spelling(tk.kind) == tk.text
  }

  /**
   * A lexeme with no line break, classified by a token-producing rule, is a
   * well-formed token; keyword is its keyword code, if it is a keyword.
   */
  lemma {:induction false} LexemeWellFormed(rule: Rule, text: string, keyword: Option<nat>, line: nat)
    requires !Ignored(rule) && 0 < |text| && NoNewline(text, 0, |text|)
    requires keyword == Lookup(ReservedWords, text)
    requires rule == Punctuation ==> text in SymbolAlternatives
    ensures WellFormed(Token(KindOf(rule, text, keyword), text, line))
  {
    ClassifyKind(rule, text, keyword);
    if rule == Punctuation && SymbolKind(text) == Symbol {
      GenericSymbolIsIncDec(text);
    }
  }

  /** The lexeme the winning rule matched, classified, is a well-formed token. */
  lemma {:induction false} ClassifiedWellFormed(t: string, rule: Rule, n: nat, line: nat, tb: Tables)
    requires FirstMatch(t) == Some((rule, n)) && !Ignored(rule)
    ensures WellFormed(Token(Classify(rule, t[..n], tb).kind, t[..n], line))
  {
    var text := t[..n];
    assert 0 < |text| && NoNewline(text, 0, |text|) by {
      assert forall k :: 0 <= k < n ==> text[k] == t[k];
    }
    assert rule == Punctuation ==> text in SymbolAlternatives by {
      assert Match(rule, t) == Some(n);
    }
    LexemeWellFormed(rule, text, Lookup(ReservedWords, text), line);
  }

  /** The first n characters from pos on are the slice from pos to pos + n. */
  lemma {:induction false} PrefixOfSuffix(s: string, pos: nat, n: nat)
    requires pos + n <= |s|
    ensures s[pos..][..n] == s[pos..pos + n]
  {
  }

  /** Every token one iteration emits is well formed. */
  lemma {:induction false} EmittedWellFormed(s: string, pos: nat, line: nat, tb: Tables)
    requires pos < |s|
    ensures Possible(s, pos, FirstMatch(s[pos..]))
    ensures forall tk :: tk in Advance(s, pos, line, tb, FirstMatch(s[pos..])).emitted ==> WellFormed(tk)
  {
    FirstMatchPossible(s, pos);
    var m := FirstMatch(s[pos..]);
    var st := Advance(s, pos, line, tb, m);
    if m.None? {
      AdvanceUnmatched(s, pos, line, tb);
      assert st.emitted == [];
    } else {
      var rule, n := m.value.0, m.value.1;
      assert m == Some((rule, n));
      AdvanceMatched(s, pos, line, tb, rule, n);
      if Ignored(rule) {
        ConsumeIgnored(s, pos, line, tb, rule, n);
        assert st.emitted == [];
      } else {
        var text := s[pos..pos + n];
        var tk := Token(Classify(rule, text, tb).kind, text, line);
        assert st.emitted == [tk] by {
          ConsumeEmits(s, pos, line, tb, rule, n);
        }
        assert WellFormed(tk) by {
          PrefixOfSuffix(s, pos, n);
          ClassifiedWellFormed(s[pos..], rule, n, line, tb);
        }
      }
    }
  }

  /** Every token before the last is well formed. */
  predicate BeforeEofWellFormed(toks: seq<Token>) {
    forall i :: 0 <= i < |toks| - 1 ==> WellFormed(toks[i])
  }

  /** Every token of a run before the final EOF is well formed. */
  lemma {:induction false} ScanWellFormed(s: string, pos: nat, line: nat, tb: Tables)
    requires pos <= |s|
    ensures BeforeEofWellFormed(Scan(s, pos, line, tb).tokens)
    decreases |s| - pos
  {
    if pos < |s| {
      var st := ScanUnfold(s, pos, line, tb);
      EmittedWellFormed(s, pos, line, tb);
      ScanWellFormed(s, st.next, st.line, st.tables);
    }
  }

  /**
   * The token list ends with EOF, on the line after the last '\n' of the
   * input, and no other token is EOF; an identifier spelled EOF is tagged
   * "ID.EOF", so the tag "EOF" too appears only at the end.
   */
  lemma {:induction false} EofOnlyAtEnd(s: string, tb: Tables)
    ensures var toks := Scan(s, 0, 1, tb).tokens;
      && |toks| > 0 && toks[|toks| - 1] == Token(EOF, "EOF", 1 + Newlines(s))
      && forall i :: 0 <= i < |toks| - 1 ==> toks[i].kind != EOF && Tag(toks[i].kind) != "EOF"
  {
    ScanEndsWithEof(s, 0, 1, tb);
    ScanWellFormed(s, 0, 1, tb);
    assert s[0..] == s;
    var toks := Scan(s, 0, 1, tb).tokens;
    forall i | 0 <= i < |toks| - 1 ensures Tag(toks[i].kind) != "EOF" {
      assert WellFormed(toks[i]);
      TagIsEofOnlyForEof(toks[i].kind);
    }
  }

  /** Where, from pos on, the tokens of the run start. */
  ghost function TokenStarts(s: string, pos: nat, line: nat, tb: Tables): seq<nat>
    requires pos <= |s|
    decreases |s| - pos
  {
    if pos == |s| then []
    else
      FirstMatchPossible(s, pos);
      var st := Advance(s, pos, line, tb, FirstMatch(s[pos..]));
      (if st.emitted == [] then [] else [pos]) + TokenStarts(s, st.next, st.line, st.tables)
  }

  /**
   * Token tk is the text of s at p, and its line is the run's first line plus
   * the '\n's between the run's start pos and p.
   */
  predicate Located(s: string, pos: nat, line: nat, tk: Token, p: nat) {
    && pos <= p && p + |tk.text| <= |s| && s[p..p + |tk.text|] == tk.text
    && tk.line == line + Newlines(s[pos..p])
  }

  /** Each token but the last at its start in ps, the starts in order and the tokens not overlapping. */
  predicate AllLocated(s: string, pos: nat, line: nat, toks: seq<Token>, ps: seq<nat>) {
    && |ps| == |toks| - 1
    && (forall i :: 0 <= i < |ps| ==> Located(s, pos, line, toks[i], ps[i]))
    && (forall i :: 0 <= i < |ps| - 1 ==> ps[i] + |toks[i].text| <= ps[i + 1])
  }

  /** A token located from a later point of the run is located from its start. */
  lemma {:induction false} Relocate(s: string, pos: nat, mid: nat, line: nat, midLine: nat, tk: Token, p: nat)
    requires pos <= mid <= |s| && midLine == line + Newlines(s[pos..mid])
    requires Located(s, mid, midLine, tk, p)
    ensures Located(s, pos, line, tk, p)
  {
    NewlinesSplit(s, pos, mid, p);
  }

  /** Shifting the start of a run keeps all its tokens located. */
  lemma {:induction false} RelocateAll(s: string, pos: nat, mid: nat, line: nat, midLine: nat, toks: seq<Token>, ps: seq<nat>)
    requires pos <= mid <= |s| && midLine == line + Newlines(s[pos..mid])
    requires AllLocated(s, mid, midLine, toks, ps)
    ensures AllLocated(s, pos, line, toks, ps)
  {
    forall i | 0 <= i < |ps| ensures Located(s, pos, line, toks[i], ps[i]) {
      Relocate(s, pos, mid, line, midLine, toks[i], ps[i]);
    }
  }

  /** A token at pos put in front of located tokens that start at or after its end. */
  lemma {:induction false} LocatedCons(s: string, pos: nat, line: nat, tk: Token, toks: seq<Token>, ps: seq<nat>)
    requires Located(s, pos, line, tk, pos) && AllLocated(s, pos, line, toks, ps)
    requires |ps| > 0 ==> pos + |tk.text| <= ps[0]
    requires |toks| > 0
    ensures AllLocated(s, pos, line, [tk] + toks, [pos] + ps)
  {
    var toks', ps' := [tk] + toks, [pos] + ps;
    forall i | 0 <= i < |ps'| ensures Located(s, pos, line, toks'[i], ps'[i]) {
      if i > 0 { assert toks'[i] == toks[i - 1] && ps'[i] == ps[i - 1]; }
    }
    forall i | 0 <= i < |ps'| - 1 ensures ps'[i] + |toks'[i].text| <= ps'[i + 1] {
      if i > 0 { assert toks'[i] == toks[i - 1] && ps'[i] == ps[i - 1] && ps'[i + 1] == ps[i]; }
    }
  }

  /** One iteration's token, if any, in front of the located rest of the run. */
  lemma {:induction false} LocatedStep(s: string, pos: nat, line: nat, st: StepOut, toks: seq<Token>, ps: seq<nat>)
    requires pos < st.next <= |s| && st.line == line + Newlines(s[pos..st.next])
    requires |st.emitted| <= 1 && |toks| > 0
    requires |st.emitted| == 1 ==> st.emitted[0].line == line && st.emitted[0].text == s[pos..st.next]
    requires AllLocated(s, st.next, st.line, toks, ps)
    ensures AllLocated(s, pos, line, st.emitted + toks, (if st.emitted == [] then [] else [pos]) + ps)
  {
    RelocateAll(s, pos, st.next, line, st.line, toks, ps);
    if st.emitted == [] {
      assert st.emitted + toks == toks;
    } else {
      var tk := st.emitted[0];
      assert st.emitted == [tk];
      assert Located(s, pos, line, tk, pos);
      if |ps| > 0 {
        assert Located(s, st.next, st.line, toks[0], ps[0]);
      }
      LocatedCons(s, pos, line, tk, toks, ps);
    }
  }

  /**
   * Every token but EOF is the text of the input where it starts, on the line
   * the '\n's before that start give, and the tokens come in input order
   * without overlapping.
   */
  lemma {:induction false} ScanLocated(s: string, pos: nat, line: nat, tb: Tables)
    requires pos <= |s|
    ensures AllLocated(s, pos, line, Scan(s, pos, line, tb).tokens, TokenStarts(s, pos, line, tb))
    decreases |s| - pos
  {
    if pos == |s| {
      ScanAtEnd(s, line, tb);
    } else {
      var st := ScanUnfold(s, pos, line, tb);
      ScanLocated(s, st.next, st.line, st.tables);
      LocatedStep(s, pos, line, st, Scan(s, st.next, st.line, st.tables).tokens, TokenStarts(s, st.next, st.line, st.tables));
    }
  }

  /**
   * Over the whole input, each token but EOF is the input's text at its start
   * and its line is 1 plus the '\n's before that start.
   */
  lemma {:induction false} LineOfEachToken(s: string, tb: Tables)
    ensures var toks := Scan(s, 0, 1, tb).tokens;
      var ps := TokenStarts(s, 0, 1, tb);
      && |ps| == |toks| - 1
      && forall i :: 0 <= i < |ps| ==>
        && ps[i] + |toks[i].text| <= |s| && s[ps[i]..ps[i] + |toks[i].text|] == toks[i].text
        && toks[i].line == 1 + Newlines(s[..ps[i]])
  {
    ScanLocated(s, 0, 1, tb);
    var toks := Scan(s, 0, 1, tb).tokens;
    var ps := TokenStarts(s, 0, 1, tb);
    forall i | 0 <= i < |ps| ensures toks[i].line == 1 + Newlines(s[..ps[i]]) {
      assert Located(s, 0, 1, toks[i], ps[i]);
      assert s[0..ps[i]] == s[..ps[i]];
    }
  }

  /** Where, from pos on, the run meets a character no rule matches. */
  ghost function ErrorStarts(s: string, pos: nat, line: nat, tb: Tables): seq<nat>
    requires pos <= |s|
    decreases |s| - pos
  {
    if pos == |s| then []
    else
      FirstMatchPossible(s, pos);
      var st := Advance(s, pos, line, tb, FirstMatch(s[pos..]));
      (if st.errors == [] then [] else [pos]) + ErrorStarts(s, st.next, st.line, st.tables)
  }

  /** Error e is the character of s at p, where no rule matches, on its line counted from pos. */
  predicate Unmatched(s: string, pos: nat, line: nat, e: Unexpected, p: nat) {
    && pos <= p < |s| && s[p] == e.ch && FirstMatch(s[p..]).None?
    && e.line == line + Newlines(s[pos..p])
  }

  /** Each error at its position in ps, the positions strictly increasing. */
  predicate AllUnmatched(s: string, pos: nat, line: nat, errs: seq<Unexpected>, ps: seq<nat>) {
    && |ps| == |errs|
    && (forall i :: 0 <= i < |ps| ==> Unmatched(s, pos, line, errs[i], ps[i]))
    && (forall i :: 0 <= i < |ps| - 1 ==> ps[i] < ps[i + 1])
  }

  /** One iteration's error, if any, in front of the errors of the rest of the run. */
  lemma {:induction false} UnmatchedStep(s: string, pos: nat, line: nat, st: StepOut, errs: seq<Unexpected>, ps: seq<nat>)
    requires pos < st.next <= |s| && st.line == line + Newlines(s[pos..st.next])
    requires |st.errors| <= 1
    requires |st.errors| == 1 ==> st.errors[0] == Unexpected(s[pos], line) && FirstMatch(s[pos..]).None?
    requires AllUnmatched(s, st.next, st.line, errs, ps)
    ensures AllUnmatched(s, pos, line, st.errors + errs, (if st.errors == [] then [] else [pos]) + ps)
  {
    forall i | 0 <= i < |ps| ensures Unmatched(s, pos, line, errs[i], ps[i]) {
      NewlinesSplit(s, pos, st.next, ps[i]);
    }
    if st.errors == [] {
      assert st.errors + errs == errs;
    } else {
      var e := st.errors[0];
      assert st.errors == [e];
      var errs', ps' := [e] + errs, [pos] + ps;
      forall i | 0 <= i < |ps'| ensures Unmatched(s, pos, line, errs'[i], ps'[i]) {
        if i > 0 { assert errs'[i] == errs[i - 1] && ps'[i] == ps[i - 1]; }
      }
      forall i | 0 <= i < |ps'| - 1 ensures ps'[i] < ps'[i + 1] {
        if i > 0 { assert ps'[i] == ps[i - 1] && ps'[i + 1] == ps[i]; }
      }
    }
  }

  /** Every unexpected character is reported where no rule matches, with its line, in input order. */
  lemma {:induction false} ScanUnmatched(s: string, pos: nat, line: nat, tb: Tables)
    requires pos <= |s|
    ensures AllUnmatched(s, pos, line, Scan(s, pos, line, tb).errors, ErrorStarts(s, pos, line, tb))
    decreases |s| - pos
  {
    if pos == |s| {
      ScanAtEnd(s, line, tb);
    } else {
      var st := ScanUnfold(s, pos, line, tb);
      if FirstMatch(s[pos..]).None? {
        AdvanceUnmatched(s, pos, line, tb);
      }
      ScanUnmatched(s, st.next, st.line, st.tables);
      UnmatchedStep(s, pos, line, st, Scan(s, st.next, st.line, st.tables).errors, ErrorStarts(s, st.next, st.line, st.tables));
    }
  }

  /** The texts of the identifier tokens, in order. */
  function IdNames(toks: seq<Token>): (xs: seq<string>)
    ensures |xs| <= |toks|
    ensures forall x :: x in xs ==> exists tk :: tk in toks && tk.kind.Id? && tk.kind.lexeme == x
    decreases |toks|
  {
    if toks == [] then []
    else (if toks[0].kind.Id? then [toks[0].kind.lexeme] else []) + IdNames(toks[1..])
  }

  /** An identifier name comes from an identifier token at some index. */
  lemma {:induction false} IdNameIndex(toks: seq<Token>, x: string) returns (i: nat)
    requires x in IdNames(toks)
    ensures i < |toks| && toks[i].kind == Id(x)
  {
    var tk :| tk in toks && tk.kind.Id? && tk.kind.lexeme == x;
    i :| i < |toks| && toks[i] == tk;
  }

  /** The texts of the number and string tokens, in order. */
  function LiteralTexts(toks: seq<Token>): (xs: seq<string>)
    ensures |xs| <= |toks|
    ensures forall x :: x in xs ==> exists tk :: tk in toks && IsLiteral(tk.kind) && tk.kind.lexeme == x
    decreases |toks|
  {
    if toks == [] then []
    else (if IsLiteral(toks[0].kind) then [toks[0].kind.lexeme] else []) + LiteralTexts(toks[1..])
  }

  lemma {:induction false} IdNamesAppend(a: seq<Token>, b: seq<Token>)
    ensures IdNames(a + b) == IdNames(a) + IdNames(b)
    decreases |a|
  {
    if a == [] {
      assert a + b == b;
    } else {
      var ab := a + b;
      assert ab[0] == a[0] && ab[1..] == a[1..] + b;
      var h := if a[0].kind.Id? then [a[0].kind.lexeme] else [];
      assert IdNames(ab) == h + IdNames(a[1..] + b);
      IdNamesAppend(a[1..], b);
      assert h + (IdNames(a[1..]) + IdNames(b)) == (h + IdNames(a[1..])) + IdNames(b);
    }
  }

  lemma {:induction false} LiteralTextsAppend(a: seq<Token>, b: seq<Token>)
    ensures LiteralTexts(a + b) == LiteralTexts(a) + LiteralTexts(b)
    decreases |a|
  {
    if a == [] {
      assert a + b == b;
    } else {
      var ab := a + b;
      assert ab[0] == a[0] && ab[1..] == a[1..] + b;
      var h := if IsLiteral(a[0].kind) then [a[0].kind.lexeme] else [];
      assert LiteralTexts(ab) == h + LiteralTexts(a[1..] + b);
      LiteralTextsAppend(a[1..], b);
      assert h + (LiteralTexts(a[1..]) + LiteralTexts(b)) == (h + LiteralTexts(a[1..])) + LiteralTexts(b);
    }
  }

  /** A reserved table that already holds every keyword with its code. */
  ghost predicate HoldsKeywords(r: map<string, nat>) {
    forall w :: IsKeyword(w) ==> w in r && r[w] == Lookup(ReservedWords, w).value
  }

  /** The initial reserved table, a copy of the keyword table, holds every keyword. */
  lemma InitialHoldsKeywords()
    ensures HoldsKeywords(Initial.reserved)
  {
    forall w | IsKeyword(w) ensures w in Initial.reserved && Initial.reserved[w] == Lookup(ReservedWords, w).value {
      LookupToMap(ReservedWords, w);
    }
  }

  /** Writing a keyword's code back into a table that holds it changes nothing. */
  lemma {:induction false} KeywordWriteBack(r: map<string, nat>, w: string)
    requires HoldsKeywords(r) && IsKeyword(w)
    ensures r[w := Lookup(ReservedWords, w).value] == r
  {
    WriteBackSame(r, w, Lookup(ReservedWords, w).value);
  }

  /** The identifier name and literal text a single token contributes. */
  lemma {:induction false} OneTokenTexts(tk: Token)
    ensures IdNames([tk]) == if tk.kind.Id? then [tk.kind.lexeme] else []
    ensures LiteralTexts([tk]) == if IsLiteral(tk.kind) then [tk.kind.lexeme] else []
  {
    assert [tk][1..] == [];
  }

  /** The tables after classifying one lexeme: its identifier or literal, if it is one, interned. */
  lemma {:induction false} ClassifiedTables(rule: Rule, text: string, line: nat, tb: Tables)
    requires !Ignored(rule)
    ensures var c := Classify(rule, text, tb);
      var emitted := [Token(c.kind, text, line)];
      && c.tables.identifiers == InternAll(tb.identifiers, IdNames(emitted))
      && c.tables.literals == InternAll(tb.literals, LiteralTexts(emitted))
      && (HoldsKeywords(tb.reserved) ==> c.tables.reserved == tb.reserved)
  {
    var keyword := Lookup(ReservedWords, text);
    var tk := Token(KindOf(rule, text, keyword), text, line);
    assert IdNames([tk]) == (if rule == Identifier && keyword.None? then [text] else []) by {
      ClassifyKind(rule, text, keyword);
      OneTokenTexts(tk);
    }
    assert LiteralTexts([tk]) == (if LiteralRule(rule) then [text] else []) by {
      ClassifyKind(rule, text, keyword);
      OneTokenTexts(tk);
    }
    RecordedTables(rule, text, keyword, tb);
    var r := Recorded(rule, text, keyword, tb);
    assert Classify(rule, text, tb).tables == r;
    if HoldsKeywords(tb.reserved) {
      if rule == Identifier && keyword.Some? {
        assert r.reserved == tb.reserved[text := keyword.value];
        KeywordWriteBack(tb.reserved, text);
      } else {
        assert r.reserved == tb.reserved;
      }
    }
  }

  /**
   * out is what tb becomes when the identifiers and literals of toks are
   * recorded in order, and a reserved table that holds the keywords is left as it is.
   */
  ghost predicate TablesFollow(tb: Tables, toks: seq<Token>, out: Tables) {
    && out.identifiers == InternAll(tb.identifiers, IdNames(toks))
    && out.literals == InternAll(tb.literals, LiteralTexts(toks))
    && (HoldsKeywords(tb.reserved) ==> out.reserved == tb.reserved)
  }

  /** The tables after one iteration: its identifier or literal, if any, interned. */
  lemma {:induction false} StepTables(s: string, pos: nat, line: nat, tb: Tables)
    requires pos < |s|
    ensures Possible(s, pos, FirstMatch(s[pos..]))
    ensures var st := Advance(s, pos, line, tb, FirstMatch(s[pos..]));
      TablesFollow(tb, st.emitted, st.tables)
  {
    FirstMatchPossible(s, pos);
    var m := FirstMatch(s[pos..]);
    if m.Some? && !Ignored(m.value.0) {
      var (rule, n) := m.value;
      var text := s[pos..pos + n];
      AdvanceMatched(s, pos, line, tb, rule, n);
      ConsumeEmits(s, pos, line, tb, rule, n);
      ClassifiedTables(rule, text, line, tb);
    } else if m.Some? {
      AdvanceMatched(s, pos, line, tb, m.value.0, m.value.1);
      ConsumeIgnored(s, pos, line, tb, m.value.0, m.value.1);
    } else {
      AdvanceUnmatched(s, pos, line, tb);
    }
  }

  /** Recording two token lists one after the other is recording them joined. */
  lemma {:induction false} TablesFollowAppend(tb: Tables, a: seq<Token>, mid: Tables, b: seq<Token>, out: Tables)
    requires TablesFollow(tb, a, mid) && TablesFollow(mid, b, out)
    ensures TablesFollow(tb, a + b, out)
  {
    IdNamesAppend(a, b);
    LiteralTextsAppend(a, b);
    InternAllAppend(tb.identifiers, IdNames(a), IdNames(b));
    InternAllAppend(tb.literals, LiteralTexts(a), LiteralTexts(b));
  }

  /**
   * A run leaves the identifier table as its identifiers recorded in order
   * and the literal table as its number and string texts recorded in order;
   * a reserved table that holds the keywords is never changed.
   */
  lemma {:induction false} ScanTables(s: string, pos: nat, line: nat, tb: Tables)
    requires pos <= |s|
    ensures TablesFollow(tb, Scan(s, pos, line, tb).tokens, Scan(s, pos, line, tb).tables)
    decreases |s| - pos
  {
    if pos == |s| {
      ScanAtEnd(s, line, tb);
      OneTokenTexts(Token(EOF, "EOF", line));
    } else {
      var st := ScanUnfold(s, pos, line, tb);
      StepTables(s, pos, line, tb);
      var rest := Scan(s, st.next, st.line, st.tables);
      ScanTables(s, st.next, st.line, st.tables);
      TablesFollowAppend(tb, st.emitted, st.tables, rest.tokens, rest.tables);
    }
  }

  lemma {:induction false} FreshNumbered(m: Table, xs: seq<string>)
    requires m == InternAll(map[], xs)
    ensures Numbered(m)
  {
    InternAllNumbered(map[], xs);
  }

  /** Recording into empty tables numbers identifiers and literals in first-seen order. */
  lemma {:induction false} FreshTables(tb: Tables, toks: seq<Token>, out: Tables)
    requires TablesFollow(tb, toks, out) && tb.identifiers == map[] && tb.literals == map[]
    ensures NoDuplicates(FirstSeen([], IdNames(toks)))
    ensures out.identifiers == Numbering(FirstSeen([], IdNames(toks)))
    ensures NoDuplicates(FirstSeen([], LiteralTexts(toks)))
    ensures out.literals == Numbering(FirstSeen([], LiteralTexts(toks)))
    ensures Numbered(out.identifiers) && Numbered(out.literals)
  {
    FreshNumbering(IdNames(toks));
    FreshNumbering(LiteralTexts(toks));
    FreshNumbered(out.identifiers, IdNames(toks));
    FreshNumbered(out.literals, LiteralTexts(toks));
  }

  /** When the tokens before EOF are well formed, no identifier they name is a keyword. */
  lemma {:induction false} IdentifiersAreNotKeywords(toks: seq<Token>, x: string)
    requires |toks| > 0 && toks[|toks| - 1].kind == EOF && BeforeEofWellFormed(toks)
    requires x in IdNames(toks)
    ensures !IsKeyword(x)
  {
    var i := IdNameIndex(toks, x);
    assert i != |toks| - 1;
    WellFormedId(toks[i]);
  }

  /** A well-formed identifier token names its own text, which is no keyword. */
  lemma {:induction false} WellFormedId(tk: Token)
    requires WellFormed(tk) && tk.kind.Id?
    ensures tk.kind.lexeme == tk.text && !IsKeyword(tk.text)
  {
  }

  /** A table recorded from well-formed tokens alone holds no keyword. */
  lemma {:induction false} NoKeywordIdentifiers(toks: seq<Token>, ids: Table)
    requires |toks| > 0 && toks[|toks| - 1].kind == EOF && BeforeEofWellFormed(toks)
    requires ids == InternAll(map[], IdNames(toks))
    ensures forall x :: x in ids ==> !IsKeyword(x)
  {
    forall x | x in ids ensures !IsKeyword(x) {
      assert x in IdNames(toks);
      IdentifiersAreNotKeywords(toks, x);
    }
  }

  /** The table facts of a run from fresh tables, stated over any outcome the run could have. */
  lemma {:induction false} FreshOutcome(tb: Tables, o: Outcome)
    requires HoldsKeywords(tb.reserved) && tb.identifiers == map[] && tb.literals == map[]
    requires TablesFollow(tb, o.tokens, o.tables)
    requires |o.tokens| > 0 && o.tokens[|o.tokens| - 1].kind == EOF && BeforeEofWellFormed(o.tokens)
    ensures o.tables.reserved == tb.reserved
    ensures NoDuplicates(FirstSeen([], IdNames(o.tokens)))
    ensures o.tables.identifiers == Numbering(FirstSeen([], IdNames(o.tokens)))
    ensures NoDuplicates(FirstSeen([], LiteralTexts(o.tokens)))
    ensures o.tables.literals == Numbering(FirstSeen([], LiteralTexts(o.tokens)))
    ensures Numbered(o.tables.identifiers) && Numbered(o.tables.literals)
    ensures forall x :: x in o.tables.identifiers ==> !IsKeyword(x)
  {
    FreshTables(tb, o.tokens, o.tables);
    NoKeywordIdentifiers(o.tokens, o.tables.identifiers);
  }

  /**
   * A run from tables whose reserved table holds the keywords and whose other
   * two are empty: the reserved table is unchanged; identifiers are numbered
   * 1, 2, 3, ... in the order they first occur, literals likewise; no keyword
   * is ever in the identifier table.
   */
  lemma {:induction false} FreshRunFrom(s: string, tb: Tables)
    requires HoldsKeywords(tb.reserved) && tb.identifiers == map[] && tb.literals == map[]
    ensures var o := Scan(s, 0, 1, tb);
      && o.tables.reserved == tb.reserved
      && NoDuplicates(FirstSeen([], IdNames(o.tokens)))
      && o.tables.identifiers == Numbering(FirstSeen([], IdNames(o.tokens)))
      && NoDuplicates(FirstSeen([], LiteralTexts(o.tokens)))
      && o.tables.literals == Numbering(FirstSeen([], LiteralTexts(o.tokens)))
      && Numbered(o.tables.identifiers) && Numbered(o.tables.literals)
      && forall x :: x in o.tables.identifiers ==> !IsKeyword(x)
  {
    ScanTables(s, 0, 1, tb);
    ScanWellFormed(s, 0, 1, tb);
    ScanEndsWithEof(s, 0, 1, tb);
    FreshOutcome(tb, Scan(s, 0, 1, tb));
  }

  /** The same for a run from the initial tables, whose reserved table stays the keyword table. */
  lemma {:induction false} FreshRun(s: string)
    ensures var o := Scan(s, 0, 1, Initial);
      && o.tables.reserved == ToMap(ReservedWords)
      && o.tables.identifiers == Numbering(FirstSeen([], IdNames(o.tokens)))
      && o.tables.literals == Numbering(FirstSeen([], LiteralTexts(o.tokens)))
      && Numbered(o.tables.identifiers) && Numbered(o.tables.literals)
      && forall x :: x in o.tables.identifiers ==> !IsKeyword(x)
  {
    InitialHoldsKeywords();
    FreshRunFrom(s, Initial);
  }

  /**
   * A later run on the tables an earlier run left behind: a reserved table
   * equal to the keyword table stays so; the identifier and literal tables,
   * numbered 1..n without duplicates, grow by exactly this run's texts in
   * order and stay numbered 1..n; no keyword enters the identifier table.
   */
  lemma {:induction false} LaterRun(s: string, tb: Tables)
    requires HoldsKeywords(tb.reserved)
    requires Numbered(tb.identifiers) && Numbered(tb.literals)
    requires forall x :: x in tb.identifiers ==> !IsKeyword(x)
    ensures var o := Scan(s, 0, 1, tb);
      && o.tables.reserved == tb.reserved
      && o.tables.identifiers == InternAll(tb.identifiers, IdNames(o.tokens))
      && o.tables.literals == InternAll(tb.literals, LiteralTexts(o.tokens))
      && Numbered(o.tables.identifiers) && Numbered(o.tables.literals)
      && forall x :: x in o.tables.identifiers ==> !IsKeyword(x)
  {
    RunFacts(s, tb);
    LaterOutcome(tb, Scan(s, 0, 1, tb));
  }

  /** o is what a run from tb could give: tables that follow its tokens, well formed and ending with EOF. */
  ghost predicate RunShape(tb: Tables, o: Outcome) {
    && TablesFollow(tb, o.tokens, o.tables)
    && |o.tokens| > 0 && o.tokens[|o.tokens| - 1].kind == EOF && BeforeEofWellFormed(o.tokens)
  }

  /** Every run from the start has that shape. */
  lemma {:induction false} RunFacts(s: string, tb: Tables)
    ensures RunShape(tb, Scan(s, 0, 1, tb))
  {
    ScanTables(s, 0, 1, tb);
    ScanWellFormed(s, 0, 1, tb);
    ScanEndsWithEof(s, 0, 1, tb);
  }

  /** The table facts of a later run, stated over any outcome the run could have. */
  lemma {:induction false} LaterOutcome(tb: Tables, o: Outcome)
    requires HoldsKeywords(tb.reserved) && Numbered(tb.identifiers) && Numbered(tb.literals)
    requires forall x :: x in tb.identifiers ==> !IsKeyword(x)
    requires RunShape(tb, o)
    ensures o.tables.reserved == tb.reserved
    ensures o.tables.identifiers == InternAll(tb.identifiers, IdNames(o.tokens))
    ensures o.tables.literals == InternAll(tb.literals, LiteralTexts(o.tokens))
    ensures Numbered(o.tables.identifiers) && Numbered(o.tables.literals)
    ensures forall x :: x in o.tables.identifiers ==> !IsKeyword(x)
  {
    InternAllNumbered(tb.identifiers, IdNames(o.tokens));
    InternAllNumbered(tb.literals, LiteralTexts(o.tokens));
    KeywordFreeGrows(o.tokens, tb.identifiers, o.tables.identifiers);
  }

  /** Recording the identifiers of well-formed tokens into a table without keywords adds none. */
  lemma {:induction false} KeywordFreeGrows(toks: seq<Token>, m: Table, ids: Table)
    requires |toks| > 0 && toks[|toks| - 1].kind == EOF && BeforeEofWellFormed(toks)
    requires forall x :: x in m ==> !IsKeyword(x)
    requires ids == InternAll(m, IdNames(toks))
    ensures forall x :: x in ids ==> !IsKeyword(x)
  {
    forall x | x in ids ensures !IsKeyword(x) {
      if x !in m {
        assert x in IdNames(toks);
        IdentifiersAreNotKeywords(toks, x);
      }
    }
  }

  /**
   * Two runs in turn on the same tables, the first from the initial ones:
   * the identifiers and the literals are numbered in the order they first
   * occur across both runs, as if the two token lists were one.
   */
  lemma {:induction false} TwoRuns(s1: string, s2: string)
    ensures var o1 := Scan(s1, 0, 1, Initial);
      var o2 := Scan(s2, 0, 1, o1.tables);
      var ids, lits := IdNames(o1.tokens + o2.tokens), LiteralTexts(o1.tokens + o2.tokens);
      && o2.tables.reserved == ToMap(ReservedWords)
      && NoDuplicates(FirstSeen([], ids)) && o2.tables.identifiers == Numbering(FirstSeen([], ids))
      && NoDuplicates(FirstSeen([], lits)) && o2.tables.literals == Numbering(FirstSeen([], lits))
  {
    var o1 := Scan(s1, 0, 1, Initial);
    var o2 := Scan(s2, 0, 1, o1.tables);
    InitialHoldsKeywords();
    ScanTables(s1, 0, 1, Initial);
    ScanTables(s2, 0, 1, o1.tables);
    TablesFollowAppend(Initial, o1.tokens, o1.tables, o2.tokens, o2.tables);
    FreshTables(Initial, o1.tokens + o2.tokens, o2.tables);
  }

  /**
   * Where no rule matches, the run reports the character with its line,
   * emits nothing, leaves the tables as they are and goes on one character later.
   */
  lemma {:induction false} UnexpectedCharacterSkipped(s: string, pos: nat, line: nat, tb: Tables)
    requires pos < |s| && FirstMatch(s[pos..]).None?
    ensures Scan(s, pos, line, tb) == After([], [Unexpected(s[pos], line)], Scan(s, pos + 1, line, tb))
  {
    var st := ScanUnfold(s, pos, line, tb);
    AdvanceUnmatched(s, pos, line, tb);
  }

  /** An iteration where the symbol rule matched one character emits that symbol and changes no table. */
  lemma {:induction false} AdvanceOneSymbol(s: string, pos: nat, line: nat, tb: Tables)
    requires pos < |s| && Possible(s, pos, Some((Punctuation, 1)))
    ensures Advance(s, pos, line, tb, Some((Punctuation, 1))) ==
      StepOut([Token(SymbolKind(s[pos..pos + 1]), s[pos..pos + 1], line)], [], pos + 1, line, tb)
  {
    AdvanceMatched(s, pos, line, tb, Punctuation, 1);
    ConsumeEmits(s, pos, line, tb, Punctuation, 1);
    NoNewlineCountsNone(s[pos..pos + 1]);
  }

  /** Where the symbol rule wins with one character, the run emits that symbol, tables unchanged, and goes on after it. */
  lemma {:induction false} ScanEmitsOneSymbol(s: string, pos: nat, line: nat, tb: Tables)
    requires pos < |s| && FirstMatch(s[pos..]) == Some((Punctuation, 1))
    ensures Scan(s, pos, line, tb) ==
      After([Token(SymbolKind(s[pos..pos + 1]), s[pos..pos + 1], line)], [], Scan(s, pos + 1, line, tb))
  {
    FirstMatchPossible(s, pos);
    var tk := Token(SymbolKind(s[pos..pos + 1]), s[pos..pos + 1], line);
    assert Advance(s, pos, line, tb, FirstMatch(s[pos..])) == StepOut([tk], [], pos + 1, line, tb) by {
      AdvanceOneSymbol(s, pos, line, tb);
    }
    var st := ScanUnfold(s, pos, line, tb);
  }

  /** Two runs, each one token in front of the next, put both tokens in front. */
  lemma {:induction false} TwoInFront(o1: Outcome, o2: Outcome, o3: Outcome, tk1: Token, tk2: Token)
    requires o1 == After([tk1], [], o2) && o2 == After([tk2], [], o3) && |o3.tokens| > 0
    ensures |o1.tokens| >= 3 && o1.tokens[0] == tk1 && o1.tokens[1] == tk2
  {
  }

  /** The one-character slice at pos is that character. */
  lemma {:induction false} OneCharSlice(s: string, pos: nat)
    requires pos < |s|
    ensures s[pos..pos + 1] == [s[pos]]
  {
  }

  /** A star always lexes as the times symbol, on the current line, tables unchanged. */
  lemma {:induction false} ScanStar(s: string, pos: nat, line: nat, tb: Tables)
    requires pos < |s| && s[pos] == '*'
    ensures Scan(s, pos, line, tb) == After([Token(Times, "*", line)], [], Scan(s, pos + 1, line, tb))
  {
    assert FirstMatch(s[pos..]) == Some((Punctuation, 1)) by {
      assert s[pos..][0] == '*';
      StarIsTimes(s[pos..]);
    }
    assert s[pos..pos + 1] == "*" by {
      OneCharSlice(s, pos);
    }
    assert SymbolKind(s[pos..pos + 1]) == Times by {
      SlashAndStarNamed();
    }
    ScanEmitsOneSymbol(s, pos, line, tb);
  }

  /** A slash and star that no comment end follows: the slash lexes as the divide symbol. */
  lemma {:induction false} ScanUnclosedSlash(s: string, pos: nat, line: nat, tb: Tables)
    requires pos + 1 < |s| && s[pos] == '/' && s[pos + 1] == '*' && MatchBlockComment(s[pos..]).None?
    ensures Scan(s, pos, line, tb) == After([Token(Divide, "/", line)], [], Scan(s, pos + 1, line, tb))
  {
    assert FirstMatch(s[pos..]) == Some((Punctuation, 1)) by {
      assert s[pos..][0] == '/' && s[pos..][1] == '*';
      UnclosedCommentIsDivide(s[pos..]);
    }
    assert s[pos..pos + 1] == "/" by {
      OneCharSlice(s, pos);
    }
    assert SymbolKind(s[pos..pos + 1]) == Divide by {
      SlashAndStarNamed();
    }
    ScanEmitsOneSymbol(s, pos, line, tb);
  }

  /**
   * A slash and star that no comment end follows open no comment: the run emits the divide
   * symbol "/" and then the times symbol "*", both on the current line.
   */
  lemma {:induction false} UnclosedCommentTokens(s: string, pos: nat, line: nat, tb: Tables)
    requires pos + 1 < |s| && s[pos] == '/' && s[pos + 1] == '*' && MatchBlockComment(s[pos..]).None?
    ensures var toks := Scan(s, pos, line, tb).tokens;
      |toks| >= 3 && toks[0] == Token(Divide, "/", line) && toks[1] == Token(Times, "*", line)
  {
    ScanUnclosedSlash(s, pos, line, tb);
    ScanStar(s, pos + 1, line, tb);
    ScanEndsWithEof(s, pos + 2, line, tb);
    TwoInFront(Scan(s, pos, line, tb), Scan(s, pos + 1, line, tb), Scan(s, pos + 2, line, tb),
      Token(Divide, "/", line), Token(Times, "*", line));
  }

  /** An empty input gives the EOF token alone, on line 1, no error and the tables as they were. */
  lemma {:induction false} EmptyInput(tb: Tables)
    ensures Scan("", 0, 1, tb) == Outcome([Token(EOF, "EOF", 1)], [], tb)
  {
    ScanAtEnd("", 1, tb);
  }
}
