/**
 * How the order of the rules decides what the lexer sees: the first rule
 * that matches wins, whatever later rules would match.
 */
module RuleOrder {
  import opened Wrappers
  import opened Patterns

  /** The first success is at k exactly when attempt k succeeds and none before it does. */
  lemma {:induction false} FirstSuccessIs(rs: seq<Option<nat>>, k: nat, n: nat)
    requires k < |rs|
    ensures FirstSuccess(rs, 0) == Some((k, n)) <==>
      rs[k] == Some(n) && forall j :: 0 <= j < k ==> rs[j].None?
  {
  }

  /** The k-th rule wins with length n exactly when it matches n and no earlier rule matches. */
  lemma {:induction false} FirstMatchIs(t: string, k: nat, n: nat)
    requires k < |Rules|
    ensures FirstMatch(t) == Some((Rules[k], n)) <==>
      Match(Rules[k], t) == Some(n) && forall j :: 0 <= j < k ==> Match(Rules[j], t).None?
  {
    var f := FirstSuccess(Attempts(t), 0);
    FirstSuccessIs(Attempts(t), k, n);
    if FirstMatch(t) == Some((Rules[k], n)) {
      assert f.Some? && Rules[f.value.0] == Rules[k] && f.value.1 == n;
      RulesDistinct(f.value.0, k);
    }
  }

  /** Distinct positions in the rule list hold distinct rules. */
  lemma {:induction false} RulesDistinct(i: nat, k: nat)
    requires i < |Rules| && k < |Rules| && Rules[i] == Rules[k]
    ensures i == k
  {
  }

  /** A text starting with a digit is not blank space or a comment. */
  lemma {:induction false} DigitStartsNoIgnored(t: string)
    requires |t| > 0 && IsDigit(t[0])
    ensures Match(Blank, t).None? && Match(BlockComment, t).None? && Match(LineComment, t).None?
  {
  }

  /**
   * The float rule is tried before the integer rule: digits followed by a dot
   * lex as one float, never as an integer and a dot, so "3." is a float.
   */
  lemma {:induction false} FloatBeforeInt(t: string, j: nat)
    requires 0 < j < |t| && Digits(t, 0, j) && t[j] == '.'
    ensures FirstMatch(t).Some? && FirstMatch(t).value.0 == FloatNumber
    ensures var n := FirstMatch(t).value.1;
      j < n && Digits(t, j + 1, n) && (n < |t| ==> !IsDigit(t[n]))
  {
    var n := RunEnd(t, j + 1, IsDigit);
    assert Match(Rules[3], t) == Some(n) by {
      assert RunEnd(t, 0, IsDigit) == j;
    }
    assert forall i :: 0 <= i < 3 ==> Match(Rules[i], t).None? by {
      DigitStartsNoIgnored(t);
    }
    assert FirstMatch(t) == Some((FloatNumber, n)) by {
      FirstMatchIs(t, 3, n);
    }
  }

  /** Digits not followed by a dot lex as one integer: the whole digit run. */
  lemma {:induction false} IntWithoutDot(t: string, j: nat)
    requires 0 < j <= |t| && Digits(t, 0, j) && (j == |t| || (!IsDigit(t[j]) && t[j] != '.'))
    ensures FirstMatch(t) == Some((IntNumber, j))
  {
    assert Match(Rules[4], t) == Some(j) by {
      assert RunEnd(t, 0, IsDigit) == j;
    }
    assert forall i :: 0 <= i < 4 ==> Match(Rules[i], t).None? by {
      DigitStartsNoIgnored(t);
      assert MatchFloat(t).None?;
    }
    FirstMatchIs(t, 4, j);
  }

  /** A letter or underscore starts an identifier (a keyword is an identifier here too). */
  lemma {:induction false} IdentifierWins(t: string)
    requires |t| > 0 && IsIdStart(t[0])
    ensures FirstMatch(t).Some? && FirstMatch(t).value.0 == Identifier
    ensures FirstMatch(t) == Some((Identifier, MatchIdent(t).value))
  {
    LetterStartsNoEarlierRule(t);
    FirstMatchIs(t, 6, MatchIdent(t).value);
  }

  /** A text starting with a letter or underscore matches none of the rules before the identifier rule. */
  lemma {:induction false} LetterStartsNoEarlierRule(t: string)
    requires |t| > 0 && IsIdStart(t[0])
    ensures forall j :: 0 <= j < 6 ==> Match(Rules[j], t).None?
  {
    assert MatchFloat(t).None? && MatchInt(t).None? && MatchString(t).None?;
  }

  /** "//" starts a line comment, reaching up to the end of its line. */
  lemma {:induction false} LineCommentWins(t: string)
    requires |t| >= 2 && t[0] == '/' && t[1] == '/'
    ensures FirstMatch(t) == Some((LineComment, MatchLineComment(t).value))
  {
    var n := MatchLineComment(t).value;
    assert Match(Rules[2], t) == Some(n);
    assert forall i :: 0 <= i < 2 ==> Match(Rules[i], t).None?;
    FirstMatchIs(t, 2, n);
  }

  /** A single-line block comment is skipped as a whole. */
  lemma {:induction false} BlockCommentWins(t: string)
    requires MatchBlockComment(t).Some?
    ensures FirstMatch(t) == Some((BlockComment, MatchBlockComment(t).value))
  {
    FirstMatchIs(t, 1, MatchBlockComment(t).value);
  }

  /**
   * A "/*" with no "*/" later on its line is not a comment: the slash lexes
   * as the division symbol, one character long.
   */
  lemma {:induction false} UnclosedCommentIsDivide(t: string)
    requires |t| >= 2 && t[0] == '/' && t[1] == '*' && MatchBlockComment(t).None?
    ensures FirstMatch(t) == Some((Punctuation, 1))
  {
    SlashIsDivide(t);
    FirstMatchIs(t, 7, 1);
  }

  /** Alternatives i..k-1 that are not prefixes of t are passed over. */
  lemma {:induction false} SkipAlternatives(t: string, alts: seq<string>, i: nat, k: nat)
    requires i <= k <= |alts|
    requires forall j :: i <= j < k ==> !(alts[j] <= t)
    ensures FirstAlternative(t, alts, i) == FirstAlternative(t, alts, k)
    decreases k - i
  {
    if i < k {
      SkipAlternatives(t, alts, i + 1, k);
    }
  }

  /** A text starting with a slash matches the one-character symbol "/": no alternative before it starts with a slash. */
  lemma {:induction false} SlashIsDivide(t: string)
    requires |t| > 0 && t[0] == '/'
    ensures MatchSymbol(t) == Some(1)
  {
    var alts := SymbolAlternatives;
    assert alts[..6] == ["++", "--", "+", "-", "*", "/"];
    assert forall j :: 0 <= j < 5 ==> alts[j][0] != '/';
    SkipAlternatives(t, alts, 0, 5);
    assert alts[5] == [t[0]];
    assert alts[5] <= t;
  }

  /** A text starting with a star lexes as the one symbol "*": no two-character operator starts with it. */
  lemma {:induction false} StarIsTimes(t: string)
    requires |t| > 0 && t[0] == '*'
    ensures FirstMatch(t) == Some((Punctuation, 1))
  {
    var alts := SymbolAlternatives;
    assert alts[..5] == ["++", "--", "+", "-", "*"];
    assert forall j :: 0 <= j < 4 ==> alts[j][0] != '*';
    SkipAlternatives(t, alts, 0, 4);
    assert alts[4] == [t[0]];
    assert alts[4] <= t;
    SymbolWins(t);
  }

  /** Each two-character alternative comes before the one-character alternative it starts with, if any. */
  lemma {:induction false} PairsComeFirst(a: nat, b: nat)
    requires a < |SymbolAlternatives| && b < |SymbolAlternatives|
    requires |SymbolAlternatives[a]| == 1 && |SymbolAlternatives[b]| == 2
    requires SymbolAlternatives[b][0] == SymbolAlternatives[a][0]
    ensures b < a
  {
  }

  /**
   * The two-character operators are preferred: when the next two characters
   * spell one of them, the symbol rule matches both, never just the first.
   */
  lemma {:induction false} TwoCharPreferred(t: string)
    requires |t| >= 2 && t[..2] in SymbolAlternatives
    ensures MatchSymbol(t) == Some(2)
  {
    var alts := SymbolAlternatives;
    var b :| 0 <= b < |alts| && alts[b] == t[..2];
    var f := FirstAlternative(t, alts, 0);
    AlternativesShape();
    assert f.Some?;
    var a := f.value;
    if |alts[a]| == 1 {
      assert alts[a][0] == t[0] == alts[b][0];
      PairsComeFirst(a, b);
    }
  }

  /** The symbol rule takes the longest alternative that starts t. */
  lemma {:induction false} SymbolIsLongest(t: string, i: nat)
    requires i < |SymbolAlternatives| && SymbolAlternatives[i] <= t
    ensures MatchSymbol(t).Some? && |SymbolAlternatives[i]| <= MatchSymbol(t).value
  {
    AlternativesShape();
    if |SymbolAlternatives[i]| == 2 {
      assert t[..2] == SymbolAlternatives[i];
      TwoCharPreferred(t);
    }
  }

  /** The characters a symbol can start with. */
  const SymbolStarts: string := "+-*/<>=!&|;,(){}[]"

  /** Every alternative of the symbol pattern starts with one of SymbolStarts. */
  lemma SymbolStartsCover()
    ensures forall i :: 0 <= i < |SymbolAlternatives| ==> SymbolAlternatives[i][0] in SymbolStarts
  {
  }

  /** The symbol rule matches nothing unless t starts with one of SymbolStarts. */
  lemma {:induction false} SymbolNeedsStart(t: string)
    requires MatchSymbol(t).Some?
    ensures |t| > 0 && t[0] in SymbolStarts
  {
    var i :| 0 <= i < |SymbolAlternatives| && SymbolAlternatives[i] <= t;
    AlternativesShape();
    SymbolStartsCover();
    assert t[0] == SymbolAlternatives[i][0];
  }

  /** What starting some token means; FirstMatch fails exactly where this does not hold. */
  predicate StartsToken(t: string)
    requires |t| > 0
  {
    IsBlank(t[0]) || IsDigit(t[0]) || IsIdStart(t[0]) || MatchString(t).Some? || MatchSymbol(t).Some?
  }

  lemma {:induction false} RulesFailWithoutStart(t: string)
    requires |t| > 0 && !StartsToken(t)
    ensures forall j :: 0 <= j < |Rules| ==> Match(Rules[j], t).None?
  {
    if t[0] == '/' {
      SlashIsDivide(t);
    }
    assert MatchBlank(t).None? && MatchBlockComment(t).None? && MatchLineComment(t).None?;
    assert MatchFloat(t).None? && MatchInt(t).None? && MatchIdent(t).None?;
  }

  lemma {:induction false} StartWhenRulesFail(t: string)
    requires |t| > 0 && forall j :: 0 <= j < |Rules| ==> Match(Rules[j], t).None?
    ensures !StartsToken(t)
  {
    assert Match(Rules[0], t).None? && Match(Rules[4], t).None? && Match(Rules[5], t).None?;
    assert Match(Rules[6], t).None? && Match(Rules[7], t).None?;
  }

  /**
   * No rule matches at the start of a non-empty t exactly when it starts with
   * no blank, digit, letter or underscore, no closed string and no symbol.
   */
  lemma {:induction false} NoRuleMatches(t: string)
    requires |t| > 0
    ensures FirstMatch(t).None? <==> !StartsToken(t)
  {
    if StartsToken(t) {
      if FirstMatch(t).None? {
        StartWhenRulesFail(t);
      }
    } else {
      RulesFailWithoutStart(t);
    }
  }

  /** Neither a blank, a digit, a letter, a closed string nor a symbol character: nothing matches. */
  lemma {:induction false} NothingStartsHere(t: string)
    requires |t| > 0 && !IsBlank(t[0]) && !IsDigit(t[0]) && !IsIdStart(t[0]) && t[0] !in SymbolStarts
    requires MatchString(t).None?
    ensures FirstMatch(t).None?
  {
    if MatchSymbol(t).Some? {
      SymbolNeedsStart(t);
    }
    NoRuleMatches(t);
  }

  /** A character that starts no token, such as '#', '@', '$' or a carriage return, is unexpected. */
  lemma {:induction false} StrayCharacter(t: string)
    requires |t| > 0 && !IsBlank(t[0]) && !IsDigit(t[0]) && !IsIdStart(t[0]) && t[0] != '"' && t[0] !in SymbolStarts
    ensures FirstMatch(t).None?
  {
    NothingStartsHere(t);
  }

  /** A quote with no closing quote later on its line is unexpected: the string rule needs both. */
  lemma {:induction false} UnclosedQuote(t: string)
    requires |t| > 0 && t[0] == '"' && MatchString(t).None?
    ensures FirstMatch(t).None?
  {
    NothingStartsHere(t);
  }

  /** The only alternatives starting with '&' or '|' are the doubled "&&" and "||". */
  lemma {:induction false} AmpersandAndBarDoubled(i: nat)
    requires i < |SymbolAlternatives| && |SymbolAlternatives[i]| > 0
    requires SymbolAlternatives[i][0] == '&' || SymbolAlternatives[i][0] == '|'
    ensures |SymbolAlternatives[i]| == 2 && SymbolAlternatives[i][1] == SymbolAlternatives[i][0]
  {
  }

  /** A single '&' or '|' is unexpected: only the doubled forms are symbols. */
  lemma {:induction false} LoneAmpersandOrBar(t: string)
    requires |t| > 0 && (t[0] == '&' || t[0] == '|') && (|t| == 1 || t[1] != t[0])
    ensures FirstMatch(t).None?
  {
    if MatchSymbol(t).Some? {
      var i :| 0 <= i < |SymbolAlternatives| && SymbolAlternatives[i] <= t;
      var a := SymbolAlternatives[i];
      AlternativesShape();
      assert a[0] == t[0];
      AmpersandAndBarDoubled(i);
    }
    NoRuleMatches(t);
  }

  /** Where a symbol character other than '/' starts t, only the symbol rule can match. */
  lemma {:induction false} SymbolWins(t: string)
    requires |t| > 0 && t[0] in SymbolStarts && t[0] != '/'
    ensures MatchSymbol(t).Some? ==> FirstMatch(t) == Some((Punctuation, MatchSymbol(t).value))
  {
    SymbolStartIsNoOtherStart(t[0]);
    if MatchSymbol(t).Some? {
      OnlySymbolRuleLeft(t);
      FirstMatchIs(t, 7, MatchSymbol(t).value);
    }
  }

  /** A symbol character is not blank, a digit, a letter, an underscore or a quote. */
  lemma {:induction false} SymbolStartIsNoOtherStart(c: char)
    requires c in SymbolStarts
    ensures !IsBlank(c) && !IsDigit(c) && !IsIdStart(c) && c != '"'
  {
  }

  /** Text starting with none of the earlier rules' first characters leaves only the symbol rule. */
  lemma {:induction false} OnlySymbolRuleLeft(t: string)
    requires |t| > 0 && !IsBlank(t[0]) && !IsDigit(t[0]) && !IsIdStart(t[0]) && t[0] != '"' && t[0] != '/'
    ensures forall j :: 0 <= j < 7 ==> Match(Rules[j], t).None?
  {
    assert MatchBlank(t).None? && MatchFloat(t).None? && MatchInt(t).None?;
    assert MatchString(t).None? && MatchIdent(t).None?;
  }

  /** "++" and "--" lex as one two-character symbol each, not as two signs. */
  lemma {:induction false} IncrementAndDecrementAreOneSymbol(t: string)
    requires |t| >= 2 && (t[..2] == "++" || t[..2] == "--")
    ensures FirstMatch(t) == Some((Punctuation, 2))
  {
    assert t[..2] == SymbolAlternatives[0] || t[..2] == SymbolAlternatives[1];
    TwoCharPreferred(t);
    assert t[0] == t[..2][0];
    SymbolWins(t);
  }
}
