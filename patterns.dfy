/**
 * The eight token patterns of the lexer, each written out by hand as an
 * anchored matcher over the text that starts at the scan position.  A matcher
 * returns the length of the text its regular expression would match there,
 * or None.  The semantics follow Python's `re` module without flags: `.`
 * matches every character except '\n', `*` and `+` are greedy, `*?` is lazy,
 * and an alternation takes its first matching alternative.
 */
module Patterns {
  import opened Wrappers

  predicate IsDigit(c: char) { '0' <= c <= '9' }
  predicate IsIdStart(c: char) { 'a' <= c <= 'z' || 'A' <= c <= 'Z' || c == '_' }
  predicate IsIdChar(c: char) { IsIdStart(c) || IsDigit(c) }
  predicate IsBlank(c: char) { c == ' ' || c == '\t' || c == '\n' }
  /** What `.` matches without the DOTALL flag. */
  predicate IsNotNewline(c: char) { c != '\n' }

  /** No '\n' among t[a..b]. */
  predicate NoNewline(t: string, a: nat, b: nat)
    requires a <= b <= |t|
  {
    forall k :: a <= k < b ==> t[k] != '\n'
  }

  /** Every character of t[a..b] is an ASCII digit. */
  predicate Digits(t: string, a: nat, b: nat)
    requires a <= b <= |t|
  {
    forall k :: a <= k < b ==> IsDigit(t[k])
  }

  /** The delimiter d occurs in t at position j. */
  predicate DelimAt(t: string, j: nat, d: string) {
    j + |d| <= |t| && t[j..j + |d|] == d
  }

  /** A one-character delimiter occurs at j exactly when t[j] is that character. */
  lemma {:induction false} DelimAtChar(t: string, j: nat, c: char)
    ensures DelimAt(t, j, [c]) <==> j < |t| && t[j] == c
  {
    if j < |t| {
      assert t[j..j + 1] == [t[j]];
    }
  }

  /** End of the longest run, from i, of characters satisfying P: a greedy `P*`. */
  function RunEnd(t: string, i: nat, P: char -> bool): (j: nat)
    requires i <= |t|
    ensures i <= j <= |t|
    ensures forall k :: i <= k < j ==> P(t[k])
    ensures j < |t| ==> !P(t[j])
    decreases |t| - i
  {
    if i < |t| && P(t[i]) then RunEnd(t, i + 1, P) else i
  }

  /**
   * A lazy `.*?` from i followed by the delimiter d: the end of the FIRST
   * occurrence of d at or after i, provided no '\n' comes before it.
   */
  function LazyUntil(t: string, i: nat, d: string): (r: Option<nat>)
    requires i <= |t| && |d| > 0 && '\n' !in d
    ensures r.Some? ==>
      && i + |d| <= r.value <= |t|
      && DelimAt(t, r.value - |d|, d)
      && NoNewline(t, i, r.value - |d|)
      && forall j :: i <= j < r.value - |d| ==> !DelimAt(t, j, d)
    ensures r.None? ==>
      forall j :: i <= j && DelimAt(t, j, d) ==> exists k :: i <= k < j && t[k] == '\n'
    decreases |t| - i
  {
    if DelimAt(t, i, d) then Some(i + |d|)
    else if i == |t| || t[i] == '\n' then None
    else LazyUntil(t, i + 1, d)
  }

  // ---------------------------------------------------------------------
  // The eight patterns, in the order the lexer tries them.
  // ---------------------------------------------------------------------

  /** `[ \t\n]+` */
  function MatchBlank(t: string): (r: Option<nat>)
    ensures r.Some? <==> |t| > 0 && IsBlank(t[0])
    ensures r.Some? ==> 0 < r.value <= |t| && (forall k :: 0 <= k < r.value ==> IsBlank(t[k]))
    ensures r.Some? && r.value < |t| ==> !IsBlank(t[r.value])
  {
    if |t| > 0 && IsBlank(t[0]) then Some(RunEnd(t, 1, IsBlank)) else None
  }

  // The pattern slash, star, lazy `.*?`, star, slash: a comment closed on the
  // line where it opens.
  function MatchBlockComment(t: string): (r: Option<nat>)
    ensures r.Some? ==>
      && 4 <= r.value <= |t| && t[..2] == "/*" && t[r.value - 2..r.value] == "*/"
      && NoNewline(t, 0, r.value)
      && forall j :: 2 <= j < r.value - 2 ==> !DelimAt(t, j, "*/")
    ensures r.None? && 2 <= |t| && t[..2] == "/*" ==>
      forall j :: 2 <= j && DelimAt(t, j, "*/") ==> exists k :: 2 <= k < j && t[k] == '\n'
  {
    if |t| >= 2 && t[0] == '/' && t[1] == '*' then LazyUntil(t, 2, "*/") else None
  }

  /** `//.*`: up to, not including, the next '\n'. */
  function MatchLineComment(t: string): (r: Option<nat>)
    ensures r.Some? <==> 2 <= |t| && t[..2] == "//"
    ensures r.Some? ==> 2 <= r.value <= |t| && NoNewline(t, 0, r.value)
    ensures r.Some? && r.value < |t| ==> t[r.value] == '\n'
  {
    if |t| >= 2 && t[0] == '/' && t[1] == '/' then Some(RunEnd(t, 2, IsNotNewline)) else None
  }

  /** `\d+\.\d*`: a digit run, a dot, and the digits after it (possibly none). */
  function MatchFloat(t: string): (r: Option<nat>)
    ensures r.Some? <==> exists j :: 0 < j < |t| && Digits(t, 0, j) && t[j] == '.'
    ensures r.Some? ==>
      exists j :: 0 < j < r.value <= |t| && Digits(t, 0, j) && t[j] == '.' && Digits(t, j + 1, r.value)
    ensures r.Some? && r.value < |t| ==> !IsDigit(t[r.value])
    ensures r.Some? ==> NoNewline(t, 0, r.value)
  {
    var j := RunEnd(t, 0, IsDigit);
    if 0 < j < |t| && t[j] == '.' then
      Some(RunEnd(t, j + 1, IsDigit))
    else
      assert forall j' :: 0 < j' < |t| && Digits(t, 0, j') && t[j'] == '.' ==> j' == j;
      None
  }

  /** `\d+` */
  function MatchInt(t: string): (r: Option<nat>)
    ensures r.Some? <==> |t| > 0 && IsDigit(t[0])
    ensures r.Some? ==> 0 < r.value <= |t| && Digits(t, 0, r.value)
    ensures r.Some? && r.value < |t| ==> !IsDigit(t[r.value])
    ensures r.Some? ==> NoNewline(t, 0, r.value)
  {
    var j := RunEnd(t, 0, IsDigit);
    if j > 0 then Some(j) else None
  }

  /** `\".*?\"`: a string closed on its own line; a backslash is an ordinary character. */
  function MatchString(t: string): (r: Option<nat>)
    ensures r.Some? ==>
      && 2 <= r.value <= |t| && t[0] == '"' && t[r.value - 1] == '"'
      && NoNewline(t, 0, r.value)
      && forall j :: 1 <= j < r.value - 1 ==> t[j] != '"'
    ensures r.None? && 1 <= |t| && t[0] == '"' ==>
      forall j :: 1 <= j < |t| && t[j] == '"' ==> exists k :: 1 <= k < j && t[k] == '\n'
  {
    if |t| >= 1 && t[0] == '"' then
      var r := LazyUntil(t, 1, "\"");
      QuotedUntil(t, r);
      r
    else None
  }

  /** The lazy match of the closing quote, stated over characters. */
  lemma {:induction false} QuotedUntil(t: string, r: Option<nat>)
    requires |t| >= 1 && t[0] == '"' && r == LazyUntil(t, 1, "\"")
    ensures r.Some? ==>
      && 2 <= r.value <= |t| && t[0] == '"' && t[r.value - 1] == '"'
      && NoNewline(t, 0, r.value)
      && forall j :: 1 <= j < r.value - 1 ==> t[j] != '"'
    ensures r.None? ==>
      forall j :: 1 <= j < |t| && t[j] == '"' ==> exists k :: 1 <= k < j && t[k] == '\n'
  {
    if r.Some? {
      DelimAtChar(t, r.value - 1, '"');
      forall j | 1 <= j < r.value - 1 ensures t[j] != '"' {
        DelimAtChar(t, j, '"');
      }
    } else {
      forall j | 1 <= j < |t| && t[j] == '"' ensures exists k :: 1 <= k < j && t[k] == '\n' {
        DelimAtChar(t, j, '"');
      }
    }
  }

  /** `[a-zA-Z_][a-zA-Z0-9_]*` */
  function MatchIdent(t: string): (r: Option<nat>)
    ensures r.Some? <==> |t| > 0 && IsIdStart(t[0])
    ensures r.Some? ==> 0 < r.value <= |t| && forall k :: 0 <= k < r.value ==> IsIdChar(t[k])
    ensures r.Some? && r.value < |t| ==> !IsIdChar(t[r.value])
    ensures r.Some? ==> NoNewline(t, 0, r.value)
  {
    if |t| > 0 && IsIdStart(t[0]) then Some(RunEnd(t, 1, IsIdChar)) else None
  }

  /** The alternatives of the symbol pattern, in the order they are written. */
  const SymbolAlternatives: seq<string> :=
    ["++", "--", "+", "-", "*", "/", "<=", ">=", "==", "!=", "<", ">",
     "&&", "||", "!", "=", ";", ",", "(", ")", "{", "}", "[", "]"]

  /** Index of the first alternative, from i on, that is a prefix of t. */
  function FirstAlternative(t: string, alts: seq<string>, i: nat): (r: Option<nat>)
    requires i <= |alts|
    ensures r.Some? ==> i <= r.value < |alts| && alts[r.value] <= t
    ensures r.Some? ==> forall j :: i <= j < r.value ==> !(alts[j] <= t)
    ensures r.None? ==> forall j :: i <= j < |alts| ==> !(alts[j] <= t)
    decreases |alts| - i
  {
    if i == |alts| then None
    else if alts[i] <= t then Some(i)
    else FirstAlternative(t, alts, i + 1)
  }

  /** Every alternative is one or two characters long, none of them '\n'. */
  lemma AlternativesShape()
    ensures forall i :: 0 <= i < |SymbolAlternatives| ==>
      1 <= |SymbolAlternatives[i]| <= 2 && '\n' !in SymbolAlternatives[i]
  {
  }

  /** The operator and punctuation pattern: the text of its first matching alternative. */
  function MatchSymbol(t: string): (r: Option<nat>)
    ensures r.Some? <==> exists i :: 0 <= i < |SymbolAlternatives| && SymbolAlternatives[i] <= t
    ensures r.Some? ==> 0 < r.value <= 2 && r.value <= |t| && t[..r.value] in SymbolAlternatives
    ensures r.Some? ==> NoNewline(t, 0, r.value)
  {
    match FirstAlternative(t, SymbolAlternatives, 0)
    case Some(i) =>
      var a := SymbolAlternatives[i];
      AlternativesShape();
      assert t[..|a|] == a;
      assert forall k :: 0 <= k < |a| ==> t[k] == a[k];
      Some(|a|)
    case None => None
  }

  // ---------------------------------------------------------------------
  // The ordered rule list.
  // ---------------------------------------------------------------------

  datatype Rule = Blank | BlockComment | LineComment | FloatNumber | IntNumber | QuotedString | Identifier | Punctuation

  /** The rules in the order they are tried: the first one that matches wins. */
  const Rules: seq<Rule> :=
    [Blank, BlockComment, LineComment, FloatNumber, IntNumber, QuotedString, Identifier, Punctuation]

  /** The rules whose matches produce no token. */
  predicate Ignored(rule: Rule) {
    rule == Blank || rule == BlockComment || rule == LineComment
  }

  function Match(rule: Rule, t: string): (r: Option<nat>)
    ensures r.Some? ==> 0 < r.value <= |t|
    ensures r.Some? && rule != Blank ==> NoNewline(t, 0, r.value)
  {
    match rule
    case Blank => MatchBlank(t)
    case BlockComment => MatchBlockComment(t)
    case LineComment => MatchLineComment(t)
    case FloatNumber => MatchFloat(t)
    case IntNumber => MatchInt(t)
    case QuotedString => MatchString(t)
    case Identifier => MatchIdent(t)
    case Punctuation => MatchSymbol(t)
  }

  /** What each rule, in order, matches at the start of t. */
  function Attempts(t: string): (rs: seq<Option<nat>>)
    ensures |rs| == |Rules| && forall j :: 0 <= j < |Rules| ==> rs[j] == Match(Rules[j], t)
  {
    seq(|Rules|, j requires 0 <= j < |Rules| => Match(Rules[j], t))
  }

  /** The index of the first attempt, from rs[i] on, that matched, with the length it matched. */
  function FirstSuccess(rs: seq<Option<nat>>, i: nat): (r: Option<(nat, nat)>)
    requires i <= |rs|
    ensures r.Some? ==> i <= r.value.0 < |rs| && rs[r.value.0] == Some(r.value.1)
    ensures r.Some? ==> forall j :: i <= j < r.value.0 ==> rs[j].None?
    ensures r.None? ==> forall j :: i <= j < |rs| ==> rs[j].None?
    decreases |rs| - i
  {
    if i == |rs| then None
    else match rs[i]
      case Some(n) => Some((i, n))
      case None => FirstSuccess(rs, i + 1)
  }

  /** The rule that wins at the start of t: the first in Rules that matches. */
  function FirstMatch(t: string): (r: Option<(Rule, nat)>)
    ensures r.Some? ==> 0 < r.value.1 <= |t| && Match(r.value.0, t) == Some(r.value.1)
    ensures r.None? <==> forall j :: 0 <= j < |Rules| ==> Match(Rules[j], t).None?
  {
    match FirstSuccess(Attempts(t), 0)
    case Some((k, n)) => Some((Rules[k], n))
    case None => None
  }
}
