/**
 * Token kinds, the renaming of operator and punctuation lexemes, and the tag
 * strings the lexer writes into its tuples.
 */
module Symbols {

  /** A token's kind; the four literal-like kinds carry their text, as the tags `ID.<text>` and so on do. */
  datatype Kind =
    | EOF
    | Reserved
    | Id(lexeme: string)
    | NumInt(lexeme: string)
    | NumFloat(lexeme: string)
    | Str(lexeme: string)
    | LParent | RParent | LBrace | RBrace | LBracket | RBracket
    | Semicolon | Comma | Assign
    | RelationalEq | RelationalNeq | RelationalLt | RelationalGt | RelationalLte | RelationalGte
    | LogicalAnd | LogicalOr | LogicalNot
    | Plus | Minus | Times | Divide
    | Symbol

  /** The 22 kinds the symbol renaming table names. */
  predicate IsNamedSymbol(k: Kind) {
    !(k.EOF? || k.Reserved? || k.Id? || k.NumInt? || k.NumFloat? || k.Str? || k.Symbol?)
  }

  /** The renaming table read backwards: the lexeme each of the 22 named kinds is written as. */
  function Spelling(k: Kind): string
    requires IsNamedSymbol(k)
  {
    match k
    case LParent => "(" case RParent => ")" case LBrace => "{" case RBrace => "}"
    case LBracket => "[" case RBracket => "]" case Semicolon => ";" case Comma => ","
    case Assign => "=" case RelationalEq => "==" case RelationalNeq => "!="
    case RelationalLt => "<" case RelationalGt => ">" case RelationalLte => "<=" case RelationalGte => ">="
    case LogicalAnd => "&&" case LogicalOr => "||" case LogicalNot => "!"
    case Plus => "+" case Minus => "-" case Times => "*" case Divide => "/"
  }

  /** The kind of a one-character lexeme. */
  function OneCharKind(c: char): Kind {
    match c
    case '(' => LParent case ')' => RParent case '{' => LBrace case '}' => RBrace
    case '[' => LBracket case ']' => RBracket case ';' => Semicolon case ',' => Comma
    case '=' => Assign case '<' => RelationalLt case '>' => RelationalGt case '!' => LogicalNot
    case '+' => Plus case '-' => Minus case '*' => Times case '/' => Divide
    case _ => Symbol
  }

  /** The kind of a two-character lexeme. */
  function TwoCharKind(c: char, d: char): Kind {
    if d == '=' then
      (match c case '=' => RelationalEq case '!' => RelationalNeq case '<' => RelationalLte case '>' => RelationalGte case _ => Symbol)
    else if c == '&' && d == '&' then LogicalAnd
    else if c == '|' && d == '|' then LogicalOr
    else Symbol
  }

  /** Renames a symbol lexeme through the table; anything not in it stays the generic Symbol. */
  function SymbolKind(sym: string): (k: Kind)
    ensures k == Symbol || IsNamedSymbol(k)
    ensures k != Symbol ==> Spelling(k) == sym
  {
    if |sym| == 1 then OneCharKind(sym[0])
    else if |sym| == 2 then TwoCharKind(sym[0], sym[1])
    else Symbol
  }

  /** Spelling a named kind and renaming the spelling gives the kind back. */
  lemma {:induction false} SymbolKindOfSpelling(k: Kind)
    requires IsNamedSymbol(k)
    ensures SymbolKind(Spelling(k)) == k
  {
  }

  /**
   * The renaming is a dictionary lookup: a named kind is given to exactly the
   * lexeme it is spelled as, so the named kinds have distinct spellings.
   */
  lemma {:induction false} RenamingIsLookup(sym: string, k: Kind)
    requires IsNamedSymbol(k)
    ensures SymbolKind(sym) == k <==> sym == Spelling(k)
  {
    SymbolKindOfSpelling(k);
  }

  /** Distinct named kinds are spelled differently. */
  lemma {:induction false} SpellingsDistinct(k: Kind, k': Kind)
    requires IsNamedSymbol(k) && IsNamedSymbol(k') && k != k'
    ensures Spelling(k) != Spelling(k')
  {
    SymbolKindOfSpelling(k);
    SymbolKindOfSpelling(k');
  }

  /** The tag string of a token of kind k. */
  function Tag(k: Kind): string {
    match k
    case EOF => "EOF"
    case Reserved => "RESERVED"
    case Id(x) => "ID." + x
    case NumInt(x) => "NUM-INT." + x
    case NumFloat(x) => "NUM-FLOAT." + x
    case Str(x) => "STRING." + x
    case LParent => "LPARENT" case RParent => "RPARENT"
    case LBrace => "LBRACE" case RBrace => "RBRACE"
    case LBracket => "LBRACKET" case RBracket => "RBRACKET"
    case Semicolon => "SEMICOLON" case Comma => "COMMA" case Assign => "ASSIGN"
    case RelationalEq => "RELATIONALEQ" case RelationalNeq => "RELATIONALNEQ"
    case RelationalLt => "RELATIONALLT" case RelationalGt => "RELATIONALGT"
    case RelationalLte => "RELATIONALLTE" case RelationalGte => "RELATIONALGTE"
    case LogicalAnd => "LOGICALAND" case LogicalOr => "LOGICALOR" case LogicalNot => "LOGICALNOT"
    case Plus => "PLUS" case Minus => "MINUS" case Times => "TIMES" case Divide => "DIVIDE"
    case Symbol => "SYMBOL"
  }

  /** Only the end-of-input kind has the tag "EOF": an identifier spelled EOF is tagged "ID.EOF". */
  lemma {:induction false} TagIsEofOnlyForEof(k: Kind)
    ensures Tag(k) == "EOF" <==> k == EOF
  {
    match k
    case Id(x) => assert Tag(k)[0] == 'I';
    case NumInt(x) => assert Tag(k)[0] == 'N';
    case NumFloat(x) => assert Tag(k)[0] == 'N';
    case Str(x) => assert Tag(k)[0] == 'S';
    case _ =>
  }

  /** The slash and the star are the divide and times operators. */
  lemma SlashAndStarNamed()
    ensures SymbolKind("/") == Divide && SymbolKind("*") == Times
  {
  }

  /** The increment and decrement operators match the symbol pattern but are not renamed. */
  lemma IncrementAndDecrementStayGeneric()
    ensures SymbolKind("++") == Symbol && SymbolKind("--") == Symbol
    ensures Tag(SymbolKind("++")) == "SYMBOL"
  {
  }
}
