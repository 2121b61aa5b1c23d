/**
 * What one call of `get_next_token` (Lexer.py:82-192) promises, stated without
 * reference to how `NextToken` is written: maximal munch for numbers and words,
 * the operator table, line counting, progress, and the exact failure paths.
 */
module LexFacts {
  import opened Wrappers
  import opened Values
  import opened Tokens
  import opened Lex

  // ---------------------------------------------------------------------------
  // Runs and newlines
  // ---------------------------------------------------------------------------

  /** A run of class `k` over [i, e) that cannot be extended ends exactly at e. */
  lemma RunEndIs(s: string, i: nat, e: nat, k: CharClass)
    requires i <= e <= |s|
    requires forall j :: i <= j < e ==> InClass(s[j], k)
    requires e == |s| || !InClass(s[e], k)
    ensures RunEnd(s, i, k) == e
  {
  }

  /** Counting newlines over [i, j) splits at any m in between. */
  lemma {:induction false} NewlinesSplit(s: string, i: nat, m: nat, j: nat)
    requires i <= m <= j
    ensures NewlinesIn(s, i, j) == NewlinesIn(s, i, m) + NewlinesIn(s, m, j)
    decreases j
  {
    if m < j {
      NewlinesSplit(s, i, m, j - 1);
    }
  }

  // ---------------------------------------------------------------------------
  // Decimal literals: the value of a digit run, and the round trip
  // ---------------------------------------------------------------------------

  function DigitChar(d: nat): (c: char)
    requires d < 10
    ensures IsDigit(c) && DigitValue(c) == d
  {
    ('0' as int + d) as char
  }

  /** The shortest decimal spelling of n (what Python's `str(n)` gives). */
  function ShowNat(n: nat): (s: string)
    ensures |s| > 0 && forall k :: 0 <= k < |s| ==> IsDigit(s[k])
    ensures |s| > 1 ==> s[0] != '0'
  {
    if n < 10 then [DigitChar(n)] else ShowNat(n / 10) + [DigitChar(n % 10)]
  }

  /** `int(str(n)) == n`. */
  lemma {:induction false} DecimalValueOfShowNat(n: nat)
    ensures DecimalValue(ShowNat(n)) == n
  {
    if n >= 10 {
      DecimalValueOfShowNat(n / 10);
      var s := ShowNat(n);
      assert s[..|s| - 1] == ShowNat(n / 10);
    }
  }

  // ---------------------------------------------------------------------------
  // Progress, EOF and line counting (Lexer.py:42, 55-66, 83-85, 192)
  // ---------------------------------------------------------------------------

  /**
   * EOF is returned exactly when the scanner is already at the end of the text,
   * and then nothing moves; every other token strictly advances the position.
   */
  lemma EofAndProgress(text: string, pos: nat, line: nat)
    requires pos <= |text|
    ensures var o := NextToken(text, pos, line);
      (o.result.Ok? && o.result.value.kind == Eof) <==> pos == |text|
    ensures var o := NextToken(text, pos, line);
      pos == |text| ==> o == Step(Ok(Token(Eof, NoneVal, line)), pos, line)
    ensures var o := NextToken(text, pos, line);
      o.result.Ok? && o.result.value.kind != Eof ==> pos < o.pos <= |text|
  {
  }

  /**
   * `line` counts exactly the newlines consumed: after any call, ok or not, it
   * has grown by the number of '\n' between the old and the new position, so it
   * never decreases, and the position never moves backwards or past the end.
   */
  lemma {:induction false} LineCountsNewlines(text: string, pos: nat, line: nat)
    requires pos <= |text|
    ensures var o := NextToken(text, pos, line);
      pos <= o.pos <= |text| && o.line == line + NewlinesIn(text, pos, o.pos) && o.line >= line
    ensures var o := NextToken(text, pos, line);
      o.result.Ok? ==> o.result.value.line == o.line
  {
    if pos < |text| {
      var p := RunEnd(text, pos, Space);
      var ln := line + NewlinesIn(text, pos, p);
      if p < |text| {
        NewlinesSplit(text, pos, p, TokenAt(text, p, ln).pos);
      }
    }
  }

  // ---------------------------------------------------------------------------
  // Numbers and words: maximal munch (Lexer.py:68-101)
  // ---------------------------------------------------------------------------

  /**
   * After the whitespace [pos, p), a maximal digit run [p, e) becomes one INTEGER
   * token whose value is the decimal value of the run; the scanner stops at e.
   */
  lemma IntegerToken(text: string, pos: nat, p: nat, e: nat, line: nat)
    requires pos <= p < e <= |text|
    requires forall k :: pos <= k < p ==> IsSpace(text[k])
    requires forall k :: p <= k < e ==> IsDigit(text[k])
    requires e == |text| || !IsDigit(text[e])
    ensures var ln := line + NewlinesIn(text, pos, p);
      NextToken(text, pos, line)
        == Step(Ok(Token(Integer, IntVal(DecimalValue(text[p..e])), ln)), e, ln)
  {
    RunEndIs(text, pos, p, Space);
    RunEndIs(text, p, e, Digit);
  }

  /** The decimal spelling of any n, followed by a non-digit or nothing, scans back to n. */
  lemma IntegerRoundTrip(n: nat, rest: string, line: nat)
    requires rest == [] || !IsDigit(rest[0])
    ensures var text := ShowNat(n) + rest;
      NextToken(text, 0, line) == Step(Ok(Token(Integer, IntVal(n), line)), |ShowNat(n)|, line)
  {
    var s := ShowNat(n);
    var text := s + rest;
    assert text[0..|s|] == s;
    IntegerToken(text, 0, 0, |s|, line);
    DecimalValueOfShowNat(n);
  }

  /** The token type a word gets: the five reserved words, else IDENTIFIER. */
  function KeywordType(w: string): TokenType {
    if w == "declare" then Declare
    else if w == "while" then Loop
    else if w == "if" then If
    else if w == "else" then Else
    else if w == "output" then Output
    else Identifier
  }

  /** The reserved-word list and RESERVED_WORDS agree with the five keywords. */
  lemma WordTypeIsKeywordType(w: string)
    ensures WordType(w) == KeywordType(w)
  {
    assert w in ReservedList <==>
      w == "while" || w == "if" || w == "else" || w == "declare" || w == "output";
  }

  /**
   * After the whitespace [pos, p), a maximal alphanumeric run [p, e) that starts
   * with a letter becomes one token carrying the word, reserved or IDENTIFIER.
   */
  lemma WordToken(text: string, pos: nat, p: nat, e: nat, line: nat)
    requires pos <= p < e <= |text|
    requires forall k :: pos <= k < p ==> IsSpace(text[k])
    requires IsAlpha(text[p])
    requires forall k :: p <= k < e ==> IsAlnum(text[k])
    requires e == |text| || !IsAlnum(text[e])
    ensures var ln := line + NewlinesIn(text, pos, p);
      NextToken(text, pos, line)
        == Step(Ok(Token(KeywordType(text[p..e]), StrVal(text[p..e]), ln)), e, ln)
  {
    RunEndIs(text, pos, p, Space);
    RunEndIs(text, p, e, Alnum);
    WordTypeIsKeywordType(text[p..e]);
  }

  // ---------------------------------------------------------------------------
  // Operators (Lexer.py:103-172)
  // ---------------------------------------------------------------------------

  /**
   * Two-character operators win over their one-character prefixes and consume
   * both characters; the token carries the two characters.
   */
  lemma TwoCharOperators(text: string, pos: nat, line: nat)
    requires pos + 1 < |text|
    ensures var two := text[pos..pos + 2]; var o := NextToken(text, pos, line);
      (two in {"<=", ">=", "!="} ==> o == Emit(ConditionalOp, two, pos + 2, line)) &&
      (two == "++" ==> o == Emit(Incrementor, two, pos + 2, line)) &&
      (two == "--" ==> o == Emit(Decrementor, two, pos + 2, line)) &&
      (two in {"&&", "||"} ==> o == Emit(ConditionalCombinator, two, pos + 2, line))
  {
    var two := text[pos..pos + 2];
    assert two[0] == text[pos] && two[1] == text[pos + 1];
    assert !IsSpace(text[pos]) ==> RunEnd(text, pos, Space) == pos;
  }

  /**
   * Lexer.py:107 builds `Token` with two arguments where Token.py:2 needs three,
   * so `==` raises after both characters are consumed.
   */
  lemma DoubleEqualsFails(text: string, pos: nat, line: nat)
    requires pos + 1 < |text| && text[pos] == '=' && text[pos + 1] == '='
    ensures NextToken(text, pos, line) == Step(Err(MissingLineNumber), pos + 2, line)
  {
  }

  /** The one-character token type of an operator character that does not pair up. */
  function SingleType(c: char): TokenType {
    if c == '<' || c == '>' then ConditionalOp
    else if c == '!' then Negator
    else if c == '+' then Plus
    else if c == '-' then Minus
    else if c == '/' then Div
    else if c == '*' then Mul
    else if c == '%' then Mod
    else if c == ';' then Semicolon
    else Assign
  }

  /**
   * A lone `<`, `>`, `!`, `+`, `-`, `=` (not followed by the character that would
   * pair it) and every `/`, `*`, `%`, `;` is a one-character token.
   */
  lemma OneCharOperators(text: string, pos: nat, line: nat)
    requires pos < |text|
    requires text[pos] in "<>!+-=/*%;"
    requires text[pos] in "<>!=" ==> CharAt(text, pos + 1) != Some('=')
    requires text[pos] == '+' ==> CharAt(text, pos + 1) != Some('+')
    requires text[pos] == '-' ==> CharAt(text, pos + 1) != Some('-')
    ensures NextToken(text, pos, line) == Emit(SingleType(text[pos]), [text[pos]], pos + 1, line)
  {
  }

  /**
   * Lexer.py:176-188 build `Token` with two arguments, so `[`, `]`, `{` and `}`
   * raise after the character is consumed.
   */
  lemma BracketsFail(text: string, pos: nat, line: nat)
    requires pos < |text| && text[pos] in "[]{}"
    ensures NextToken(text, pos, line) == Step(Err(MissingLineNumber), pos + 1, line)
  {
  }

  /**
   * A character that no branch handles raises the lexing error without moving:
   * this covers `(`, `)`, `_`, a lone `&` or `|` and all other punctuation.
   */
  lemma UnhandledCharacterFails(text: string, pos: nat, line: nat)
    requires pos < |text|
    requires !IsSpace(text[pos]) && !IsAlnum(text[pos])
    requires text[pos] !in "=<>!+-/*%;[]{}"
    requires text[pos] in "&|" ==> CharAt(text, pos + 1) != Some(text[pos])
    ensures NextToken(text, pos, line) == Step(Err(LexingError), pos, line)
  {
  }

  /** Parentheses and the underscore are among the unhandled characters. */
  lemma ParenthesesFail(line: nat)
    ensures NextToken("(", 0, line) == Step(Err(LexingError), 0, line)
    ensures NextToken(")x", 0, line) == Step(Err(LexingError), 0, line)
    ensures NextToken("_a", 0, line) == Step(Err(LexingError), 0, line)
    ensures NextToken("& &", 0, line) == Step(Err(LexingError), 0, line)
  {
  }

  /**
   * Whitespace that runs to the end of the text leaves `current_char` None, and
   * the following `isdigit` call on it raises (Lexer.py:84-87).
   */
  lemma TrailingWhitespaceFails(text: string, pos: nat, line: nat)
    requires pos < |text|
    requires forall k :: pos <= k < |text| ==> IsSpace(text[k])
    ensures NextToken(text, pos, line)
      == Step(Err(AttributeOnNone), |text|, line + NewlinesIn(text, pos, |text|))
  {
  }

  /**
   * Every token other than INTEGER and EOF carries exactly the text it consumed
   * after the skipped whitespace.
   */
  lemma LexemeIsConsumedText(text: string, pos: nat, line: nat)
    requires pos < |text|
    ensures var o := NextToken(text, pos, line); var p := RunEnd(text, pos, Space);
      o.result.Ok? && o.result.value.kind !in {Integer, Eof} ==>
        p < o.pos <= |text| && o.result.value.value == StrVal(text[p..o.pos])
  {
  }

  // ---------------------------------------------------------------------------
  // Repeated calls terminate
  // ---------------------------------------------------------------------------

  /**
   * The tokens a caller obtains by calling `get_next_token` until EOF or an
   * exception. It is well defined because every non-EOF token makes progress.
   */
  ghost function Tokenize(text: string, pos: nat, line: nat): (r: Result<seq<Token>, LexError>)
    requires pos <= |text|
    ensures r.Ok? ==> |r.value| > 0 && r.value[|r.value| - 1].kind == Eof
    ensures r.Ok? ==> forall k :: 0 <= k < |r.value| - 1 ==> r.value[k].kind != Eof
    decreases |text| - pos
  {
    var o := NextToken(text, pos, line);
    EofAndProgress(text, pos, line);
    match o.result
    case Err(e) => Err(e)
    case Ok(t) =>
      if t.kind == Eof then Ok([t])
      else
        match Tokenize(text, o.pos, o.line)
        case Err(e) => Err(e)
        case Ok(ts) =>
          assert forall k :: 1 <= k < |ts| + 1 ==> ([t] + ts)[k] == ts[k - 1];
          Ok([t] + ts)
  }
}
