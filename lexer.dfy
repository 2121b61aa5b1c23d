/**
 * Lexer.py: a hand-written scanner over the program text.
 *
 * The pure functions in the first half say what one call of `get_next_token`
 * does to the scanner state (position and line) and what it returns; the class
 * `Lexer` in the second half is the step-by-step scanner, and every method of it
 * is proved to agree with those functions.
 */
module Lex {
  import opened Wrappers
  import opened Values
  import opened Tokens

  /** Why scanning stopped with an exception. */
  datatype LexError =
    | LexingError        // `error()`: 'Error lexing input'
    | AttributeOnNone    // `None.isdigit()` after whitespace that runs to the end
    | MissingLineNumber  // `Token(...)` built with two arguments where it needs three
    | InvalidLiteral     // `int('')`

  /** The result of one call together with the scanner state after it. */
  datatype Step = Step(result: Result<Token, LexError>, pos: nat, line: nat)

  // ---------------------------------------------------------------------------
  // Character classes (Python's str predicates restricted to ASCII)
  // ---------------------------------------------------------------------------

  /** `str.isdigit` */
  predicate IsDigit(c: char): (b: bool)
    ensures b <==> c in {'0', '1', '2', '3', '4', '5', '6', '7', '8', '9'}
  {
    '0' <= c <= '9'
  }

  /** `str.isalpha` */
  predicate IsAlpha(c: char): (b: bool)
    ensures b ==> !IsDigit(c) && c != '_'
  {
    ('a' <= c <= 'z') || ('A' <= c <= 'Z')
  }

  /** `str.isspace`: space, \t \n \v \f \r and the separators \x1c..\x1f. */
  predicate IsSpace(c: char): (b: bool)
    ensures c == ' ' || c == '\t' || c == '\n' || c == '\r' ==> b
    ensures b ==> !IsDigit(c) && !IsAlpha(c)
  {
    c == ' ' || ('\t' <= c <= '\r') || ('\U{1C}' <= c <= '\U{1F}')
  }

  /** `str.isalnum` */
  predicate IsAlnum(c: char): (b: bool)
    ensures IsDigit(c) ==> b
    ensures b ==> !IsSpace(c) && c != '_'
  {
    IsAlpha(c) || IsDigit(c)
  }

  datatype CharClass = Space | Digit | Alnum

  predicate InClass(c: char, k: CharClass) {
    match k
    case Space => IsSpace(c)
    case Digit => IsDigit(c)
    case Alnum => IsAlnum(c)
  }

  /** The character at `i`, or None past the end (what `current_char` and `peek` hold). */
  function CharAt(s: string, i: nat): (c: Option<char>)
    ensures c.Some? <==> i < |s|
    ensures c.Some? ==> c.value == s[i]
  {
    if i < |s| then Some(s[i]) else None
  }

  /**
   * The end of the maximal run of characters of class `k` that starts at `i`:
   * everything in [i, r) is in the class and the character at r (if any) is not.
   */
  function RunEnd(s: string, i: nat, k: CharClass): (r: nat)
    ensures i <= r
    ensures i <= |s| ==> r <= |s|
    ensures forall j :: i <= j < r ==> j < |s| && InClass(s[j], k)
    ensures r < |s| ==> !InClass(s[r], k)
    decreases |s| - i
  {
    if i < |s| && InClass(s[i], k) then RunEnd(s, i + 1, k) else i
  }

  /** The number of '\n' characters among the positions [i, j) of `s`. */
  function NewlinesIn(s: string, i: nat, j: nat): (n: nat)
    ensures n <= j - i || j < i
    ensures (forall k :: i <= k < j && k < |s| ==> s[k] != '\n') ==> n == 0
    decreases j
  {
    if j <= i then 0
    else NewlinesIn(s, i, j - 1) + (if j - 1 < |s| && s[j - 1] == '\n' then 1 else 0)
  }

  // ---------------------------------------------------------------------------
  // Decimal literals
  // ---------------------------------------------------------------------------

  function DigitValue(c: char): (d: nat)
    requires IsDigit(c)
    ensures d < 10
  {
    (c as int - '0' as int) as nat
  }

  function Pow10(n: nat): (p: nat)
    ensures p >= 1
  {
    if n == 0 then 1 else 10 * Pow10(n - 1)
  }

  /** `int(ds)` for a non-empty string of decimal digits (leading zeros allowed). */
  function DecimalValue(ds: string): (v: nat)
    requires forall k :: 0 <= k < |ds| ==> IsDigit(ds[k])
    ensures v < Pow10(|ds|)
  {
    if ds == [] then 0 else DecimalValue(ds[..|ds| - 1]) * 10 + DigitValue(ds[|ds| - 1])
  }

  // ---------------------------------------------------------------------------
  // Words
  // ---------------------------------------------------------------------------

  /** RESERVED_WORDS (Lexer.py:29-35). */
  const ReservedWords: map<string, TokenType> :=
    map["declare" := Declare, "while" := Loop, "if" := If, "else" := Else, "output" := Output]

  /** The list `self.reserved_words` that `get_next_token` tests membership in. */
  const ReservedList: seq<string> := ["while", "if", "else", "declare", "output"]

  /** The token type of a word: its reserved type if it is listed, else IDENTIFIER. */
  function WordType(w: string): (t: TokenType)
    ensures t == Identifier <==> w !in ReservedList
    ensures w in ReservedList ==> w in ReservedWords && t == ReservedWords[w]
  {
    if w in ReservedList then
      assert w == "while" || w == "if" || w == "else" || w == "declare" || w == "output";
      ReservedWords[w]
    else Identifier
  }

  // ---------------------------------------------------------------------------
  // One call of get_next_token, as a function of the scanner state
  // ---------------------------------------------------------------------------

  function Emit(kind: TokenType, lexeme: string, end: nat, line: nat): Step {
    Step(Ok(Token(kind, StrVal(lexeme), line)), end, line)
  }

  /**
   * The operator branches of `get_next_token` (Lexer.py:103-190), entered with the
   * non-space, non-alphanumeric character at `p`.
   */
  function OperatorStep(text: string, p: nat, line: nat): (r: Step)
    requires p < |text|
    ensures r.line == line && (r.result.Ok? ==> r.result.value.line == line)
    ensures p <= r.pos <= p + 2 && r.pos <= |text|
    ensures r.result.Ok? ==> r.pos > p
    ensures NewlinesIn(text, p, r.pos) == 0
  {
    var c := text[p];
    var next := CharAt(text, p + 1);
    if c == '=' then
      if next == Some('=') then Step(Err(MissingLineNumber), p + 2, line)
      else Emit(Assign, "=", p + 1, line)
    else if c == '<' || c == '>' then
      if next == Some('=') then Emit(ConditionalOp, [c, '='], p + 2, line)
      else Emit(ConditionalOp, [c], p + 1, line)
    else if c == '!' then
      if next == Some('=') then Emit(ConditionalOp, "!=", p + 2, line)
      else Emit(Negator, "!", p + 1, line)
    else if c == '+' then
      if next == Some('+') then Emit(Incrementor, "++", p + 2, line)
      else Emit(Plus, "+", p + 1, line)
    else if c == '-' then
      if next == Some('-') then Emit(Decrementor, "--", p + 2, line)
      else Emit(Minus, "-", p + 1, line)
    else if c == '/' then Emit(Div, "/", p + 1, line)
    else if c == '*' then Emit(Mul, "*", p + 1, line)
    else if c == '%' then Emit(Mod, "%", p + 1, line)
    else if c == ';' then Emit(Semicolon, ";", p + 1, line)
    else if c == '&' && next == Some('&') then Emit(ConditionalCombinator, "&&", p + 2, line)
    else if c == '|' && next == Some('|') then Emit(ConditionalCombinator, "||", p + 2, line)
    else if c == '[' || c == ']' || c == '{' || c == '}' then Step(Err(MissingLineNumber), p + 1, line)
    else Step(Err(LexingError), p, line)
  }

  /** The token that starts at the non-space character at `p`. */
  function TokenAt(text: string, p: nat, line: nat): (r: Step)
    requires p < |text|
    ensures p <= r.pos <= |text| && r.line == line
    ensures r.result.Ok? ==> r.result.value.line == line
    ensures NewlinesIn(text, p, r.pos) == 0
  {
    if IsDigit(text[p]) then
      var e := RunEnd(text, p, Digit);
      Step(Ok(Token(Integer, IntVal(DecimalValue(text[p..e])), line)), e, line)
    else if IsAlpha(text[p]) then
      var e := RunEnd(text, p, Alnum);
      Step(Ok(Token(WordType(text[p..e]), StrVal(text[p..e]), line)), e, line)
    else
      OperatorStep(text, p, line)
  }

  /**
   * One call of `get_next_token` from position `pos` on line `line`: EOF at the
   * end, else skip whitespace (counting newlines) and scan the token after it.
   */
  function NextToken(text: string, pos: nat, line: nat): (r: Step)
    ensures pos <= |text| ==> pos <= r.pos <= |text|
    ensures r.line >= line
    ensures r.result.Ok? ==> r.result.value.line == r.line
  {
    if pos >= |text| then Step(Ok(Token(Eof, NoneVal, line)), pos, line)
    else
      var p := RunEnd(text, pos, Space);
      var ln := line + NewlinesIn(text, pos, p);
      if p == |text| then Step(Err(AttributeOnNone), p, ln)
      else TokenAt(text, p, ln)
  }

  // ---------------------------------------------------------------------------
  // The scanner object
  // ---------------------------------------------------------------------------

  class Lexer {
    const text: string
    var pos: nat
    var currentChar: Option<char>
    var line: nat

    /** `current_char` is the character at `pos` (None at the end); lines count from 1. */
    ghost predicate Valid()
      reads this
    {
      pos <= |text| && currentChar == CharAt(text, pos) && line >= 1
    }

    /** `__init__`: Lexer.py:41 reads `text[0]`, so the text may not be empty. */
    constructor (text: string)
      requires |text| > 0
      ensures Valid()
      ensures this.text == text && pos == 0 && line == 1 && currentChar == Some(text[0])
    {
      this.text := text;
      pos := 0;
      currentChar := Some(text[0]);
      line := 1;
    }

    /** `peek`: the character after the current one, or None. */
    function Peek(): (c: Option<char>)
      reads this
      ensures c.Some? <==> pos + 1 < |text|
      ensures c.Some? ==> c.value == text[pos + 1]
    {
      CharAt(text, pos + 1)
    }

    /** `advance`: step one position and reload `current_char`. */
    method Advance()
      modifies this`pos, this`currentChar
      ensures pos == old(pos) + 1 && currentChar == CharAt(text, pos)
      ensures old(Valid()) && old(pos) < |text| ==> Valid()
    {
      pos := pos + 1;
      if pos > |text| - 1 {
        currentChar := None;
      } else {
        currentChar := Some(text[pos]);
      }
    }

    /** `skip_whitespace`: consume the maximal run of spaces, counting each '\n'. */
    method SkipWhitespace()
      requires Valid()
      modifies this`pos, this`currentChar, this`line
      ensures Valid()
      ensures pos == RunEnd(text, old(pos), Space)
      ensures line == old(line) + NewlinesIn(text, old(pos), pos)
    {
      while currentChar.Some? && IsSpace(currentChar.value)
        invariant Valid() && old(pos) <= pos
        invariant RunEnd(text, pos, Space) == RunEnd(text, old(pos), Space)
        invariant line == old(line) + NewlinesIn(text, old(pos), pos)
        decreases |text| - pos
      {
        if currentChar.value == '\n' {
          line := line + 1;
        }
        Advance();
      }
    }

    /** `integer`: consume the maximal run of digits and convert it with `int`. */
    method ScanInteger() returns (r: Result<int, LexError>)
      requires Valid()
      modifies this`pos, this`currentChar
      ensures Valid()
      ensures pos == RunEnd(text, old(pos), Digit)
      ensures pos == old(pos) ==> r == Err(InvalidLiteral)
      ensures pos > old(pos) ==> r == Ok(DecimalValue(text[old(pos)..pos]))
    {
      var result := "";
      while currentChar.Some? && IsDigit(currentChar.value)
        invariant Valid() && old(pos) <= pos
        invariant RunEnd(text, pos, Digit) == RunEnd(text, old(pos), Digit)
        invariant result == text[old(pos)..pos]
        decreases |text| - pos
      {
        result := result + [currentChar.value];
        Advance();
      }
      if result == [] {
        return Err(InvalidLiteral);
      }
      return Ok(DecimalValue(result));
    }

    /** `word`: consume the maximal alphanumeric run and return it. */
    method Word() returns (w: string)
      requires Valid()
      modifies this`pos, this`currentChar
      ensures Valid()
      ensures pos == RunEnd(text, old(pos), Alnum)
      ensures w == text[old(pos)..pos]
    {
      w := "";
      while currentChar.Some? && IsAlnum(currentChar.value)
        invariant Valid() && old(pos) <= pos
        invariant RunEnd(text, pos, Alnum) == RunEnd(text, old(pos), Alnum)
        invariant w == text[old(pos)..pos]
        decreases |text| - pos
      {
        w := w + [currentChar.value];
        Advance();
      }
    }

    /**
     * `get_next_token`. On an exception the scanner keeps the state it had reached
     * when the exception was raised.
     */
    method GetNextToken() returns (r: Result<Token, LexError>)
      requires Valid()
      modifies this`pos, this`currentChar, this`line
      ensures Valid()
      ensures Step(r, pos, line) == NextToken(text, old(pos), old(line))
    {
      // Lexer.py:83 is a `while`, but every path through its body returns or
      // raises, so it never iterates a second time: an `if` does the same
      if currentChar.Some? {
        if IsSpace(currentChar.value) {
          SkipWhitespace();
        }
        if currentChar.None? {
          return Err(AttributeOnNone);
        }
        r := TokenHere();
        return;
      }
      return Ok(Token(Eof, NoneVal, line));
    }

    /**
     * The branches of `get_next_token` after the whitespace: a number, a word or
     * an operator, scanned at a character that is not a space.
     */
    method TokenHere() returns (r: Result<Token, LexError>)
      requires Valid() && currentChar.Some? && !IsSpace(currentChar.value)
      modifies this`pos, this`currentChar
      ensures Valid()
      ensures Step(r, pos, line) == TokenAt(text, old(pos), line)
    {
      var c := currentChar.value;

      if IsDigit(c) {
        // at a digit the run is non-empty, so `int(result)` cannot raise here
        var v := ScanInteger();
        return Ok(Token(Integer, IntVal(v.value), line));
      }

      if IsAlpha(c) {
        var word := Word();
        if word in ReservedList {
          // RESERVED_WORDS holds every listed word, so `get` never falls back to
          // the IDENTIFIER token and the reserved type is returned
          return Ok(Token(ReservedWords[word], StrVal(word), line));
        } else {
          return Ok(Token(Identifier, StrVal(word), line));
        }
      }

      r := OperatorToken();
    }

    /** The operator branches of `get_next_token`, at a character that is not a space, digit or letter. */
    method OperatorToken() returns (r: Result<Token, LexError>)
      requires Valid() && currentChar.Some?
      modifies this`pos, this`currentChar
      ensures Valid()
      ensures Step(r, pos, line) == OperatorStep(text, old(pos), line)
    {
      var c := currentChar.value;
      if c == '=' {
        if Peek() == Some('=') {
          Advance();
          Advance();
          return Err(MissingLineNumber);
        } else {
          Advance();
          return Ok(Token(Assign, StrVal("="), line));
        }
      }

      if c == '<' || c == '>' {
        if Peek() == Some('=') {
          Advance();
          Advance();
          return Ok(Token(ConditionalOp, StrVal([c, '=']), line));
        } else {
          Advance();
          return Ok(Token(ConditionalOp, StrVal([c]), line));
        }
      }

      if c == '!' {
        if Peek() == Some('=') {
          Advance();
          Advance();
          return Ok(Token(ConditionalOp, StrVal("!="), line));
        } else {
          Advance();
          return Ok(Token(Negator, StrVal("!"), line));
        }
      }

      if c == '+' {
        if Peek() == Some('+') {
          Advance();
          Advance();
          return Ok(Token(Incrementor, StrVal("++"), line));
        }
        Advance();
        return Ok(Token(Plus, StrVal("+"), line));
      }

      if c == '-' {
        if Peek() == Some('-') {
          Advance();
          Advance();
          return Ok(Token(Decrementor, StrVal("--"), line));
        }
        Advance();
        return Ok(Token(Minus, StrVal("-"), line));
      }

      if c == '/' {
        Advance();
        return Ok(Token(Div, StrVal("/"), line));
      }

      if c == '*' {
        Advance();
        return Ok(Token(Mul, StrVal("*"), line));
      }

      if c == '%' {
        Advance();
        return Ok(Token(Mod, StrVal("%"), line));
      }

      if c == ';' {
        Advance();
        return Ok(Token(Semicolon, StrVal(";"), line));
      }

      if c == '&' && Peek() == Some('&') {
        Advance();
        Advance();
        return Ok(Token(ConditionalCombinator, StrVal("&&"), line));
      }

      if c == '|' && Peek() == Some('|') {
        Advance();
        Advance();
        return Ok(Token(ConditionalCombinator, StrVal("||"), line));
      }

      if c == '[' || c == ']' || c == '{' || c == '}' {
        Advance();
        return Err(MissingLineNumber);
      }

      return Err(LexingError);
    }
  }
}
