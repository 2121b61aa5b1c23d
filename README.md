# A verified model of the lexer, symbol table and tree-walking interpreter

This project models the working core of a small-language front end written in Python:

- **the lexer** (`Lexer.py`): a scanner over the program text. It tracks the position `pos`, the current character and the line number. Each call of `get_next_token` returns one of:
  - an INTEGER token;
  - a reserved word or an IDENTIFIER;
  - a one- or two-character operator;
  - EOF;
  - or it raises an exception.
- **the symbol table** (`SymbolTable.py`): a dictionary from names to values with `declare`, `lookup`, `is_declared` and `assign`.
- **the interpreter** (`Interpreter.py`): a visitor that walks the syntax tree of `AST.py`. It threads one symbol table through the walk and prints the value of each `output` statement.

Each stateful part is modelled in two layers:

1. **Pure functions.** They say what an operation does to a value of the state:
   - `Lex.NextToken(text, pos, line)` gives one call of `get_next_token`;
   - `Symtab.DeclareIn`, `LookupIn` and `AssignIn` act on a dictionary;
   - `Interp.Eval(node, state)` gives one `visit` over a table and the output printed so far.
2. **Imperative classes.** They update their fields in place, like the source:
   - `Lex.Lexer` (fields `pos`, `currentChar` and `line`);
   - `Symtab.SymbolTable` (field `tab`);
   - `Interp.Interpreter` (a `SymbolTable` object and the `output` sequence).

   Every method of these classes is proved to produce exactly the result and the new state that the pure function gives. The lemmas in `LexFacts`, `Symtab` and `InterpFacts` then state what the source promises about those functions.

Values follow Python's dynamic typing: a value is an `int`, a `str` or `None` (`Values.Value`). This matters for two reasons:
- `++x` returns the variable's name, which is a `str`.
- A statement's visit returns `None`.

So `++x + ++y` joins two names, and `++x * 3` repeats one. An exception stops the walk. The state reached before the exception is kept, so values printed before a failure stay printed.

Where the code differs from what the language is meant to do, the model follows the code:
- `==`, `[`, `]`, `{` and `}` build a `Token` with two arguments. `Token` needs three (Token.py:2), so these lexemes raise.
- Whitespace that runs to the end of the text raises, because `isdigit` is then called on `None`.
- A declaration drops its initializer: `declare x = 5; output x;` prints 0.
- `//` and `%` use Python's floor semantics, not truncation.
- Loops and conditionals have no visitor method, so they raise.

## Model

| member | source | states |
|---|---|---|
| `Lex.Lexer.constructor` | Lexer.py:38-43 | the scanner starts at position 0 on line 1 with the first character current; the text must be non-empty because `text[0]` is read |
| `Lex.Lexer.Peek` | Lexer.py:48-53 | the character after the current one, None exactly when that position is past the end |
| `Lex.Lexer.Advance` | Lexer.py:55-60 | moves one position, leaves the line alone, and keeps the current character equal to `text[pos]` (None at the end) |
| `Lex.Lexer.SkipWhitespace` | Lexer.py:62-66 | stops at the end of the maximal whitespace run and adds to `line` exactly the number of '\n' it passed |
| `Lex.Lexer.ScanInteger` | Lexer.py:68-73 | consumes the maximal digit run and returns its decimal value; with no digit it raises as `int('')` does |
| `Lex.Lexer.Word` | Lexer.py:75-80 | consumes the maximal alphanumeric run and returns exactly that text |
| `Lex.Lexer.GetNextToken` | Lexer.py:82-192 | gives the result and the new position and line that `NextToken` gives for the old position and line, and keeps the scanner invariant |
| `Lex.Lexer.TokenHere` | Lexer.py:87-190 | at a character that is not a space, scans a number, a word or an operator: the result and new position are those `TokenAt` gives |
| `Lex.Lexer.OperatorToken` | Lexer.py:103-190 | the operator branches: gives the result and new position that `OperatorStep` gives |
| `Lex.NextToken` | Lexer.py:82-192 | one call of `get_next_token`: the position never moves backwards or past the end, the line never decreases, and a token carries the line reached after the whitespace |
| `Lex.IsDigit` | Lexer.py:70-87 | `isdigit`: exactly the ten characters '0' to '9' |
| `Lex.IsAlpha` | Lexer.py:90 | `isalpha`: a letter is never a digit and never `_` |
| `Lex.IsSpace` | Lexer.py:63-84 | `isspace`: space, tab, '\n' and '\r' are whitespace, and whitespace is never a digit or a letter |
| `Lex.IsAlnum` | Lexer.py:77 | `isalnum`: every digit is alphanumeric, and an alphanumeric character is never whitespace or `_` |
| `Lex.CharAt` | Lexer.py:55-60 | the current character is `text[i]` while `i` is inside the text, and None otherwise |
| `Lex.RunEnd` | Lexer.py:62-80 | the end of a maximal run of one character class: every character before it is in the class, and the one at it is not |
| `Lex.NewlinesIn` | Lexer.py:62-66 | counts the '\n' characters in a range; the count is at most the range's length and zero when the range has none |
| `Lex.DecimalValue` | Lexer.py:73 | `int` of a digit string; the value is below 10 to the power of the string's length |
| `Lex.OperatorStep` | Lexer.py:103-190 | an operator consumes at most two characters and no newline, and keeps the line. A token that is built consumes at least one character |
| `Lex.TokenAt` | Lexer.py:87-190 | the token after the whitespace never moves backwards or past the end, consumes no newline, and carries the current line |
| `Lex.WordType` | Lexer.py:29-35 | a word is IDENTIFIER exactly when it is not a reserved word; a reserved word gets its entry in RESERVED_WORDS |
| `LexFacts.RunEndIs` | Lexer.py:68-80 | any run that cannot be extended ends where `RunEnd` says: the munch is maximal and unique |
| `LexFacts.DecimalValueOfShowNat` | Lexer.py:73 | converting the decimal spelling of any n gives back n |
| `LexFacts.EofAndProgress` | Lexer.py:83-88 | EOF is returned exactly when the position is at the end, and nothing moves then; every other token strictly advances the position within the text |
| `LexFacts.LineCountsNewlines` | Lexer.py:62-66 | after any call, successful or not, `line` has grown by exactly the newlines between the old and the new position. It never decreases, and every token carries the line after the whitespace |
| `LexFacts.IntegerToken` | Lexer.py:84-88 | after whitespace, a maximal digit run becomes one INTEGER token whose value is the run's decimal value; the scanner stops just after the run |
| `LexFacts.IntegerRoundTrip` | Lexer.py:68-73 | scanning the decimal spelling of n, followed by nothing or a non-digit, yields INTEGER n and consumes exactly the spelling |
| `LexFacts.WordTypeIsKeywordType` | Lexer.py:29-43 | the reserved-word list and RESERVED_WORDS together give each of the five keywords its own type, and every other word IDENTIFIER |
| `LexFacts.WordToken` | Lexer.py:90-101 | after whitespace, a maximal alphanumeric run that starts with a letter is one token. `declare`/`while`/`if`/`else`/`output` give DECLARE/LOOP/IF/ELSE/OUTPUT, and every other word gives IDENTIFIER; the value is the word |
| `LexFacts.TwoCharOperators` | Lexer.py:112-172 | `<=`, `>=`, `!=` give CONDITIONALOP; `++` gives INCREMENTOR; `--` gives DECREMENTOR; `&&` and `\|\|` give CONDITIONALCOMBINATOR. Each consumes two characters |
| `LexFacts.DoubleEqualsFails` | Lexer.py:103-107 | `==` raises, because its token is built without a line number, after both characters are consumed |
| `LexFacts.OneCharOperators` | Lexer.py:103-162 | a lone `<` `>` `!` `+` `-` `=`, and every `/` `*` `%` `;`, is a one-character token of its type |
| `LexFacts.BracketsFail` | Lexer.py:174-188 | `[`, `]`, `{` and `}` raise, because their tokens are built without a line number, after the character is consumed |
| `LexFacts.UnhandledCharacterFails` | Lexer.py:164-190 | a character that no branch handles raises the lexing error without moving. This includes a lone `&` or `\|` |
| `LexFacts.ParenthesesFail` | Lexer.py:190 | `(`, `)`, `_` and `& &` raise the lexing error |
| `LexFacts.TrailingWhitespaceFails` | Lexer.py:83-87 | whitespace that runs to the end of the text raises (on `None.isdigit`), with the position at the end and the newlines counted |
| `LexFacts.LexemeIsConsumedText` | Lexer.py:90-172 | every word and operator token carries exactly the characters it consumed after the whitespace |
| `LexFacts.Tokenize` | Lexer.py:82-192 | calling `get_next_token` until EOF terminates; the tokens end with exactly one EOF |
| `Symtab.IsDeclaredIn` | SymbolTable.py:16-20 | holds exactly when `tab.get(name, None)` is not None |
| `Symtab.DeclareIn` | SymbolTable.py:5-9 | succeeds exactly when the name is not declared, and then stores 0 under it and changes no other entry; otherwise raises 'already declared' |
| `Symtab.LookupIn` | SymbolTable.py:11-14 | succeeds exactly when the name is declared, and then returns its stored value, which is never None; otherwise raises 'not declared' |
| `Symtab.AssignIn` | SymbolTable.py:22-26 | succeeds exactly when the name is declared, and then replaces only that entry; otherwise raises 'not declared' |
| `Symtab.DeclareThenLookup` | SymbolTable.py:5-14 | a fresh declaration reads back as 0 |
| `Symtab.AssignThenLookup` | SymbolTable.py:16-26 | an assigned value reads back. Assigning None makes the name undeclared, so it can be declared again |
| `Symtab.OtherNamesUnaffected` | SymbolTable.py:5-26 | declaring or assigning one name leaves the lookup of every other name unchanged |
| `Symtab.SymbolTable.constructor` | SymbolTable.py:2-3 | the table starts empty |
| `Symtab.SymbolTable.IsDeclared` | SymbolTable.py:16-20 | holds exactly when the name is a key whose stored value is not None |
| `Symtab.SymbolTable.Declare` | SymbolTable.py:5-9 | stores 0 under an undeclared name. On a declared name it raises and leaves the table unchanged |
| `Symtab.SymbolTable.Lookup` | SymbolTable.py:11-14 | returns the stored value of a declared name, and raises 'not declared' otherwise |
| `Symtab.SymbolTable.Assign` | SymbolTable.py:22-26 | replaces the value of a declared name. On an undeclared name it raises and leaves the table unchanged |
| `Interp.FloorDiv` | Interpreter.py:30-31 | `//` is the floor of the exact quotient, for either sign of the divisor |
| `Interp.FloorMod` | Interpreter.py:32-33 | `%` is the remainder of floor division: it takes the divisor's sign, and its magnitude is less than the divisor's |
| `Interp.Repeat` | Interpreter.py:28-29 | `str * int` is empty when n <= 0; otherwise it is n times as long as the string and begins with one copy of it. That it is n copies throughout is `RepeatAdds` and `RepeatBlocks` |
| `Interp.Arith` | Interpreter.py:23-33 | on two ints only `//` or `%` by zero raises; an operand that is None always raises |
| `Interp.Eval` | Interpreter.py:8-69 | one `visit`: no visit removes a name or takes back printed output, even one that raises part way through |
| `Interp.EvalSeq` | Interpreter.py:49-51 | the same for a block of statements visited in order |
| `Interp.Interpreter.constructor` | Interpreter.py:17-18 | a fresh, empty symbol table and nothing printed |
| `Interp.Interpreter.Visit` | Interpreter.py:8-11 | dispatches on the node's class. Its result and the new table and output are those `Eval` gives |
| `Interp.Interpreter.GenericVisit` | Interpreter.py:13-14 | raises 'No visit_<kind> method' naming the node's class |
| `Interp.Interpreter.VisitBinOp` | Interpreter.py:23-33 | visits left, then right, then combines. An operator with no branch gives None. The result is as in `Eval` |
| `Interp.Interpreter.VisitNum` | Interpreter.py:35-36 | returns the literal's value and changes nothing |
| `Interp.Interpreter.VisitUnaryOp` | Interpreter.py:38-47 | reads the variable and stores it plus or minus one. It returns the name, as in `Eval` |
| `Interp.Interpreter.VisitCompound` | Interpreter.py:49-51 | visits the children in list order and stops at the first that raises, as in `Eval` |
| `Interp.Interpreter.VisitAssign` | Interpreter.py:53-56 | stores the right side's value under the left name, as in `Eval` |
| `Interp.Interpreter.VisitDeclarative` | Interpreter.py:58-62 | declares the name and then only visits the initializer, as in `Eval` |
| `Interp.Interpreter.VisitVar` | Interpreter.py:64-65 | returns the stored value of a declared name and raises 'not declared' otherwise; the table is untouched |
| `Interp.Interpreter.VisitOutput` | Interpreter.py:67-69 | appends the expression's value to the output, as in `Eval` |
| `InterpFacts.SideEffectFreeKeepsState` | Interpreter.py:23-36 | visiting literals, variables and arithmetic over them leaves the table and the output exactly as they were |
| `InterpFacts.RightOperandReadsLeftState` | Interpreter.py:23-33 | for every left operand that does not raise, a variable on the right reads its value from the table the left operand left, and the operation ends in that state; a left operand that raises ends the operation before the right is visited |
| `InterpFacts.UpdateSeenByRightOperand` | Interpreter.py:23-47 | for every name, starting value v and arithmetic operator, `++x op x` combines the name "x" with v+1 and `--x op x` with v-1, and leaves x updated |
| `InterpFacts.LeftOperandFirst` | Interpreter.py:23-29 | the left operand is visited first, and its side effects are seen by the right: with x = 0, `++x * x` yields "x" and leaves x = 1 |
| `InterpFacts.IntegerArithmetic` | Interpreter.py:23-33 | on ints, +, - and * are exact. `//` and `%` satisfy `x == y*q + m`, with m taking the sign of y, and a zero divisor raises |
| `InterpFacts.FloorExamples` | Interpreter.py:30-33 | -7 // 2 == -4, -7 % 2 == 1, 7 // -2 == -4 and 7 % -2 == -1 |
| `InterpFacts.StringArithmetic` | Interpreter.py:24-29 | names join with `+`; `str * int` and `int * str` are the same repetition; `str + int` and `str - str` raise |
| `InterpFacts.RepeatAdds` | Interpreter.py:28-29 | `s * (a + b) == s * a + s * b` for counts that are not negative |
| `InterpFacts.RepeatBlocks` | Interpreter.py:28-29 | after any q < n copies of s in `s * n` comes one more whole copy of s, so `s * n` is n copies of s |
| `InterpFacts.OtherOperatorYieldsNone` | Interpreter.py:23-33 | an operator outside the five yields None without visiting either operand |
| `InterpFacts.VarReadsTable` | Interpreter.py:64-65 | a variable yields its stored value whatever its index, changes nothing, and raises when undeclared |
| `InterpFacts.IncrementYieldsName` | Interpreter.py:38-47 | `++x` / `--x` store x+1 / x-1 and yield the name "x", not the new value |
| `InterpFacts.IncrementFailures` | Interpreter.py:38-47 | incrementing an undeclared name, or one that holds a name, raises and changes nothing |
| `InterpFacts.SequenceSplits` | Interpreter.py:49-51 | running `a + b` is running `a`, then (unless it raised) running `b` from the state `a` left |
| `InterpFacts.RaiseStopsBlock` | Interpreter.py:49-51 | a child that raises ends the block; the children after it are never visited |
| `InterpFacts.AssignStoresValue` | Interpreter.py:53-56 | the right side is visited first, then its value replaces the variable's. The operator (`+=` acts as `=`) and the left index play no part. An undeclared target raises after the right side's effects |
| `InterpFacts.DeclarationDropsInitializer` | Interpreter.py:58-62 | after `declare x = e` with a side-effect-free `e`, x is 0; the declaration succeeds exactly when `e` evaluates |
| `InterpFacts.RedeclarationFails` | Interpreter.py:58-60 | redeclaring a name raises before the initializer is visited, and changes nothing |
| `InterpFacts.OutputAppends` | Interpreter.py:67-69 | `output e` appends exactly e's value to what has been printed |
| `InterpFacts.NoVisitorFails` | Interpreter.py:8-14 | Loop, If, Condition, Else and Indexer nodes raise 'No visit_<kind> method' and change nothing |
| `InterpFacts.DeclareThenOutput` | Interpreter.py:58-69 | the program `declare x = 5; output x;` prints 0 |
| `InterpFacts.LoopRaisesAfterEarlierOutput` | Interpreter.py:8-14 | `output 1;` followed by a loop prints 1 and then raises at the loop |

## Left out

- The code generator (address allocator, command tags, offset patching). CodeGenerator.py:8-13 only creates a symbol table and visits a root it cannot obtain, so there is no generator code to model.
- Parser.py. It builds no tree, it refers to names that are never defined, and it has no `parse` method. The model takes the syntax tree as given.
- `Interpreter.__init__` calls `parser.parse()`, which does not exist. The constructor creates only the empty table, and `Visit(root)` stands for walking a given root.
- interpret.py and compile.py are command-line and file-reading plumbing.
- `Token.__str__` and `Token.__repr__` (formatting only).
- Printing is I/O. `output` appends the printed value to a sequence; the text `print` would write is not modelled.
- Exceptions are error constructors that carry the offending name, not message strings.
- Character classes are Python 3's `str.isspace`/`isdigit`/`isalpha`/`isalnum` on ASCII only, with \x1c-\x1f counted as whitespace as Python 3's `str.isspace` does. A non-ASCII character belongs to no class here, so it raises the lexing error; Python would classify Unicode letters and digits.
- `Interp.Arith` treats `str % x` as a TypeError. This matches Python for every name the lexer can produce, because names are alphanumeric. A name holding a `%` format directive is not modelled.
- A node that names a target variable holds that variable's name and index expression: UnaryOp's identifier, Assign's left side and Declarative's var. A tree with another node kind in that place is not modelled; in Python it would raise or look up a non-string key.
- Python values other than int, str and None do not arise in this interpreter and are not modelled.
- The model follows Python 3 `str` semantics. Under Python 2 (compile.py:6 reads its input with `raw_input`), byte-string `isspace` does not count \x1c-\x1f as whitespace, so those characters would raise the lexing error there.
- Python's resource limits are not modelled. `int()` raises ValueError on a digit string of more than 4300 digits from Python 3.11 on (Lexer.py:73), so `LexFacts.IntegerRoundTrip` and `LexFacts.DecimalValueOfShowNat` hold there only below that length. A huge `s * n` raises OverflowError or MemoryError (Interpreter.py:28-29). A deeply nested tree raises RecursionError (Interpreter.py:8-11). `Eval` is total over finite trees.
