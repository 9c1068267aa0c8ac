# PLY-Go-Parser in Dafny

A model of two PLY (Python Lex-Yacc) front ends for a small Go-like language, and
proofs about them:

- `goparser.py`: a lexer rule table and the semantic actions of a yacc grammar;
- `golangparser.py`: a second, smaller lexer rule table.

PLY builds a lexer from the module's rules. Its master regular expression tries the
function rules (`def t_X`) in definition order, then the string rules (`t_X = r'…'`)
sorted by decreasing regex length, with a stable sort. The first alternative that
matches wins, even when a later one would match more text. `lexer.token()` then works
one character at a time:

- it skips a `t_ignore` character;
- it runs the function of a matching function rule, whose results are:
  - returning nothing discards the match;
  - an unknown type raises LexError;
- when nothing matches, it calls `t_error`, which skips one character.

The grammar's actions are functions from the values of a production's right-hand side
(`p[1..]`; `len(p)` is one more than the number of symbols) to its value `p[0]`.

| file | module | what it holds |
|---|---|---|
| `pyvalue.dfy` | `PyValue` | the Python values a token or an action carries (None, str, int, float text, tuple, list) |
| `plylex.dfy` | `PlyLex` | the engine, generic in the rule table; see below |
| `golexer.dfy` | `GoLexer` | the `goparser.py` rule table in master order, and its quirks |
| `golanglexer.dfy` | `GolangLexer` | the `golangparser.py` rule table in master order, and its properties |
| `gogrammar.dfy` | `GoGrammar` | the productions; one function per `p_*` action; lemmas about derivations |

`PlyLex` contains:

- the patterns these tables use;
- the first-match master regex (`FirstMatch`);
- one `lexer.token()` pull as a function (`Next`) and as the `Lexer` class, whose `Token` method loops over a position and a line counter;
- the pull-until-None driver (`LexFrom`, and the `Tokenize` method);
- generic lemmas about these.

Some properties of the code that shape the model:

- `goparser.py` lexes by first match, not longest match, so `==` lexes as two EQUALS (`GoLexer.DoubleEqualsIsTwoEquals`).
- `p_error` prints the offending token's value; called with None at a syntax error at the end of input, `p.value` raises AttributeError out of `parser.parse`. The grammar has no `error` productions, so what follows a syntax error is PLY's default recovery, part of the yacc engine left out below.
- The actions build nested Python tuples and lists, not a tree of node objects, and the grammar declares no operator precedence.
- The grammar has no do-while loop and no pointer declaration.

## Model

| member | source | states |
|---|---|---|
| PlyLex.RunIsMaximal | goparser.py:95-104 | a character-class run (`[a-zA-Z_0-9]*`, `\d+`, `\n+`) covers only characters of the class and stops at the end or at the first character outside it |
| PlyLex.RunLengthIs | goparser.py:95-104 | a maximal run of n class characters has length n |
| PlyLex.ChoiceLength | goparser.py:53 | an alternation of words matches exactly when one of the words is a prefix at the position, and then with the length of the first such word, since Python's `|` takes the leftmost alternative that matches |
| PlyLex.MatchLength | goparser.py:53-104 | measures the match of a rule's regex at a position: the match stays inside the input (its language is stated by `MatchInLanguage`, its greediness and the meaning of 0 by `MatchComplete`) |
| PlyLex.MatchComplete | goparser.py:53-104 | conversely, when a non-empty prefix at the position is in the regex's language, `MatchLength` is nonzero, and for every pattern but an alternation at least that long: 0 means no prefix matches, and the match is Python's greedy one (with `MatchInLanguage`, the longest prefix in the language) |
| PlyLex.RunAtLeast | goparser.py:95-104 | a run of n class characters at a position is no longer than the greedy run measured there |
| PlyLex.MatchInLanguage | goparser.py:53-104 | a nonzero `MatchLength` measures a string of the regex's language, stated independently by `InLanguage`: the literal itself, one of the alternation's words, `[a-zA-Z_][a-zA-Z_0-9]*`, a digit or newline run, or `[-+]?[0-9]*\.[0-9]+` |
| PlyLex.FirstMatchFrom | goparser.py:80-110 | the master regex picks the first rule in table order whose pattern matches, with a non-empty match; every earlier rule fails to match; no match means no rule matches |
| PlyLex.FirstMatchAt | goparser.py:80-110 | if rule k matches and no earlier rule does, the master regex chooses rule k with its match length |
| PlyLex.FirstMatchAfter | goparser.py:80-110 | the same, where the earlier rules cannot start with the current character |
| PlyLex.ChainOrdered | goparser.py:44-62 | a table built in master order (function rules by line, then string rules by non-increasing regex length, ties by line) is ordered pairwise |
| PlyLex.CoverMatches | goparser.py:53 | when an entry's pattern covers a later entry's pattern, every match of the later one is also a match of the earlier one |
| PlyLex.ChosenIsLive | goparser.py:80-110 | the chosen entry is never one covered by an earlier entry |
| PlyLex.Inner | goparser.py:87 | `t.value[1:-1]` drops the first and last character, and leaves the empty string when fewer than two characters remain |
| PlyLex.Apply | goparser.py:80-108 | a rule's action emits a token at the current line and position, of a declared type when the rule is a function rule; only `t_newline` discards the match |
| PlyLex.ApplyKind | goparser.py:95-98 | the type of an emitted token is one the rule can give: its own name, or a value of `reserved` for `t_ID` |
| PlyLex.Next | goparser.py:110-114 | one `lexer.token()` pull: a token lies inside the unread input and the pull moves past it; at the end of input the position is one past the end; the line counter never decreases |
| PlyLex.Lexer.constructor | goparser.py:117 | a new lexer has the rule table, no input given yet (`lexdata` None), position 0, line 1 |
| PlyLex.Lexer.Input | golangparser.py:89 | `lexer.input(s)` marks input as given, replaces the data and rewinds the position, keeping the line counter |
| PlyLex.Lexer.Token | golangparser.py:92 | once input is given, the pull loop returns what `Next` gives for the old state; before any `input()` it raises PLY's RuntimeError with the position moved one past; the new position and line are those it reports |
| PlyLex.Lexer.Attempt | goparser.py:110-114 | one iteration of the pull loop either moves forward without changing what the pull will return, or returns that pull |
| PlyLex.Lexer.Fire | goparser.py:80-108 | when a rule is the first to match, running its action either moves past the match (`t_newline`) without changing what the pull returns, or returns that pull |
| PlyLex.Tokenize | golangparser.py:91-95 | the `while True: tok = lexer.token()` loop collects exactly the tokens and the stop of `Lex`, the pull-until-None run from position 0 and line 1 that `LexFrom` defines |
| PlyLex.NextMatched | goparser.py:80-108 | a matched rule's effect decides the pull: a token, an error, or a continued scan after a discard |
| PlyLex.NextUnmatched | goparser.py:112-114 | a character no rule matches is skipped by exactly one position, with no token and the line unchanged |
| PlyLex.NextEmits | goparser.py:44-62 | a string rule emits a token of its own name whose value is the matched text |
| PlyLex.NextYields | goparser.py:80-104 | a token the rule's action yields is returned, and the position moves past the match |
| PlyLex.NextThrows | goparser.py:97 | an error from the rule's action ends the pull with that error; with `Checked`, PLY's check on a returned token, that is the unknown-type error naming the rule, the type and the position (see `GoLexer.WhileExample`) |
| PlyLex.NextSkips | goparser.py:106-108 | a discarding rule continues the scan after the match, with the lines it counted added |
| PlyLex.NextCountsLines | golangparser.py:60-62 | a newline run of length n is discarded and adds n to the line counter |
| PlyLex.NextEmitsText | goparser.py:44-62 | when a string rule matches a given text, the token is that rule's name with that text as its value |
| PlyLex.IgnoredSkipped | goparser.py:110 | a `t_ignore` character is skipped by one position, with no token |
| PlyLex.IllegalSkipped | goparser.py:112-114 | a character that no rule matches is skipped by `t_error`'s `skip(1)`, and lexing resumes at the next character |
| PlyLex.LexFromProduced | golangparser.py:91-95 | a produced token heads the driver's token list, followed by the rest of the run |
| PlyLex.LexFromAppend | golangparser.py:91-95 | the driver's token list is extended one pull at a time, in order |
| PlyLex.TokenCountBound | goparser.py:112-114 | from any position, the number of tokens is at most the number of unread characters |
| PlyLex.LexTokenCountBound | goparser.py:112-114 | no input yields more tokens than it has characters, over the run `Lex` |
| PlyLex.TokensInSourceOrder | goparser.py:110-114 | the tokens of a run `LexFrom` lie inside the input and their positions strictly increase |
| PlyLex.KindsDeclared | goparser.py:5-42 | when every string rule's name is declared, every token type of a complete run is in `tokens` |
| PlyLex.NextKindDeclared | goparser.py:5-42 | the same for one pull |
| PlyLex.NextKindLive | goparser.py:44-62 | the type of a pulled token comes from a table entry that is not covered by an earlier one |
| PlyLex.KindsLive | goparser.py:44-62 | every token type of a run comes from an entry that is not covered by an earlier one |
| PlyLex.LineNeverAdvances | goparser.py:106-110 | when `\n` is in `t_ignore`, a pull never changes the line counter |
| PlyLex.AllOnLine | goparser.py:106-110 | when `\n` is in `t_ignore`, every token of a run is on the starting line |
| PlyLex.DecimalText | goparser.py:101-104 | the decimal digits of a natural number form a non-empty digit string |
| PlyLex.DecimalRoundTrip | goparser.py:103 | `int()`, modelled as `DecimalValue`, of the decimal text of n is n |
| PlyLex.DecimalBound | goparser.py:103 | `DecimalValue` of k digits is less than 10^k |
| PlyLex.LeadingZero | goparser.py:103 | a leading zero does not change `DecimalValue` |
| GoLexer.MasterOrder | goparser.py:44-108 | the table is in PLY's master order; EQUALS (`\=`) and DEQUALS (`==`) have equal regex length, and EQUALS comes first by line |
| GoLexer.SpecShape | goparser.py:5-62 | every string rule's name is in `tokens`, and `\n` is in `t_ignore` |
| GoLexer.SemicolonToken | goparser.py:80-82 | `;` is one SEMICOLON token whose value is `;`: `t_SEMICOLON` returns the token unchanged |
| GoLexer.IdentifierToken | goparser.py:95-98 | an identifier not starting with `case` is one token whose value is its text: type `reserved[word]` for a reserved word, else ID (`ReservedKind`); `while` raises, because WHILE is not in `tokens` |
| GoLexer.ReservedKindDeclared | goparser.py:64-78 | a word's `reserved.get(word, 'ID')` type (`ReservedKind`) is in `tokens` exactly when the word is not `while` |
| GoLexer.CaseToken | goparser.py:90-93 | `case` is taken by `t_SWITCH_CASE` (type CASE) before `t_ID`, even as the prefix of a longer word |
| GoLexer.NumberToken | goparser.py:101-104 | a maximal digit run not followed by `.digit` is one NUMBER whose value is the decimal value of the digits, when it has at most 4300 digits (CPython's default `int()` limit, `ConvertInt`); a longer run raises ValueError |
| GoLexer.FloatToken | goparser.py:85-88 | a decimal literal is one FLOATINGNUMBER valued by its text without the first and last character; with no digit left, `float` raises |
| GoLexer.FloatSelected | goparser.py:85-88 | the decimal-literal rule is chosen whenever it matches |
| GoLexer.EqualsToken | goparser.py:55-56 | `=` is always one EQUALS of one character, even when followed by `=` |
| GoLexer.GreaterTokens | goparser.py:58-59 | `>=` is one GREATERTHANEQ; a `>` not followed by `=` is one GREATERTHAN |
| GoLexer.LessTokens | goparser.py:57-60 | `<=` is one LESSTHANEQ; a `<` not followed by `=` is one LESSTHAN |
| GoLexer.DoubleEqualsIsTwoEquals | goparser.py:55-56 | `==` lexes as two EQUALS tokens, one character each |
| GoLexer.DeadEntries | goparser.py:53-56 | BOOLEAN is covered by `t_ID` and DEQUALS by EQUALS: neither entry can be chosen |
| GoLexer.DeadKinds | goparser.py:53-56 | no entry that can be chosen gives the type DEQUALS or BOOLEAN |
| GoLexer.NeverDoubleEqualsOrBoolean | goparser.py:53-56 | no input yields a DEQUALS or a BOOLEAN token |
| GoLexer.AllOnLineOne | goparser.py:106-110 | every token of every input is on line 1 |
| GoLexer.KindsInTokens | goparser.py:5-42 | every token type of every input is declared in `tokens` |
| GoLexer.GreaterEqualExample | goparser.py:57-60 | `x>=10` lexes as ID `x`, GREATERTHANEQ `>=`, NUMBER 10 |
| GoLexer.TrueExample | goparser.py:53 | `true` lexes as ID, not BOOLEAN |
| GoLexer.WhileExample | goparser.py:65 | `while` raises the unknown-type error WHILE at position 0, after no tokens |
| GoLexer.FloatExample | goparser.py:85-88 | `3.14` is one FLOATINGNUMBER valued `float(".1")` |
| GoLexer.ShortFloatExample | goparser.py:85-88 | `.5` raises, because `float("")` fails |
| GolangLexer.MasterOrder | golangparser.py:36-62 | the table is in PLY's master order; DOUBLEEQUALS comes before EQUALS and NOTYPEASSIGNMENT before COLON, by regex length |
| GolangLexer.SpecShape | golangparser.py:16-47 | every string rule's name is in `tokens` |
| GolangLexer.IdentifierToken | golangparser.py:32-53 | an identifier is one token whose value is its text and whose type is `reserved[word]` for a reserved word; any other word raises, because ID is not in `tokens` |
| GolangLexer.IdNotDeclared | golangparser.py:16-30 | ID is not in `tokens` |
| GolangLexer.NumberToken | golangparser.py:55-58 | a maximal digit run is one NUMBER valued by the decimal value of the digits, when it has at most 4300 digits (CPython's default `int()` limit); a longer run raises ValueError |
| GolangLexer.NumberAt | golangparser.py:55-58 | the same, for a digit run with given ends, including the ValueError past 4300 digits |
| GolangLexer.NewlineRun | golangparser.py:60-62 | a run of k newlines yields no token and adds exactly k to the line counter |
| GolangLexer.NewlineSelected | golangparser.py:60-62 | at a newline, `t_newline` is chosen for the whole newline run |
| GolangLexer.BlankSkipped | golangparser.py:83 | a space or tab yields no token and leaves the line unchanged |
| GolangLexer.EqualsTokens | golangparser.py:42-43 | `==` is one DOUBLEEQUALS, never two EQUALS; a lone `=` is EQUALS |
| GolangLexer.ColonTokens | golangparser.py:44-47 | `:=` is one NOTYPEASSIGNMENT, not COLON then EQUALS; a lone `:` is COLON |
| GolangLexer.PlusAt | golangparser.py:36 | `+` is one PLUS |
| GolangLexer.TimesAt | golangparser.py:38 | `*` is one TIMES |
| GolangLexer.ReservedWordAt | golangparser.py:49-53 | a maximal reserved word is one token typed by `reserved`, valued by its text |
| GolangLexer.KindsInTokens | golangparser.py:16-30 | every token type of every input is one of the listed names or a value of `reserved` |
| GolangLexer.ArithmeticExample | golangparser.py:77-78 | `3 + 4 * 10`, the first line of the sample string `data` (which the program defines but never lexes), lexes as NUMBER 3, PLUS, NUMBER 4, TIMES, NUMBER 10 at positions 0, 2, 4, 6, 8 |
| GolangLexer.IdentifierExample | golangparser.py:52 | `x` raises the unknown-type error ID |
| GolangLexer.LineExample | golangparser.py:60-62 | after two newlines, `for` is a FOR token on line 3 |
| GoGrammar.ReduceDeclaration | goparser.py:135-145 | a declaration is a three-element tuple headed `'declaration'` and the keyword; with fewer than two values it raises |
| GoGrammar.ReduceStatement | goparser.py:192-206 | a statement raises only with no values, or with the single value `"switch"` (no `p[3]`) |
| GoGrammar.ReduceExpression | goparser.py:208-226 | an expression action raises only with no values |
| GoGrammar.ReduceAssignment | goparser.py:228-234 | an assignment action always completes, and leaves a value other than None only for four values |
| GoGrammar.ReduceFunctionDeclaration | goparser.py:236-240 | a function declaration completes whenever it has a right-hand side |
| GoGrammar.RaisesExactly | goparser.py:120-252 | an action raises exactly when `p` is shorter than the highest index it reads on every path (`ReadsUpTo`), when `p_statements` or `p_case_statements` concatenates a list with a non-list (the only TypeError), or when `p_statement` reads `p[3]` after a lone `"switch"` |
| GoGrammar.ReductionsComplete | goparser.py:120-252 | every action completes on a right-hand side of one of its productions' lengths, given a list where a list is concatenated and no bare `"switch"` under `statement` |
| GoGrammar.DeclarationAlwaysPair | goparser.py:135-145 | no declaration production has two symbols, so every declaration is `('declaration', keyword, (p[2], p[3]))` |
| GoGrammar.AssignmentNone | goparser.py:228-234 | every assignment production has three symbols, so `p[0]` stays None |
| GoGrammar.StatementPassesFirst | goparser.py:192-206 | no statement production reaches the if or if-else tuples; every statement takes its first value, the keyword for if and for |
| GoGrammar.ExpressionShapes | goparser.py:208-226 | three-symbol expressions give `(p[2], p[1], p[3])` (`(op, left, right)`, or `(inner, '(', ')')`); ID and NUMBER pass through |
| GoGrammar.SwitchStatementKept | goparser.py:154-158 | `ReduceSwitchStatement` builds `('switch', subject, cases)` from a switch production, and the tuple passes unchanged through `statement : switch_statement` |
| GoGrammar.SwitchKeepsCases | goparser.py:154-173 | a switch over a `case_statements` derivation of `CASE n : body` cases (`ReduceSwitchStatement`, `ReduceCaseStatements`, `ReduceCaseStatement`) keeps the subject and, in its third component, the list of `('case', n, body)` for every case, in source order |
| GoGrammar.UnitPassesValue | goparser.py:120-132 | one-symbol `program`, `type_specifier`, `parameters` and `parameter` (`ReduceProgram`, `ReduceTypeSpecifier`, `ReduceParameters`, `ReduceParameter`) pass their value up |
| GoGrammar.ParameterKeepsName | goparser.py:248-252 | `ReduceParameter` on `parameter : ID type_specifier` keeps the name and drops the type |
| GoGrammar.EmptyParameterIsNone | goparser.py:187-190 | `ReduceEmpty` leaves None for the empty production, and `parameter : empty` passes that None up |
| GoGrammar.FunctionDeclarationForgets | goparser.py:236-240 | two function declarations give the same value exactly when their keyword values agree: the name and the parameters are dropped |
| GoGrammar.ListDerivationKeepsItems | goparser.py:161-185 | a `statements` or `case_statements` derivation, reduced by `ReduceList` (what `ReduceStatements` and `ReduceCaseStatements` run), builds the list of its items, in source order and with one element per item |
| GoGrammar.IdsKeepLast | goparser.py:147-151 | an `ids` derivation, reduced by `ReduceIds` at each step, keeps only its last name |
| GoGrammar.ParametersKeepFirst | goparser.py:242-246 | a `parameters` derivation, reduced by `ReduceParameters` at each step, keeps only its first parameter |
| GoGrammar.ExprRoundTrip | goparser.py:208-226 | the tuple an expression derivation builds never fails and determines the expression tree: `DecodeExpr` reads the tree back |

## Left out

- PLY's LALR table construction and conflict resolution (`yacc.yacc()`). The model applies each action to given right-hand-side values, and states derivations explicitly. The expression grammar has no precedence declaration, so how yacc groups `a + b * c` is not modelled.
- `lex.lex()` and `yacc.yacc()` building module-level singletons. These are library glue: the rule tables are Dafny constants, and a lexer is made with the `Lexer` constructor.
- PlyLex.Apply: the value of a FLOATINGNUMBER is kept as the text handed to `float(t.value[1:-1])`, not as a floating-point number. `float()` raises exactly when that text has no digit, because the pattern admits only digits and one dot.
- `\d` and `[0-9]` cover ASCII digits only. Python's `\d` on `str` also matches other Unicode decimal digits.
- The interactive `t_eof` of `golangparser.py`, which reads console input and restarts the lexer. The model ends the run at the end of the input, as PLY does without `t_eof`.
- Reading `input.txt` and printing tokens in `golangparser.py`.
- The print in each `t_error`, and `p_error` (goparser.py:254-255): its print, the AttributeError it raises when PLY passes None at the end of input, and PLY's default recovery after it returns (discarding the lookahead and popping states in search of an `error` production, which this grammar does not have). All of it belongs to the yacc engine, which is not modelled.
- goparser.py's demo: its sample program, its token-printing loop (modelled as `Tokenize`, without the prints) and its `parser.parse` Accept/Reject driver.
- The pattern that `@lex.TOKEN(identifier)` attaches to `t_ID` in `golangparser.py` matches the same words as its docstring pattern. The model uses one identifier pattern for both.
- PlyLex.Lexer.Token: `lexpos`, `lineno` and `lexdata` are fields of one lexer object. `LexToken` objects are values, so `t.lexer` aliasing is not modelled.
