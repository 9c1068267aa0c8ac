/**
 * The lexer of goparser.py: its `tokens`, `reserved`, rule table and `t_ignore`,
 * with the rules in the order PLY tries them, and what that order makes of the
 * input.  The quirks are kept: newlines are in `t_ignore`, so `t_newline` never
 * runs and every token is on line 1; the function rule `t_ID` comes before the
 * string rule `t_BOOLEAN`, so `true` and `false` are identifiers; `t_EQUALS` and
 * `t_DEQUALS` have regexes of the same length and `t_EQUALS` is defined first, so
 * `==` is two `EQUALS`; `while` is reserved as `WHILE`, a type missing from
 * `tokens`, so lexing it raises; the function rule `t_SWITCH_CASE` (`case`) comes
 * before `t_ID`, so `cases` is `CASE` followed by the identifier `s`.
 */
module GoLexer {
  import opened PyValue
  import opened PlyLex

  /** `tokens` (goparser.py:5-42). */
  const Tokens: set<string> := {
    "NUMBER", "MINUS", "PLUS", "DIVIDE", "MUL", "LPAREN", "RPAREN", "IF", "ELSE",
    "SWITCH", "CASE", "LBRACE", "RBRACE", "EQUALS", "DEQUALS", "LESSTHANEQ",
    "GREATERTHANEQ", "LESSTHAN", "GREATERTHAN", "INT", "STRING", "FLOAT", "BOOL",
    "COLON", "SEMICOLON", "VAR", "CONST", "FOR", "FUNCTION", "ID", "FLOATINGNUMBER",
    "BOOLEAN", "COMMA", "LSQBRACE", "RSQBRACE", "ARRAY"
  }

  /** `reserved` (goparser.py:64-78). */
  const Reserved: map<string, string> := map[
    "while" := "WHILE", "float32" := "FLOAT", "func" := "FUNCTION", "if" := "IF",
    "else" := "ELSE", "int" := "INT", "string" := "STRING", "var" := "VAR",
    "const" := "CONST", "switch" := "SWITCH", "for" := "FOR", "case" := "CASE",
    "bool" := "BOOL"
  ]

  /**
   * The master regex, alternative by alternative: the function rules in definition
   * order, then the string rules by decreasing regex length, equal lengths in
   * definition order.  Entry 13 (`EQUALS`, regex `\=`) precedes entry 14 (`DEQUALS`,
   * regex `==`): both regexes have length 2 and `t_EQUALS` is defined first.
   * `RuleAt(i)` is alternative `i`.
   */
  const RuleCount := 25

  function RuleAt(i: nat): Rule
    requires i < RuleCount
  {
    match i
    case 0  => Rule("SEMICOLON", ";", 80, Literal(";"), Keep)
    case 1  => Rule("FLOATINGNUMBER", "[-+]?[0-9]*\\.[0-9]+", 85, Decimal, ToFloat)
    case 2  => Rule("SWITCH_CASE", "case", 90, Literal("case"), SetKind("CASE"))
    case 3  => Rule("ID", "[a-zA-Z_][a-zA-Z_0-9]*", 95, Identifier, LookUpReserved)
    case 4  => Rule("NUMBER", "\\d+", 101, Digits, ToInt)
    case 5  => Rule("newline", "\\n+", 106, Newlines, CountLines)
    case 6  => Rule("BOOLEAN", "true|false", 53, Choice(["true", "false"]), Emit)
    case 7  => Rule("PLUS", "\\+", 44, Literal("+"), Emit)
    case 8  => Rule("MUL", "\\*", 46, Literal("*"), Emit)
    case 9  => Rule("LPAREN", "\\(", 48, Literal("("), Emit)
    case 10 => Rule("RPAREN", "\\)", 49, Literal(")"), Emit)
    case 11 => Rule("LBRACE", "\\{", 51, Literal("{"), Emit)
    case 12 => Rule("RBRACE", "\\}", 52, Literal("}"), Emit)
    case 13 => Rule("EQUALS", "\\=", 55, Literal("="), Emit)
    case 14 => Rule("DEQUALS", "==", 56, Literal("=="), Emit)
    case 15 => Rule("GREATERTHANEQ", ">=", 59, Literal(">="), Emit)
    case 16 => Rule("LESSTHANEQ", "<=", 60, Literal("<="), Emit)
    case 17 => Rule("LSQBRACE", "\\[", 61, Literal("["), Emit)
    case 18 => Rule("RSQBRACE", "\\]", 62, Literal("]"), Emit)
    case 19 => Rule("MINUS", "-", 45, Literal("-"), Emit)
    case 20 => Rule("DIVIDE", "/", 47, Literal("/"), Emit)
    case 21 => Rule("COLON", ":", 50, Literal(":"), Emit)
    case 22 => Rule("COMMA", ",", 54, Literal(","), Emit)
    case 23 => Rule("LESSTHAN", "<", 57, Literal("<"), Emit)
    case _  => Rule("GREATERTHAN", ">", 58, Literal(">"), Emit)    // 24
  }

  const Rules: seq<Rule> := seq(RuleCount, i requires 0 <= i < RuleCount => RuleAt(i))

  /** `t_ignore = ' \t\n'` (goparser.py:110). */
  const Ignore: set<char> := {' ', '\t', '\n'}

  const Spec: LexerSpec := LexerSpec(Tokens, Reserved, Rules, Ignore)

  // ---------------------------------------------------------------- the table

  /** The table is in the order PLY builds the master regex in. */
  lemma {:induction false} MasterOrder()
    ensures InMasterOrder(Rules)
    ensures Rules[13].name == "EQUALS" && Rules[14].name == "DEQUALS" && |Rules[13].regex| == |Rules[14].regex|
  {
    // The order is shown on neighbours only, then extended to all pairs by
    // ChainOrdered; this is much cheaper than comparing every pair directly.
    // ChainFrom unfolds one level per use, so the chain is built from the last
    // entry back to the first, one neighbour pair Precedes(Rules[i], Rules[i + 1])
    // per line.
    assert ChainFrom(Rules, 24);
    assert ChainFrom(Rules, 23);
    assert ChainFrom(Rules, 22);
    assert ChainFrom(Rules, 21);
    assert ChainFrom(Rules, 20);
    assert ChainFrom(Rules, 19);
    assert ChainFrom(Rules, 18);
    assert ChainFrom(Rules, 17);
    assert ChainFrom(Rules, 16);
    assert ChainFrom(Rules, 15);
    assert ChainFrom(Rules, 14);
    assert ChainFrom(Rules, 13);
    assert ChainFrom(Rules, 12);
    assert ChainFrom(Rules, 11);
    assert ChainFrom(Rules, 10);
    assert ChainFrom(Rules, 9);
    assert ChainFrom(Rules, 8);
    assert ChainFrom(Rules, 7);
    assert ChainFrom(Rules, 6);
    assert ChainFrom(Rules, 5);
    assert ChainFrom(Rules, 4);
    assert ChainFrom(Rules, 3);
    assert ChainFrom(Rules, 2);
    assert ChainFrom(Rules, 1);
    assert ChainFrom(Rules, 0);
    ChainOrdered(Rules, 0);
  }

  /** Every string rule names a declared token, and `\n` is ignored before `t_newline` could see it. */
  lemma {:induction false} SpecShape()
    ensures StringRulesDeclared(Spec)
    ensures NewlinesIgnored(Spec)
  {
    forall i | 0 <= i < |Rules| && Rules[i].action.Emit? ensures Rules[i].name in Tokens {
      assert 6 <= i;
    }
    forall i | 0 <= i < |Rules| && Rules[i].action.CountLines? ensures Rules[i].pattern == Newlines {
      assert i == 5;
    }
  }

  // ---------------------------------------------------------------- what the rules make of the input

  /**
   * t_ID: an identifier not starting with `case` becomes one token of type
   * reserved.get(word, 'ID') whose value is the word, except `while`, whose type
   * `WHILE` is not in `tokens`: PLY raises.
   */
  lemma {:induction false} IdentifierToken(data: string, pos: nat, line: nat)
    requires pos < |data| && IsIdentStart(data[pos]) && !PrefixAt("case", data, pos)
    ensures var end := WordEnd(data, pos);
            var word := data[pos..end];
            Next(Spec, data, pos, line) ==
              if word == "while" then Raised(UnknownTokenType("ID", "WHILE", pos), end, line)
              else Produced(Token(if word in Reserved then Reserved[word] else "ID", Str(word), line, pos), end, line)
  {
    var end := WordEnd(data, pos);
    var word := data[pos..end];
    assert MatchLength(Rules[0].pattern, data, pos) == 0;
    assert MatchLength(Rules[1].pattern, data, pos) == 0;
    assert MatchLength(Rules[2].pattern, data, pos) == 0;
    FirstMatchAt(Rules, data, pos, 3);
    NextMatched(Spec, data, pos, line);
    var kind := ReservedKind(Reserved, word);
    assert Apply(Spec, Rules[3], word, line, pos) == Checked(Spec, Rules[3], Token(kind, Str(word), line, pos));
    ReservedKindDeclared(word);
  }

  /** Of the types `t_ID` can assign, only `WHILE` is missing from `tokens`. */
  lemma {:induction false} ReservedKindDeclared(word: string)
    ensures ReservedKind(Reserved, word) in Tokens <==> word != "while"
  {
    if word in Reserved {
      assert word in ["while", "float32", "func", "if", "else", "int", "string", "var", "const",
                      "switch", "for", "case", "bool"];
    }
  }

  /** t_SWITCH_CASE, tried before t_ID: `case` at the start of any word is a CASE token of its own. */
  lemma {:induction false} CaseToken(data: string, pos: nat, line: nat)
    requires PrefixAt("case", data, pos)
    ensures Next(Spec, data, pos, line) == Produced(Token("CASE", Str("case"), line, pos), pos + 4, line)
  {
    PrefixAtSlice("case", data, pos);
    assert data[pos] == 'c';
    assert MatchLength(Rules[0].pattern, data, pos) == 0;
    assert MatchLength(Rules[1].pattern, data, pos) == 0;
    FirstMatchAt(Rules, data, pos, 2);
    NextMatched(Spec, data, pos, line);
  }

  /** t_SEMICOLON, the first alternative: `;` is a SEMICOLON token, returned as it is. */
  lemma {:induction false} SemicolonToken(data: string, pos: nat, line: nat)
    requires pos < |data| && data[pos] == ';'
    ensures Next(Spec, data, pos, line) == Produced(Token("SEMICOLON", Str(";"), line, pos), pos + 1, line)
  {
    assert PrefixAt(";", data, pos);
    FirstMatchAt(Rules, data, pos, 0);
    PrefixAtSlice(";", data, pos);
    NextYields(Spec, data, pos, line, 0, 1, Token("SEMICOLON", Str(";"), line, pos));
  }

  /**
   * t_NUMBER: a digit run not followed by `.` and a digit (which t_FLOATINGNUMBER,
   * tried first, would take) is one NUMBER token whose value is its decimal value;
   * a run longer than `int()` converts raises ValueError.
   */
  lemma {:induction false} NumberToken(data: string, pos: nat, line: nat)
    requires pos < |data| && IsDigit(data[pos])
    requires var end := DigitsEnd(data, pos);
             !(end + 1 < |data| && data[end] == '.' && IsDigit(data[end + 1]))
    ensures var end := DigitsEnd(data, pos);
            Next(Spec, data, pos, line) ==
              if end - pos <= IntMaxStrDigits then Produced(Token("NUMBER", Int(DecimalValue(data[pos..end])), line, pos), end, line)
              else Raised(IntConversion(data[pos..end], pos), end, line)
  {
    var end := DigitsEnd(data, pos);
    assert MatchLength(Rules[0].pattern, data, pos) == 0;
    assert MatchLength(Rules[1].pattern, data, pos) == 0 by {
      assert !IsSign(data[pos]);
      if end < |data| && data[end] == '.' {
        assert RunLength(data, end + 1, DigitChar) == 0;
      }
    }
    assert MatchLength(Rules[2].pattern, data, pos) == 0;
    assert MatchLength(Rules[3].pattern, data, pos) == 0;
    FirstMatchAt(Rules, data, pos, 4);
    NextMatched(Spec, data, pos, line);
  }

  /**
   * t_FLOATINGNUMBER: wherever `[-+]?[0-9]*\.[0-9]+` matches it wins (only `;` is
   * tried before it).  The value is float(t.value[1:-1]): the match without its first
   * and last character, which float() refuses when no digit is left (`.5`, `1.5`).
   */
  lemma {:induction false} FloatToken(data: string, pos: nat, line: nat)
    requires pos < |data| && MatchLength(Decimal, data, pos) > 0
    ensures var end := pos + MatchLength(Decimal, data, pos);
            var inner := Inner(data[pos..end]);
            Next(Spec, data, pos, line) ==
              if HasDigit(inner) then Produced(Token("FLOATINGNUMBER", Float(inner), line, pos), end, line)
              else Raised(FloatConversion(inner, pos), end, line)
  {
    var n := MatchLength(Decimal, data, pos);
    var inner := Inner(data[pos..pos + n]);
    FloatSelected(data, pos);
    if HasDigit(inner) {
      NextYields(Spec, data, pos, line, 1, n, Token("FLOATINGNUMBER", Float(inner), line, pos));
    } else {
      NextThrows(Spec, data, pos, line, 1, n, FloatConversion(inner, pos));
    }
  }

  /** Only `;` is tried before t_FLOATINGNUMBER, and a decimal never starts with `;`. */
  lemma {:induction false} FloatSelected(data: string, pos: nat)
    requires pos < |data| && MatchLength(Decimal, data, pos) > 0
    ensures FirstMatch(Rules, data, pos) == Matched(1, MatchLength(Decimal, data, pos))
  {
    assert data[pos] == '.' || IsSign(data[pos]) || IsDigit(data[pos]);
    assert MatchLength(Rules[0].pattern, data, pos) == 0;
    FirstMatchAt(Rules, data, pos, 1);
  }

  /** No rule before EQUALS (entry 13) can match at a `=`. */
  lemma {:induction false} EqualsCandidates()
    ensures NoneStartWith(Rules, '=', 0, 13)
  {
  }

  /** At a `>` only GREATERTHANEQ (entry 15) and GREATERTHAN (entry 24) can match. */
  lemma {:induction false} GreaterCandidates()
    ensures NoneStartWith(Rules, '>', 0, 15) && NoneStartWith(Rules, '>', 16, 24)
  {
  }

  /** At a `<` only LESSTHANEQ (entry 16) and LESSTHAN (entry 23) can match. */
  lemma {:induction false} LessCandidates()
    ensures NoneStartWith(Rules, '<', 0, 16) && NoneStartWith(Rules, '<', 17, 23)
  {
  }

  /** `=` is always a single EQUALS: entry 13 is tried before DEQUALS and matches wherever DEQUALS would. */
  lemma {:induction false} EqualsToken(data: string, pos: nat, line: nat)
    requires pos < |data| && data[pos] == '='
    ensures Next(Spec, data, pos, line) == Produced(Token("EQUALS", Str("="), line, pos), pos + 1, line)
  {
    EqualsCandidates();
    FirstMatchAfter(Rules, data, pos, 13);
    NextEmitsText(Spec, data, pos, line, 13, "EQUALS", "=");
  }

  /** `>=` (regex length 2) is tried before `>` (length 1). */
  lemma {:induction false} GreaterTokens(data: string, pos: nat, line: nat)
    requires pos < |data| && data[pos] == '>'
    ensures Next(Spec, data, pos, line) ==
              if pos + 1 < |data| && data[pos + 1] == '=' then Produced(Token("GREATERTHANEQ", Str(">="), line, pos), pos + 2, line)
              else Produced(Token("GREATERTHAN", Str(">"), line, pos), pos + 1, line)
  {
    GreaterCandidates();
    if pos + 1 < |data| && data[pos + 1] == '=' {
      FirstMatchAfter(Rules, data, pos, 15);
      NextEmitsText(Spec, data, pos, line, 15, "GREATERTHANEQ", ">=");
    } else {
      NoMatchBetween(Rules, data, pos, 0, 15);
      NoMatchBetween(Rules, data, pos, 16, 24);
      assert MatchLength(Rules[15].pattern, data, pos) == 0;
      FirstMatchAt(Rules, data, pos, 24);
      NextEmitsText(Spec, data, pos, line, 24, "GREATERTHAN", ">");
    }
  }

  /** `<=` (regex length 2) is tried before `<` (length 1). */
  lemma {:induction false} LessTokens(data: string, pos: nat, line: nat)
    requires pos < |data| && data[pos] == '<'
    ensures Next(Spec, data, pos, line) ==
              if pos + 1 < |data| && data[pos + 1] == '=' then Produced(Token("LESSTHANEQ", Str("<="), line, pos), pos + 2, line)
              else Produced(Token("LESSTHAN", Str("<"), line, pos), pos + 1, line)
  {
    LessCandidates();
    if pos + 1 < |data| && data[pos + 1] == '=' {
      FirstMatchAfter(Rules, data, pos, 16);
      NextEmitsText(Spec, data, pos, line, 16, "LESSTHANEQ", "<=");
    } else {
      NoMatchBetween(Rules, data, pos, 0, 16);
      NoMatchBetween(Rules, data, pos, 17, 23);
      assert MatchLength(Rules[16].pattern, data, pos) == 0;
      FirstMatchAt(Rules, data, pos, 23);
      NextEmitsText(Spec, data, pos, line, 23, "LESSTHAN", "<");
    }
  }

  // ---------------------------------------------------------------- consequences for whole inputs

  /** `==` is two EQUALS tokens, one per character. */
  lemma {:induction false} DoubleEqualsIsTwoEquals(data: string, pos: nat, line: nat)
    requires pos + 1 < |data| && data[pos] == '=' && data[pos + 1] == '='
    ensures var rest := LexFrom(Spec, data, pos + 2, line);
            LexFrom(Spec, data, pos, line) ==
              Outcome([Token("EQUALS", Str("="), line, pos), Token("EQUALS", Str("="), line, pos + 1)] + rest.tokens, rest.stop)
  {
    var first, second := Token("EQUALS", Str("="), line, pos), Token("EQUALS", Str("="), line, pos + 1);
    EqualsToken(data, pos, line);
    EqualsToken(data, pos + 1, line);
    LexFromProduced(Spec, data, pos, line, first, pos + 1, line);
    LexFromAppend(Spec, data, pos, line, [first], pos + 1, line, second, pos + 2, line);
    assert [first] + [second] == [first, second];
  }

  /** BOOLEAN (entry 6) is covered by t_ID and DEQUALS (entry 14) by EQUALS: neither is ever chosen. */
  lemma {:induction false} DeadEntries()
    ensures !Live(Rules, 6) && !Live(Rules, 14)
  {
    assert Covers(Rules[3].pattern, Rules[6].pattern);
    assert Covers(Rules[13].pattern, Rules[14].pattern);
  }

  /** No live entry can give a token the type DEQUALS or BOOLEAN. */
  lemma {:induction false} DeadKinds(k: nat)
    requires Live(Rules, k)
    ensures "DEQUALS" !in Kinds(Spec, Rules[k]) && "BOOLEAN" !in Kinds(Spec, Rules[k])
  {
    DeadEntries();
    forall w | w in Reserved ensures Reserved[w] != "DEQUALS" && Reserved[w] != "BOOLEAN" {
    }
  }

  /** No input ever yields a DEQUALS or a BOOLEAN token. */
  lemma {:induction false} NeverDoubleEqualsOrBoolean(data: string)
    ensures forall t :: t in Lex(Spec, data).tokens ==> t.kind != "DEQUALS" && t.kind != "BOOLEAN"
  {
    var ts := LexFrom(Spec, data, 0, 1).tokens;
    KindsLive(Spec, data, 0, 1);
    forall i | 0 <= i < |ts| ensures ts[i].kind != "DEQUALS" && ts[i].kind != "BOOLEAN" {
      var k: nat :| Live(Spec.rules, k) && ts[i].kind in Kinds(Spec, Spec.rules[k]);
      DeadKinds(k);
    }
  }

  /** `\n` is in `t_ignore`, so every token of any input is on line 1. */
  lemma {:induction false} AllOnLineOne(data: string)
    ensures forall t :: t in Lex(Spec, data).tokens ==> t.line == 1
  {
    SpecShape();
    AllOnLine(Spec, data, 0, 1);
  }

  /** Every token type is declared in `tokens`. */
  lemma {:induction false} KindsInTokens(data: string)
    ensures forall t :: t in Lex(Spec, data).tokens ==> t.kind in Tokens
  {
    SpecShape();
    KindsDeclared(Spec, data, 0, 1);
  }


  // ---------------------------------------------------------------- examples

  /** `x>=10` is ID, GREATERTHANEQ, NUMBER: `>=` is tried before `>`. */
  lemma {:induction false} GreaterEqualExample(data: string)
    requires data == "x>=10"
    ensures Lex(Spec, data) ==
              Outcome([Token("ID", Str("x"), 1, 0), Token("GREATERTHANEQ", Str(">="), 1, 1), Token("NUMBER", Int(10), 1, 3)], EndOfInput)
  {
    var id, ge, num := Token("ID", Str("x"), 1, 0), Token("GREATERTHANEQ", Str(">="), 1, 1), Token("NUMBER", Int(10), 1, 3);
    GreaterEqualPulls(data);
    LexFromProduced(Spec, data, 0, 1, id, 1, 1);
    LexFromAppend(Spec, data, 0, 1, [id], 1, 1, ge, 3, 1);
    LexFromAppend(Spec, data, 0, 1, [id] + [ge], 3, 1, num, 5, 1);
    assert [id] + [ge] + [num] + [] == [id, ge, num];
  }

  /** The four pulls of `lexer.token()` on `x>=10`. */
  lemma {:induction false} GreaterEqualPulls(data: string)
    requires data == "x>=10"
    ensures Next(Spec, data, 0, 1) == Produced(Token("ID", Str("x"), 1, 0), 1, 1)
    ensures Next(Spec, data, 1, 1) == Produced(Token("GREATERTHANEQ", Str(">="), 1, 1), 3, 1)
    ensures Next(Spec, data, 3, 1) == Produced(Token("NUMBER", Int(10), 1, 3), 5, 1)
    ensures LexFrom(Spec, data, 5, 1) == Outcome([], EndOfInput)
  {
    NameX(data);
    GreaterEqualAt(data);
    TenAtThree(data);
  }

  lemma {:induction false} NameX(data: string)
    requires data == "x>=10"
    ensures Next(Spec, data, 0, 1) == Produced(Token("ID", Str("x"), 1, 0), 1, 1)
  {
    assert RunLength(data, 1, IdentChar) == 0;
    assert data[0..1] == "x";
    IdentifierToken(data, 0, 1);
  }

  lemma {:induction false} GreaterEqualAt(data: string)
    requires data == "x>=10"
    ensures Next(Spec, data, 1, 1) == Produced(Token("GREATERTHANEQ", Str(">="), 1, 1), 3, 1)
  {
    GreaterTokens(data, 1, 1);
  }

  lemma {:induction false} TenAtThree(data: string)
    requires data == "x>=10"
    ensures Next(Spec, data, 3, 1) == Produced(Token("NUMBER", Int(10), 1, 3), 5, 1)
  {
    RunLengthIs(data, 3, DigitChar, 2);
    assert data[3..5] == "10";
    assert DecimalValue("10") == 10;
    NumberToken(data, 3, 1);
  }


  /** `true` is an identifier: t_ID is tried before the string rule t_BOOLEAN. */
  lemma {:induction false} TrueExample(data: string)
    requires data == "true"
    ensures Lex(Spec, data) == Outcome([Token("ID", Str("true"), 1, 0)], EndOfInput)
  {
    RunLengthIs(data, 1, IdentChar, 3);
    assert data[0..4] == "true";
    IdentifierToken(data, 0, 1);
    LexFromProduced(Spec, data, 0, 1, Token("ID", Str("true"), 1, 0), 4, 1);
  }

  /** `while` raises: its reserved type WHILE is not in `tokens`. */
  lemma {:induction false} WhileExample(data: string)
    requires data == "while"
    ensures Lex(Spec, data) == Outcome([], Failed(UnknownTokenType("ID", "WHILE", 0)))
  {
    RunLengthIs(data, 1, IdentChar, 4);
    assert data[0..5] == "while";
    IdentifierToken(data, 0, 1);
  }

  /** `3.14` is one FLOATINGNUMBER whose value is float(".1"), the text without its first and last character. */
  lemma {:induction false} FloatExample(data: string)
    requires data == "3.14"
    ensures Lex(Spec, data) == Outcome([Token("FLOATINGNUMBER", Float(".1"), 1, 0)], EndOfInput)
  {
    RunLengthIs(data, 0, DigitChar, 1);
    RunLengthIs(data, 2, DigitChar, 2);
    assert MatchLength(Decimal, data, 0) == 4;
    assert Inner(data[0..4]) == ".1";
    assert HasDigit(".1") by { assert IsDigit(".1"[1]); }
    FloatToken(data, 0, 1);
    LexFromProduced(Spec, data, 0, 1, Token("FLOATINGNUMBER", Float(".1"), 1, 0), 4, 1);
  }

  /** `.5` raises: float(t.value[1:-1]) is float(""), a ValueError. */
  lemma {:induction false} ShortFloatExample(data: string)
    requires data == ".5"
    ensures Lex(Spec, data) == Outcome([], Failed(FloatConversion("", 0)))
  {
    assert MatchLength(Decimal, data, 0) == 2;
    assert Inner(data[0..2]) == "";
    FloatToken(data, 0, 1);
  }

}
