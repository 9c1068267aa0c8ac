/**
 * The lexer of golangparser.py: its `reserved`, `tokens`, rule table and
 * `t_ignore`, with the rules in the order PLY tries them.  Here `t_ignore` holds only
 * space and tab, so `t_newline` runs and counts lines.  `t_ID` types a word by
 * `reserved` and otherwise as `ID`, which is not in `tokens`: lexing any other
 * identifier raises.  `t_DOUBLEEQUALS` (regex `\==`, length 3) is tried before
 * `t_EQUALS` and `t_NOTYPEASSIGNMENT` (`:=`) before `t_COLON` (`:`).
 */
module GolangLexer {
  import opened PyValue
  import opened PlyLex

  /** `reserved` (golangparser.py:4-14). */
  const Reserved: map<string, string> := map[
    "if" := "IF", "else" := "ELSE", "switch" := "SWITCH", "var" := "VAR", "int" := "INT",
    "float32" := "FLOAT32", "bool" := "BOOL", "for" := "FOR", "func" := "FUNCTION"
  ]

  /** The names listed in `tokens` before `list(reserved.values())` (golangparser.py:16-29). */
  const Listed: set<string> := {
    "NUMBER", "PLUS", "MINUS", "TIMES", "DIVIDE", "LPAREN", "RPAREN", "LCURLYPAREN",
    "RCURLYPAREN", "DOUBLEEQUALS", "EQUALS", "NOTYPEASSIGNMENT", "COLON"
  }

  /** `tokens` (golangparser.py:16-30). */
  const Tokens: set<string> := Listed + Reserved.Values

  /**
   * The master regex, alternative by alternative: the function rules `t_ID`,
   * `t_NUMBER`, `t_newline` in definition order, then the string rules by decreasing
   * regex length, equal lengths in definition order.  `t_ID`'s regex is the
   * `identifier` pattern given by `@lex.TOKEN` (golangparser.py:32-34, 49); its line
   * is that of the decorator.  `RuleAt(i)` is alternative `i`.
   */
  const RuleCount := 15

  function RuleAt(i: nat): Rule
    requires i < RuleCount
  {
    match i
    case 0  => Rule("ID", "(([_A-Za-z])(([0-9])|([_A-Za-z]))*)", 49, Identifier, LookUpReserved)
    case 1  => Rule("NUMBER", "\\d+", 55, Digits, ToInt)
    case 2  => Rule("newline", "\\n+", 60, Newlines, CountLines)
    case 3  => Rule("DOUBLEEQUALS", "\\==", 42, Literal("=="), Emit)
    case 4  => Rule("PLUS", "\\+", 36, Literal("+"), Emit)
    case 5  => Rule("TIMES", "\\*", 38, Literal("*"), Emit)
    case 6  => Rule("LPAREN", "\\(", 40, Literal("("), Emit)
    case 7  => Rule("RPAREN", "\\)", 41, Literal(")"), Emit)
    case 8  => Rule("EQUALS", "\\=", 43, Literal("="), Emit)
    case 9  => Rule("NOTYPEASSIGNMENT", ":=", 44, Literal(":="), Emit)
    case 10 => Rule("LCURLYPAREN", "\\{", 45, Literal("{"), Emit)
    case 11 => Rule("RCURLYPAREN", "\\}", 46, Literal("}"), Emit)
    case 12 => Rule("MINUS", "-", 37, Literal("-"), Emit)
    case 13 => Rule("DIVIDE", "/", 39, Literal("/"), Emit)
    case _  => Rule("COLON", ":", 47, Literal(":"), Emit)    // 14
  }

  const Rules: seq<Rule> := seq(RuleCount, i requires 0 <= i < RuleCount => RuleAt(i))

  /** `t_ignore = ' \t'` (golangparser.py:83). */
  const Ignore: set<char> := {' ', '\t'}

  const Spec: LexerSpec := LexerSpec(Tokens, Reserved, Rules, Ignore)

  // ---------------------------------------------------------------- the table

  /** The table is in the order PLY builds the master regex in. */
  lemma {:induction false} MasterOrder()
    ensures InMasterOrder(Rules)
    ensures Rules[3].name == "DOUBLEEQUALS" && Rules[8].name == "EQUALS" && |Rules[3].regex| > |Rules[8].regex|
    ensures Rules[9].name == "NOTYPEASSIGNMENT" && Rules[14].name == "COLON" && |Rules[9].regex| > |Rules[14].regex|
  {
    // The order is shown on neighbours only, then extended to all pairs by
    // ChainOrdered; this is much cheaper than comparing every pair directly.
    // ChainFrom unfolds one level per use, so the chain is built from the last
    // entry back to the first, one neighbour pair Precedes(Rules[i], Rules[i + 1])
    // per line.
    assert ChainFrom(Rules, 14);
    assert ChainFrom(Rules, 13);
    assert ChainFrom(Rules, 12);
    assert ChainFrom(Rules, 11);
    assert ChainFrom(Rules, 10);
    assert ChainFrom(Rules, 9);
    assert ChainFrom(Rules, 8);
    assert ChainFrom(Rules, 7);
    assert ChainFrom(Rules, 6);
    assert ChainFrom(Rules, 5);
    assert ChainFrom(Rules, 4);
    assert ChainFrom(Rules, 3);
    assert ChainFrom(Rules, 2);
    assert ChainFrom(Rules, 1);
    assert ChainFrom(Rules, 0);
    ChainOrdered(Rules, 0);
  }

  /** Every string rule names a declared token. */
  lemma {:induction false} SpecShape()
    ensures StringRulesDeclared(Spec)
  {
    forall i | 0 <= i < |Rules| && Rules[i].action.Emit? ensures Rules[i].name in Listed {
      assert 3 <= i;
    }
  }

  // ---------------------------------------------------------------- what the rules make of the input

  /**
   * t_ID: a reserved word becomes one token of its reserved type with the word as
   * value; any other identifier gets the type `ID`, which is not in `tokens`, and PLY
   * raises.
   */
  lemma {:induction false} IdentifierToken(data: string, pos: nat, line: nat)
    requires pos < |data| && IsIdentStart(data[pos])
    ensures var end := WordEnd(data, pos);
            var word := data[pos..end];
            Next(Spec, data, pos, line) ==
              if word in Reserved then Produced(Token(Reserved[word], Str(word), line, pos), end, line)
              else Raised(UnknownTokenType("ID", "ID", pos), end, line)
  {
    var end := WordEnd(data, pos);
    var word := data[pos..end];
    FirstMatchAt(Rules, data, pos, 0);
    if word in Reserved {
      assert Reserved[word] in Reserved.Values;
      NextYields(Spec, data, pos, line, 0, end - pos, Token(Reserved[word], Str(word), line, pos));
    } else {
      IdNotDeclared();
      NextThrows(Spec, data, pos, line, 0, end - pos, UnknownTokenType("ID", "ID", pos));
    }
  }

  /** `ID` is neither listed nor a reserved type. */
  lemma {:induction false} IdNotDeclared()
    ensures "ID" !in Tokens
  {
    forall w | w in Reserved ensures Reserved[w] != "ID" {
    }
  }

  /**
   * t_NUMBER: a run of digits is one NUMBER token whose value is its decimal value;
   * a run longer than `int()` converts raises ValueError.
   */
  lemma {:induction false} NumberToken(data: string, pos: nat, line: nat)
    requires pos < |data| && IsDigit(data[pos])
    ensures var end := DigitsEnd(data, pos);
            Next(Spec, data, pos, line) ==
              if end - pos <= IntMaxStrDigits then Produced(Token("NUMBER", Int(DecimalValue(data[pos..end])), line, pos), end, line)
              else Raised(IntConversion(data[pos..end], pos), end, line)
  {
    var end := DigitsEnd(data, pos);
    assert MatchLength(Rules[0].pattern, data, pos) == 0;
    FirstMatchAt(Rules, data, pos, 1);
    if end - pos <= IntMaxStrDigits {
      NextYields(Spec, data, pos, line, 1, end - pos, Token("NUMBER", Int(DecimalValue(data[pos..end])), line, pos));
    } else {
      NextThrows(Spec, data, pos, line, 1, end - pos, IntConversion(data[pos..end], pos));
    }
  }

  /** The same, for a digit run given by where it ends. */
  lemma {:induction false} NumberAt(data: string, pos: nat, end: nat, line: nat)
    requires pos < end <= |data| && (forall i :: pos <= i < end ==> IsDigit(data[i])) && (end == |data| || !IsDigit(data[end]))
    ensures Next(Spec, data, pos, line) ==
              if end - pos <= IntMaxStrDigits then Produced(Token("NUMBER", Int(DecimalValue(data[pos..end])), line, pos), end, line)
              else Raised(IntConversion(data[pos..end], pos), end, line)
  {
    RunLengthIs(data, pos, DigitChar, end - pos);
    NumberToken(data, pos, line);
  }

  /** t_newline: a run of exactly k newlines yields no token and moves the line counter by exactly k. */
  lemma {:induction false} NewlineRun(data: string, pos: nat, line: nat, k: nat)
    requires 0 < k && pos + k <= |data| && forall i :: pos <= i < pos + k ==> data[i] == '\n'
    requires pos + k == |data| || data[pos + k] != '\n'
    ensures Next(Spec, data, pos, line) == Next(Spec, data, pos + k, line + k)
  {
    RunLengthIs(data, pos, NewlineChar, k);
    NewlineSelected(data, pos);
    NextCountsLines(Spec, data, pos, line, 2, k);
  }

  /** At a newline, t_newline (entry 2) is the first entry that matches. */
  lemma {:induction false} NewlineSelected(data: string, pos: nat)
    requires pos < |data| && data[pos] == '\n'
    ensures FirstMatch(Rules, data, pos) == Matched(2, RunLength(data, pos, NewlineChar))
  {
    assert MatchLength(Rules[0].pattern, data, pos) == 0;
    assert MatchLength(Rules[1].pattern, data, pos) == 0;
    FirstMatchAt(Rules, data, pos, 2);
  }

  /** Spaces and tabs yield no token and leave the line counter alone. */
  lemma {:induction false} BlankSkipped(data: string, pos: nat, line: nat)
    requires pos < |data| && (data[pos] == ' ' || data[pos] == '\t')
    ensures Next(Spec, data, pos, line) == Next(Spec, data, pos + 1, line)
  {
    IgnoredSkipped(Spec, data, pos, line);
  }

  /** At a `=` only DOUBLEEQUALS (entry 3) and EQUALS (entry 8) can match; at a `:` only entries 9 and 14. */
  lemma {:induction false} Candidates()
    ensures NoneStartWith(Rules, '=', 0, 3) && NoneStartWith(Rules, '=', 4, 8)
    ensures NoneStartWith(Rules, ':', 0, 9) && NoneStartWith(Rules, ':', 10, 14)
  {
  }

  /** `==` is one DOUBLEEQUALS, tried before EQUALS; a `=` not followed by `=` is EQUALS. */
  lemma {:induction false} EqualsTokens(data: string, pos: nat, line: nat)
    requires pos < |data| && data[pos] == '='
    ensures Next(Spec, data, pos, line) ==
              if pos + 1 < |data| && data[pos + 1] == '=' then Produced(Token("DOUBLEEQUALS", Str("=="), line, pos), pos + 2, line)
              else Produced(Token("EQUALS", Str("="), line, pos), pos + 1, line)
  {
    Candidates();
    if pos + 1 < |data| && data[pos + 1] == '=' {
      FirstMatchAfter(Rules, data, pos, 3);
      NextEmitsText(Spec, data, pos, line, 3, "DOUBLEEQUALS", "==");
    } else {
      NoMatchBetween(Rules, data, pos, 0, 3);
      NoMatchBetween(Rules, data, pos, 4, 8);
      assert MatchLength(Rules[3].pattern, data, pos) == 0;
      FirstMatchAt(Rules, data, pos, 8);
      NextEmitsText(Spec, data, pos, line, 8, "EQUALS", "=");
    }
  }

  /** `:=` is one NOTYPEASSIGNMENT, tried before COLON; a `:` not followed by `=` is COLON. */
  lemma {:induction false} ColonTokens(data: string, pos: nat, line: nat)
    requires pos < |data| && data[pos] == ':'
    ensures Next(Spec, data, pos, line) ==
              if pos + 1 < |data| && data[pos + 1] == '=' then Produced(Token("NOTYPEASSIGNMENT", Str(":="), line, pos), pos + 2, line)
              else Produced(Token("COLON", Str(":"), line, pos), pos + 1, line)
  {
    Candidates();
    if pos + 1 < |data| && data[pos + 1] == '=' {
      FirstMatchAfter(Rules, data, pos, 9);
      NextEmitsText(Spec, data, pos, line, 9, "NOTYPEASSIGNMENT", ":=");
    } else {
      NoMatchBetween(Rules, data, pos, 0, 9);
      NoMatchBetween(Rules, data, pos, 10, 14);
      assert MatchLength(Rules[9].pattern, data, pos) == 0;
      FirstMatchAt(Rules, data, pos, 14);
      NextEmitsText(Spec, data, pos, line, 14, "COLON", ":");
    }
  }

  // ---------------------------------------------------------------- consequences for whole inputs

  /** Every token type is one of the listed names or a reserved type. */
  lemma {:induction false} KindsInTokens(data: string)
    ensures forall t :: t in Lex(Spec, data).tokens ==> t.kind in Listed || t.kind in Reserved.Values
  {
    SpecShape();
    KindsDeclared(Spec, data, 0, 1);
  }

  // ---------------------------------------------------------------- examples

  /** `3 + 4 * 10` is NUMBER PLUS NUMBER TIMES NUMBER. */
  lemma {:induction false} ArithmeticExample(data: string)
    requires data == "3 + 4 * 10"
    ensures Lex(Spec, data) ==
              Outcome([Token("NUMBER", Int(3), 1, 0), Token("PLUS", Str("+"), 1, 2), Token("NUMBER", Int(4), 1, 4),
                       Token("TIMES", Str("*"), 1, 6), Token("NUMBER", Int(10), 1, 8)], EndOfInput)
  {
    var n3, plus, n4 := Token("NUMBER", Int(3), 1, 0), Token("PLUS", Str("+"), 1, 2), Token("NUMBER", Int(4), 1, 4);
    var times, n10 := Token("TIMES", Str("*"), 1, 6), Token("NUMBER", Int(10), 1, 8);
    ArithmeticPulls(data);
    LexFromProduced(Spec, data, 0, 1, n3, 1, 1);
    LexFromAppend(Spec, data, 0, 1, [n3], 1, 1, plus, 3, 1);
    LexFromAppend(Spec, data, 0, 1, [n3] + [plus], 3, 1, n4, 5, 1);
    LexFromAppend(Spec, data, 0, 1, [n3] + [plus] + [n4], 5, 1, times, 7, 1);
    LexFromAppend(Spec, data, 0, 1, [n3] + [plus] + [n4] + [times], 7, 1, n10, 10, 1);
    assert [n3] + [plus] + [n4] + [times] + [n10] + [] == [n3, plus, n4, times, n10];
  }

  /** The pulls of `lexer.token()` on `3 + 4 * 10`. */
  lemma {:induction false} ArithmeticPulls(data: string)
    requires data == "3 + 4 * 10"
    ensures Next(Spec, data, 0, 1) == Produced(Token("NUMBER", Int(3), 1, 0), 1, 1)
    ensures Next(Spec, data, 1, 1) == Produced(Token("PLUS", Str("+"), 1, 2), 3, 1)
    ensures Next(Spec, data, 3, 1) == Produced(Token("NUMBER", Int(4), 1, 4), 5, 1)
    ensures Next(Spec, data, 5, 1) == Produced(Token("TIMES", Str("*"), 1, 6), 7, 1)
    ensures Next(Spec, data, 7, 1) == Produced(Token("NUMBER", Int(10), 1, 8), 10, 1)
    ensures LexFrom(Spec, data, 10, 1) == Outcome([], EndOfInput)
  {
    ArithmeticOperands(data);
    ArithmeticOperators(data);
  }

  lemma {:induction false} ArithmeticOperands(data: string)
    requires data == "3 + 4 * 10"
    ensures Next(Spec, data, 0, 1) == Produced(Token("NUMBER", Int(3), 1, 0), 1, 1)
    ensures Next(Spec, data, 3, 1) == Produced(Token("NUMBER", Int(4), 1, 4), 5, 1)
    ensures Next(Spec, data, 7, 1) == Produced(Token("NUMBER", Int(10), 1, 8), 10, 1)
  {
    ThreeAt(data);
    FourAt(data);
    TenAt(data);
  }

  lemma {:induction false} ThreeAt(data: string)
    requires data == "3 + 4 * 10"
    ensures Next(Spec, data, 0, 1) == Produced(Token("NUMBER", Int(3), 1, 0), 1, 1)
  {
    NumberAt(data, 0, 1, 1);
    assert data[0..1] == "3";
  }

  lemma {:induction false} FourAt(data: string)
    requires data == "3 + 4 * 10"
    ensures Next(Spec, data, 3, 1) == Produced(Token("NUMBER", Int(4), 1, 4), 5, 1)
  {
    assert data[4..5] == "4";
    BlankThenNumber(data, 3, 5, 1);
  }

  lemma {:induction false} TenAt(data: string)
    requires data == "3 + 4 * 10"
    ensures Next(Spec, data, 7, 1) == Produced(Token("NUMBER", Int(10), 1, 8), 10, 1)
  {
    assert data[8..10] == "10";
    assert DecimalValue("10") == 10;
    BlankThenNumber(data, 7, 10, 1);
  }

  /** A blank followed by a maximal digit run: the blank is skipped, the run is one NUMBER. */
  lemma {:induction false} BlankThenNumber(data: string, pos: nat, end: nat, line: nat)
    requires pos + 1 < end <= |data| && data[pos] == ' '
    requires (forall i :: pos + 1 <= i < end ==> IsDigit(data[i])) && (end == |data| || !IsDigit(data[end]))
    ensures Next(Spec, data, pos, line) ==
              if end - (pos + 1) <= IntMaxStrDigits then Produced(Token("NUMBER", Int(DecimalValue(data[pos + 1..end])), line, pos + 1), end, line)
              else Raised(IntConversion(data[pos + 1..end], pos + 1), end, line)
  {
    BlankSkipped(data, pos, line);
    NumberAt(data, pos + 1, end, line);
  }

  lemma {:induction false} ArithmeticOperators(data: string)
    requires data == "3 + 4 * 10"
    ensures Next(Spec, data, 1, 1) == Produced(Token("PLUS", Str("+"), 1, 2), 3, 1)
    ensures Next(Spec, data, 5, 1) == Produced(Token("TIMES", Str("*"), 1, 6), 7, 1)
    ensures LexFrom(Spec, data, 10, 1) == Outcome([], EndOfInput)
  {
    PlusAfterBlank(data);
    TimesAfterBlank(data);
  }

  lemma {:induction false} PlusAfterBlank(data: string)
    requires data == "3 + 4 * 10"
    ensures Next(Spec, data, 1, 1) == Produced(Token("PLUS", Str("+"), 1, 2), 3, 1)
  {
    assert data[1] == ' ' && data[2] == '+';
    PlusAt(data, 2, 1);
    BlankSkipped(data, 1, 1);
  }

  lemma {:induction false} TimesAfterBlank(data: string)
    requires data == "3 + 4 * 10"
    ensures Next(Spec, data, 5, 1) == Produced(Token("TIMES", Str("*"), 1, 6), 7, 1)
  {
    assert data[5] == ' ' && data[6] == '*';
    TimesAt(data, 6, 1);
    BlankSkipped(data, 5, 1);
  }

  lemma {:induction false} PlusAt(data: string, pos: nat, line: nat)
    requires pos < |data| && data[pos] == '+'
    ensures Next(Spec, data, pos, line) == Produced(Token("PLUS", Str("+"), line, pos), pos + 1, line)
  {
    assert NoneStartWith(Rules, '+', 0, 4);
    FirstMatchAfter(Rules, data, pos, 4);
    NextEmitsText(Spec, data, pos, line, 4, "PLUS", "+");
  }

  lemma {:induction false} TimesAt(data: string, pos: nat, line: nat)
    requires pos < |data| && data[pos] == '*'
    ensures Next(Spec, data, pos, line) == Produced(Token("TIMES", Str("*"), line, pos), pos + 1, line)
  {
    assert NoneStartWith(Rules, '*', 0, 5);
    FirstMatchAfter(Rules, data, pos, 5);
    NextEmitsText(Spec, data, pos, line, 5, "TIMES", "*");
  }

  /** `x` raises at once: its type `ID` is not in `tokens`. */
  lemma {:induction false} IdentifierExample(data: string)
    requires data == "x"
    ensures Lex(Spec, data) == Outcome([], Failed(UnknownTokenType("ID", "ID", 0)))
  {
    assert RunLength(data, 1, IdentChar) == 0;
    assert data[0..1] == "x";
    IdentifierToken(data, 0, 1);
  }

  /** Two newlines put the next token on line 3. */
  lemma {:induction false} LineExample(data: string)
    requires data == "\n\nfor"
    ensures Lex(Spec, data) == Outcome([Token("FOR", Str("for"), 3, 2)], EndOfInput)
  {
    assert |data| == 5 && data[0] == '\n' && data[1] == '\n' && data[2] == 'f';
    NewlineRun(data, 0, 1, 2);
    ForOnLineThree(data);
    LexFromProduced(Spec, data, 2, 3, Token("FOR", Str("for"), 3, 2), 5, 3);
  }

  lemma {:induction false} ForOnLineThree(data: string)
    requires data == "\n\nfor"
    ensures Next(Spec, data, 2, 3) == Produced(Token("FOR", Str("for"), 3, 2), 5, 3)
  {
    assert data[2..5] == "for";
    ReservedWordAt(data, 2, 5, 3);
  }

  /** The same as IdentifierToken, for a reserved word given by where it ends. */
  lemma {:induction false} ReservedWordAt(data: string, pos: nat, end: nat, line: nat)
    requires pos < end <= |data| && IsIdentStart(data[pos]) && forall i :: pos < i < end ==> IsIdentChar(data[i])
    requires (end == |data| || !IsIdentChar(data[end])) && data[pos..end] in Reserved
    ensures Next(Spec, data, pos, line) == Produced(Token(Reserved[data[pos..end]], Str(data[pos..end]), line, pos), end, line)
  {
    RunLengthIs(data, pos + 1, IdentChar, end - pos - 1);
    assert WordEnd(data, pos) == end;
    IdentifierToken(data, pos, line);
  }
}
