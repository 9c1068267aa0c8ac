/**
 * The scanning engine of a PLY lexer, as the two lexers of this repository use it.
 *
 * A PLY lexer is a rule table: function rules (`def t_NAME(t)` with the regex as
 * docstring) and string rules (`t_NAME = r'...'`).  PLY joins them into one master
 * regex, function rules first in definition order, then string rules by decreasing
 * regex length (a stable sort, so equal lengths keep definition order), and at each
 * position takes the FIRST alternative that matches there, which need not be the
 * longest.  Characters in `t_ignore` are skipped one at a time before any rule is
 * tried; when no rule matches, `t_error` runs and skips one character.  A function
 * rule that returns a token whose type is not in `tokens` makes PLY raise LexError.
 *
 * The table is explicit data (`LexerSpec`), `Next` is the specification of one pull
 * (`lexer.token()`), `LexFrom` that of the driver loop that pulls until None, and the
 * class `Lexer` with its `Token` method, plus the `Tokenize` driver, are the
 * imperative scanner proved against them.
 */
module PlyLex {
  import opened PyValue

  // ---------------------------------------------------------------- characters

  predicate IsDigit(c: char) { '0' <= c <= '9' }
  predicate IsIdentStart(c: char) { 'a' <= c <= 'z' || 'A' <= c <= 'Z' || c == '_' }
  predicate IsIdentChar(c: char) { IsIdentStart(c) || IsDigit(c) }
  predicate IsSign(c: char) { c == '-' || c == '+' }

  /** The character classes that the repetitions in the rules range over. */
  datatype CharClass = DigitChar | IdentChar | NewlineChar

  predicate InClass(c: char, k: CharClass) {
    match k
    case DigitChar => IsDigit(c)
    case IdentChar => IsIdentChar(c)
    case NewlineChar => c == '\n'
  }

  /** Length of the greedy run of class-`k` characters that starts at `pos`. */
  function RunLength(data: string, pos: nat, k: CharClass): (n: nat)
    requires pos <= |data|
    ensures pos + n <= |data|
    decreases |data| - pos
  {
    if pos < |data| && InClass(data[pos], k) then 1 + RunLength(data, pos + 1, k) else 0
  }

  /** The run is made of class-`k` characters and stops at the end or at the first other character. */
  lemma {:induction false} RunIsMaximal(data: string, pos: nat, k: CharClass)
    requires pos <= |data|
    ensures forall i :: pos <= i < pos + RunLength(data, pos, k) ==> InClass(data[i], k)
    ensures pos + RunLength(data, pos, k) == |data| || !InClass(data[pos + RunLength(data, pos, k)], k)
    decreases |data| - pos
  {
    if pos < |data| && InClass(data[pos], k) {
      RunIsMaximal(data, pos + 1, k);
    }
  }

  /** Conversely, a maximal run of `n` class-`k` characters is the run RunLength measures. */
  lemma {:induction false} RunLengthIs(data: string, pos: nat, k: CharClass, n: nat)
    requires pos + n <= |data| && forall i :: pos <= i < pos + n ==> InClass(data[i], k)
    requires pos + n == |data| || !InClass(data[pos + n], k)
    ensures RunLength(data, pos, k) == n
    decreases n
  {
    if n > 0 {
      RunLengthIs(data, pos + 1, k, n - 1);
    }
  }

  /** Where the identifier whose first character is at `pos` ends (`[a-zA-Z_][a-zA-Z_0-9]*`). */
  function WordEnd(data: string, pos: nat): (end: nat)
    requires pos < |data|
    ensures pos < end <= |data|
  {
    pos + 1 + RunLength(data, pos + 1, IdentChar)
  }

  /** Where the run of digits starting at `pos` ends. */
  function DigitsEnd(data: string, pos: nat): (end: nat)
    requires pos <= |data|
    ensures pos <= end <= |data|
  {
    pos + RunLength(data, pos, DigitChar)
  }

  /** `s` occurs in `data` at `pos`. */
  predicate PrefixAt(s: string, data: string, pos: nat)
    decreases |s|
  {
    pos + |s| <= |data| && (|s| == 0 || (data[pos] == s[0] && PrefixAt(s[1..], data, pos + 1)))
  }

  lemma {:induction false} PrefixAtSlice(s: string, data: string, pos: nat)
    ensures PrefixAt(s, data, pos) <==> pos + |s| <= |data| && data[pos..pos + |s|] == s
    decreases |s|
  {
    if |s| > 0 {
      PrefixAtSlice(s[1..], data, pos + 1);
      if pos + |s| <= |data| {
        var w := data[pos..pos + |s|];
        assert w == [data[pos]] + data[pos + 1..pos + |s|];
        assert s == [s[0]] + s[1..];
        if PrefixAt(s, data, pos) {
          assert w == s;
        }
        if w == s {
          assert w[0] == data[pos];
          assert w[1..] == data[pos + 1..pos + |s|];
          assert PrefixAt(s[1..], data, pos + 1);
        }
      }
    }
  }

  // ---------------------------------------------------------------- patterns

  /** The regular-expression shapes that occur in the two rule tables. */
  datatype Pattern =
    | Literal(text: string)        // a fixed string such as r'\+', r'==', r'case'
    | Choice(words: seq<string>)   // an alternation of fixed strings, r"true|false"
    | Identifier                   // [a-zA-Z_][a-zA-Z_0-9]*  (also golangparser's `identifier`)
    | Digits                       // \d+
    | Newlines                     // \n+
    | Decimal                      // [-+]?[0-9]*\.[0-9]+

  /** Python's alternation: the first word that occurs at `pos` wins. */
  function ChoiceLength(words: seq<string>, data: string, pos: nat): (n: nat)
    ensures n > 0 ==> exists k :: 0 <= k < |words| && |words[k]| == n && PrefixAt(words[k], data, pos) &&
                        forall j :: 0 <= j < k ==> words[j] == [] || !PrefixAt(words[j], data, pos)
    ensures n == 0 ==> forall k :: 0 <= k < |words| ==> words[k] == [] || !PrefixAt(words[k], data, pos)
    decreases |words|
  {
    if |words| == 0 then 0
    else if words[0] != [] && PrefixAt(words[0], data, pos) then |words[0]|
    else
      var n := ChoiceLength(words[1..], data, pos);
      assert forall k :: 1 <= k < |words| ==> words[k] == words[1..][k - 1];
      n
  }

  /**
   * Length of the match of pattern `p` at `pos`, 0 when it does not match there
   * (no pattern of the tables matches the empty string, which PLY refuses).
   * For `Decimal`, the backtracking of `[-+]?` and `[0-9]*` can never produce a
   * second match: without the sign, the sign itself would have to be the dot.
   */
  function MatchLength(p: Pattern, data: string, pos: nat): (n: nat)
    requires pos < |data|
    ensures pos + n <= |data|
  {
    match p
    case Literal(s) =>
      PrefixAtSlice(s, data, pos);
      if s != [] && PrefixAt(s, data, pos) then |s| else 0
    case Choice(ws) =>
      var n := ChoiceLength(ws, data, pos);
      if n > 0 then
        var k :| 0 <= k < |ws| && |ws[k]| == n && PrefixAt(ws[k], data, pos);
        PrefixAtSlice(ws[k], data, pos);
        n
      else 0
    case Identifier =>
      if IsIdentStart(data[pos]) then 1 + RunLength(data, pos + 1, IdentChar) else 0
    case Digits => RunLength(data, pos, DigitChar)
    case Newlines => RunLength(data, pos, NewlineChar)
    case Decimal =>
      var sign := if IsSign(data[pos]) then 1 else 0;
      var whole := RunLength(data, pos + sign, DigitChar);
      var dot := pos + sign + whole;
      if dot < |data| && data[dot] == '.' then
        var fraction := RunLength(data, dot + 1, DigitChar);
        if fraction > 0 then sign + whole + 1 + fraction else 0
      else 0
  }

  /** Every character of `w` from index `from` on is in class `k`. */
  predicate AllInClass(w: string, from: nat, k: CharClass) {
    forall i :: from <= i < |w| ==> InClass(w[i], k)
  }

  /** `w` reads as `[-+]?[0-9]*\.[0-9]+` with its dot at index `d`. */
  predicate DecimalShape(w: string, d: nat) {
    d + 1 < |w| && w[d] == '.' && AllInClass(w, d + 1, DigitChar) &&
    forall i :: 0 <= i < d ==> IsDigit(w[i]) || (i == 0 && IsSign(w[i]))
  }

  /** The strings each pattern's regular expression denotes, stated on the text alone. */
  predicate InLanguage(p: Pattern, w: string) {
    match p
    case Literal(s) => s != [] && w == s
    case Choice(ws) => w != [] && w in ws
    case Identifier => |w| > 0 && IsIdentStart(w[0]) && AllInClass(w, 1, IdentChar)
    case Digits => |w| > 0 && AllInClass(w, 0, DigitChar)
    case Newlines => |w| > 0 && AllInClass(w, 0, NewlineChar)
    case Decimal => exists d: nat :: d < |w| && DecimalShape(w, d)
  }

  /** What MatchLength measures is a string of the pattern's language, read from `pos`. */
  lemma {:induction false} MatchInLanguage(p: Pattern, data: string, pos: nat)
    requires pos < |data|
    ensures var n := MatchLength(p, data, pos); n > 0 ==> InLanguage(p, data[pos..pos + n])
  {
    match p
    case Literal(s) => PrefixAtSlice(s, data, pos);
    case Choice(ws) => ChoiceInLanguage(ws, data, pos);
    case Identifier => IdentifierInLanguage(data, pos);
    case Digits => RunInLanguage(data, pos, DigitChar);
    case Newlines => RunInLanguage(data, pos, NewlineChar);
    case Decimal => DecimalInLanguage(data, pos);
  }

  lemma {:induction false} ChoiceInLanguage(ws: seq<string>, data: string, pos: nat)
    requires pos < |data|
    ensures var n := MatchLength(Choice(ws), data, pos); n > 0 ==> InLanguage(Choice(ws), data[pos..pos + n])
  {
    var n := MatchLength(Choice(ws), data, pos);
    if n > 0 {
      var k :| 0 <= k < |ws| && |ws[k]| == n && PrefixAt(ws[k], data, pos);
      PrefixAtSlice(ws[k], data, pos);
      assert data[pos..pos + n] == ws[k];
    }
  }

  lemma {:induction false} IdentifierInLanguage(data: string, pos: nat)
    requires pos < |data|
    ensures var n := MatchLength(Identifier, data, pos); n > 0 ==> InLanguage(Identifier, data[pos..pos + n])
  {
    var n := MatchLength(Identifier, data, pos);
    if n > 0 {
      var w := data[pos..pos + n];
      RunIsMaximal(data, pos + 1, IdentChar);
      assert forall i :: 0 <= i < |w| ==> w[i] == data[pos + i];
    }
  }

  lemma {:induction false} RunInLanguage(data: string, pos: nat, k: CharClass)
    requires pos < |data| && k != IdentChar
    ensures var p := if k == DigitChar then Digits else Newlines;
            var n := MatchLength(p, data, pos);
            n > 0 ==> InLanguage(p, data[pos..pos + n])
  {
    var n := RunLength(data, pos, k);
    if n > 0 {
      var w := data[pos..pos + n];
      RunIsMaximal(data, pos, k);
      assert forall i :: 0 <= i < |w| ==> w[i] == data[pos + i];
    }
  }

  lemma {:induction false} DecimalInLanguage(data: string, pos: nat)
    requires pos < |data|
    ensures var n := MatchLength(Decimal, data, pos); n > 0 ==> InLanguage(Decimal, data[pos..pos + n])
  {
    var n := MatchLength(Decimal, data, pos);
    if n > 0 {
      var w := data[pos..pos + n];
      var sign := if IsSign(data[pos]) then 1 else 0;
      var whole := RunLength(data, pos + sign, DigitChar);
      var dot := pos + sign + whole;
      RunIsMaximal(data, pos + sign, DigitChar);
      RunIsMaximal(data, dot + 1, DigitChar);
      assert forall i :: 0 <= i < |w| ==> w[i] == data[pos + i];
      assert DecimalShape(w, sign + whole);
    }
  }

  /** A run of `m` class-`k` characters from `pos` is no longer than the greedy run there. */
  lemma {:induction false} RunAtLeast(data: string, pos: nat, k: CharClass, m: nat)
    requires pos + m <= |data| && forall i :: pos <= i < pos + m ==> InClass(data[i], k)
    ensures m <= RunLength(data, pos, k)
    decreases m
  {
    if m > 0 {
      RunAtLeast(data, pos + 1, k, m - 1);
    }
  }

  /**
   * Conversely, when a non-empty prefix of the input at `pos` is in the pattern's
   * language, MatchLength is not 0, and for every pattern but an alternation
   * (where Python takes the leftmost word, not the longest) it is at least as
   * long: the match is the greedy one.  So 0 means no such prefix exists.
   */
  lemma {:induction false} MatchComplete(p: Pattern, data: string, pos: nat, m: nat)
    requires pos < |data| && 0 < m && pos + m <= |data| && InLanguage(p, data[pos..pos + m])
    ensures MatchLength(p, data, pos) > 0
    ensures !p.Choice? ==> m <= MatchLength(p, data, pos)
  {
    var w := data[pos..pos + m];
    match p
    case Literal(s) =>
      PrefixAtSlice(s, data, pos);
    case Choice(ws) =>
      ChoiceComplete(ws, data, pos, m);
    case Identifier =>
      RunComplete(data, pos + 1, IdentChar, m - 1, w, 1);
    case Digits =>
      RunComplete(data, pos, DigitChar, m, w, 0);
    case Newlines =>
      RunComplete(data, pos, NewlineChar, m, w, 0);
    case Decimal =>
      DecimalComplete(data, pos, m);
  }

  lemma {:induction false} ChoiceComplete(ws: seq<string>, data: string, pos: nat, m: nat)
    requires pos < |data| && 0 < m && pos + m <= |data| && InLanguage(Choice(ws), data[pos..pos + m])
    ensures MatchLength(Choice(ws), data, pos) > 0
  {
    var k :| 0 <= k < |ws| && ws[k] == data[pos..pos + m];
    PrefixAtSlice(ws[k], data, pos);
  }

  /** The characters of `w` from `from` on, read at `pos` in the input, are a run of class `k`. */
  lemma {:induction false} RunComplete(data: string, pos: nat, k: CharClass, m: nat, w: string, from: nat)
    requires pos + m <= |data| && from <= pos && w == data[pos - from..pos + m]
    requires AllInClass(w, from, k)
    ensures m <= RunLength(data, pos, k)
  {
    forall i | pos <= i < pos + m ensures InClass(data[i], k) {
      assert data[i] == w[i - (pos - from)];
    }
    RunAtLeast(data, pos, k, m);
  }

  lemma {:induction false} DecimalComplete(data: string, pos: nat, m: nat)
    requires pos < |data| && 0 < m && pos + m <= |data| && InLanguage(Decimal, data[pos..pos + m])
    ensures m <= MatchLength(Decimal, data, pos)
  {
    var w := data[pos..pos + m];
    var d: nat :| d < |w| && DecimalShape(w, d);
    var sign := if IsSign(data[pos]) then 1 else 0;
    assert w[0] == data[pos];
    assert sign <= d;
    forall i | pos + sign <= i < pos + d ensures IsDigit(data[i]) {
      assert data[i] == w[i - pos];
    }
    assert data[pos + d] == w[d];
    RunLengthIs(data, pos + sign, DigitChar, d - sign);
    RunComplete(data, pos + d + 1, DigitChar, m - d - 1, w, d + 1);
  }

  // ---------------------------------------------------------------- rules

  /** What a rule does with its match. */
  datatype Action =
    | Emit             // a string rule: type = the rule's name, value = the matched text
    | Keep             // a function rule that returns t unchanged (t_SEMICOLON)
    | SetKind(kind: string) // t.type = kind (t_SWITCH_CASE)
    | LookUpReserved   // t.type = reserved.get(t.value, 'ID') (t_ID)
    | ToInt            // t.value = int(t.value) (t_NUMBER)
    | ToFloat          // t.value = float(t.value[1:-1]) (t_FLOATINGNUMBER)
    | CountLines       // t.lexer.lineno += len(t.value), no token (t_newline)

  /**
   * One entry of the master regex: the name after `t_`, the regex as written in the
   * source (its length orders the string rules), the line it is defined on, the
   * shape it matches and what it does.
   */
  datatype Rule = Rule(name: string, regex: string, line: nat, pattern: Pattern, action: Action) {
    predicate IsFunction() { !action.Emit? }
  }

  /** PLY's order: function rules by line, then string rules by decreasing regex length, ties by line. */
  predicate Precedes(a: Rule, b: Rule) {
    if a.IsFunction() then !b.IsFunction() || a.line < b.line
    else !b.IsFunction() && (|a.regex| > |b.regex| || (|a.regex| == |b.regex| && a.line < b.line))
  }

  /** Every pair of entries is in PLY's order. */
  predicate InMasterOrder(rules: seq<Rule>) {
    forall i, j :: 0 <= i < j < |rules| ==> Precedes(rules[i], rules[j])
  }

  /** Neighbours from index `i` on are in PLY's order; checkable entry by entry. */
  predicate ChainFrom(rules: seq<Rule>, i: nat)
    decreases |rules| - i
  {
    i + 1 >= |rules| || (Precedes(rules[i], rules[i + 1]) && ChainFrom(rules, i + 1))
  }

  lemma {:induction false} PrecedesTransitive(a: Rule, b: Rule, c: Rule)
    requires Precedes(a, b) && Precedes(b, c)
    ensures Precedes(a, c)
  {
  }

  lemma {:induction false} ChainOrdered(rules: seq<Rule>, i: nat)
    requires ChainFrom(rules, i)
    ensures forall j, k :: i <= j < k < |rules| ==> Precedes(rules[j], rules[k])
    decreases |rules| - i
  {
    if i + 1 < |rules| {
      ChainOrdered(rules, i + 1);
      forall k | i < k < |rules| ensures Precedes(rules[i], rules[k]) {
        if k > i + 1 {
          PrecedesTransitive(rules[i], rules[i + 1], rules[k]);
        }
      }
    }
  }

  /** The lexer as PLY builds it from a module: `tokens`, `reserved`, the rules, `t_ignore`. */
  datatype LexerSpec = LexerSpec(tokens: set<string>, reserved: map<string, string>,
                                 rules: seq<Rule>, ignore: set<char>)

  /** PLY refuses at build time a string rule for a name missing from `tokens`. */
  predicate StringRulesDeclared(spec: LexerSpec) {
    forall i :: 0 <= i < |spec.rules| && spec.rules[i].action.Emit? ==> spec.rules[i].name in spec.tokens
  }

  /** Newlines are ignored before any rule is tried, and only the `\n+` rule counts lines. */
  predicate NewlinesIgnored(spec: LexerSpec) {
    '\n' in spec.ignore &&
    forall i :: 0 <= i < |spec.rules| && spec.rules[i].action.CountLines? ==> spec.rules[i].pattern == Newlines
  }

  // ---------------------------------------------------------------- the master regex

  datatype Match = NoMatch | Matched(index: nat, length: nat)

  /** The first rule, from index `from` on, whose pattern matches at `pos`. */
  function FirstMatchFrom(rules: seq<Rule>, data: string, pos: nat, from: nat): (m: Match)
    requires pos < |data| && from <= |rules|
    ensures m.Matched? ==> from <= m.index < |rules| && m.length > 0 &&
                           m.length == MatchLength(rules[m.index].pattern, data, pos)
    ensures m.Matched? ==> forall j {:trigger MatchLength(rules[j].pattern, data, pos)} ::
                             from <= j < m.index ==> MatchLength(rules[j].pattern, data, pos) == 0
    ensures m.NoMatch? ==> forall j {:trigger MatchLength(rules[j].pattern, data, pos)} ::
                             from <= j < |rules| ==> MatchLength(rules[j].pattern, data, pos) == 0
    decreases |rules| - from
  {
    if from == |rules| then NoMatch
    else
      var n := MatchLength(rules[from].pattern, data, pos);
      if n > 0 then Matched(from, n) else FirstMatchFrom(rules, data, pos, from + 1)
  }

  function FirstMatch(rules: seq<Rule>, data: string, pos: nat): (m: Match)
    requires pos < |data|
  {
    FirstMatchFrom(rules, data, pos, 0)
  }

  /** The rule at `k` is the one chosen exactly when it matches and no earlier one does. */
  lemma {:induction false} FirstMatchAt(rules: seq<Rule>, data: string, pos: nat, k: nat)
    requires pos < |data| && k < |rules|
    requires MatchLength(rules[k].pattern, data, pos) > 0
    requires forall j :: 0 <= j < k ==> MatchLength(rules[j].pattern, data, pos) == 0
    ensures FirstMatch(rules, data, pos) == Matched(k, MatchLength(rules[k].pattern, data, pos))
  {
    var m := FirstMatch(rules, data, pos);
  }

  /** A character a match of `p` can begin with. */
  predicate MayStartWith(p: Pattern, c: char) {
    match p
    case Literal(s) => s != [] && s[0] == c
    case Choice(ws) => exists k :: 0 <= k < |ws| && ws[k] != [] && ws[k][0] == c
    case Identifier => IsIdentStart(c)
    case Digits => IsDigit(c)
    case Newlines => c == '\n'
    case Decimal => IsSign(c) || IsDigit(c) || c == '.'
  }

  lemma {:induction false} MatchStartsWith(p: Pattern, data: string, pos: nat)
    requires pos < |data|
    ensures MatchLength(p, data, pos) > 0 ==> MayStartWith(p, data[pos])
  {
    match p
    case Choice(ws) =>
      var n := ChoiceLength(ws, data, pos);
      if n > 0 {
        var k :| 0 <= k < |ws| && |ws[k]| == n && PrefixAt(ws[k], data, pos);
        assert ws[k] != [] && ws[k][0] == data[pos];
      }
    case _ =>
  }

  /** No rule with index in [lo, hi) can begin a match with `c`. */
  predicate NoneStartWith(rules: seq<Rule>, c: char, lo: nat, hi: nat) {
    hi <= |rules| && forall j :: lo <= j < hi ==> !MayStartWith(rules[j].pattern, c)
  }

  lemma {:induction false} NoMatchBetween(rules: seq<Rule>, data: string, pos: nat, lo: nat, hi: nat)
    requires pos < |data| && NoneStartWith(rules, data[pos], lo, hi)
    ensures forall j :: lo <= j < hi ==> MatchLength(rules[j].pattern, data, pos) == 0
  {
    forall j | lo <= j < hi ensures MatchLength(rules[j].pattern, data, pos) == 0 {
      MatchStartsWith(rules[j].pattern, data, pos);
    }
  }

  /** The rule at `k` is chosen when it matches and the rules before it cannot begin with the current character. */
  lemma {:induction false} FirstMatchAfter(rules: seq<Rule>, data: string, pos: nat, k: nat)
    requires pos < |data| && k < |rules| && NoneStartWith(rules, data[pos], 0, k)
    requires MatchLength(rules[k].pattern, data, pos) > 0
    ensures FirstMatch(rules, data, pos) == Matched(k, MatchLength(rules[k].pattern, data, pos))
  {
    NoMatchBetween(rules, data, pos, 0, k);
    FirstMatchAt(rules, data, pos, k);
  }

  // ---------------------------------------------------------------- rules that are never chosen

  /** Wherever `b` matches, `a` matches too: a shorter literal that begins the longer, or identifiers over words. */
  predicate Covers(a: Pattern, b: Pattern) {
    if a.Literal? && b.Literal? then 0 < |a.text| <= |b.text| && b.text[..|a.text|] == a.text
    else a.Identifier? && b.Choice? && forall i :: 0 <= i < |b.words| ==> b.words[i] != [] && IsIdentStart(b.words[i][0])
  }

  lemma {:induction false} CoverMatches(a: Pattern, b: Pattern, data: string, pos: nat)
    requires pos < |data|
    ensures Covers(a, b) && MatchLength(b, data, pos) > 0 ==> MatchLength(a, data, pos) > 0
  {
    if Covers(a, b) && MatchLength(b, data, pos) > 0 {
      if a.Literal? {
        PrefixAtSlice(b.text, data, pos);
        assert data[pos..pos + |a.text|] == b.text[..|a.text|];
        PrefixAtSlice(a.text, data, pos);
      } else {
        MatchStartsWith(b, data, pos);
      }
    }
  }

  /** Entry `k` can be chosen at all: no entry before it covers its pattern. */
  predicate Live(rules: seq<Rule>, k: nat) {
    k < |rules| && forall j :: 0 <= j < k ==> !Covers(rules[j].pattern, rules[k].pattern)
  }

  /** The first-match choice only ever picks a live entry. */
  lemma {:induction false} ChosenIsLive(rules: seq<Rule>, data: string, pos: nat)
    requires pos < |data|
    ensures FirstMatch(rules, data, pos).Matched? ==> Live(rules, FirstMatch(rules, data, pos).index)
  {
    var m := FirstMatch(rules, data, pos);
    if m.Matched? {
      forall j | 0 <= j < m.index ensures !Covers(rules[j].pattern, rules[m.index].pattern) {
        CoverMatches(rules[j].pattern, rules[m.index].pattern, data, pos);
      }
    }
  }

  // ---------------------------------------------------------------- tokens

  /** A LexToken: type, value, lineno, lexpos. */
  datatype Token = Token(kind: string, value: Value, line: nat, pos: nat)

  datatype LexError =
    | UnknownTokenType(rule: string, kind: string, pos: nat) // PLY's LexError "returned an unknown token type"
    | FloatConversion(text: string, pos: nat)                 // ValueError raised by float(...)
    | IntConversion(text: string, pos: nat)                   // ValueError raised by int(...)
    | NoInputGiven                                            // RuntimeError: token() before any input()

  /** What a rule's function does with its match. */
  datatype Effect = Yield(tok: Token) | Skip(lines: nat) | Throw(error: LexError)

  /** Python's `text[1:-1]`. */
  function Inner(text: string): (s: string)
    ensures |text| >= 2 ==> |s| == |text| - 2 && forall i :: 0 <= i < |s| ==> s[i] == text[i + 1]
    ensures |text| < 2 ==> s == []
  {
    if |text| >= 2 then text[1..|text| - 1] else []
  }

  /** float(s) of a string made of digits and at most one dot succeeds iff it holds a digit. */
  predicate HasDigit(s: string) {
    exists i :: 0 <= i < |s| && IsDigit(s[i])
  }

  function DigitValue(c: char): (d: nat)
    ensures d < 10
  {
    if IsDigit(c) then (c as int) - ('0' as int) else 0
  }

  /** int(s) of a digit string (every text this is applied to is a run of digits). */
  /**
   * CPython's default limit on the digits `int()` converts from a string
   * (`sys.int_info.default_max_str_digits`, since 3.11 and the 3.7-3.10 security
   * releases): a longer digit string raises ValueError.
   */
  const IntMaxStrDigits: nat := 4300

  function DecimalValue(s: string): (n: nat)
    decreases |s|
  {
    if |s| == 0 then 0 else 10 * DecimalValue(s[..|s| - 1]) + DigitValue(s[|s| - 1])
  }

  /** PLY's check on the token a function rule returns. */
  function Checked(spec: LexerSpec, rule: Rule, tok: Token): Effect {
    if tok.kind in spec.tokens then Yield(tok) else Throw(UnknownTokenType(rule.name, tok.kind, tok.pos))
  }

  /** The token type `t_ID` assigns: reserved.get(text, 'ID'). */
  function ReservedKind(reserved: map<string, string>, text: string): string {
    if text in reserved then reserved[text] else "ID"
  }

  /** `t.value = int(t.value)`, then PLY's check on the token returned. */
  function ConvertInt(spec: LexerSpec, rule: Rule, text: string, line: nat, pos: nat): Effect {
    if |text| <= IntMaxStrDigits then Checked(spec, rule, Token(rule.name, Int(DecimalValue(text)), line, pos))
    else Throw(IntConversion(text, pos))
  }

  /** Running the rule on its matched `text`, found at `pos` while the line counter is `line`. */
  function Apply(spec: LexerSpec, rule: Rule, text: string, line: nat, pos: nat): (e: Effect)
    ensures e.Yield? ==> e.tok.line == line && e.tok.pos == pos
    ensures e.Skip? <==> rule.action.CountLines?
    ensures e.Yield? && !rule.action.Emit? ==> e.tok.kind in spec.tokens
  {
    match rule.action
    case Emit => Yield(Token(rule.name, Str(text), line, pos))
    case Keep => Checked(spec, rule, Token(rule.name, Str(text), line, pos))
    case SetKind(k) => Checked(spec, rule, Token(k, Str(text), line, pos))
    case LookUpReserved => Checked(spec, rule, Token(ReservedKind(spec.reserved, text), Str(text), line, pos))
    case ToInt => ConvertInt(spec, rule, text, line, pos)
    case ToFloat =>
      var inner := Inner(text);
      if HasDigit(inner) then Checked(spec, rule, Token(rule.name, Float(inner), line, pos))
      else Throw(FloatConversion(inner, pos))
    case CountLines => Skip(|text|)
  }

  /** The types a token made by `rule` can carry. */
  function Kinds(spec: LexerSpec, rule: Rule): set<string> {
    match rule.action
    case SetKind(k) => {k}
    case LookUpReserved => {"ID"} + spec.reserved.Values
    case CountLines => {}
    case _ => {rule.name}
  }

  lemma {:induction false} ApplyKind(spec: LexerSpec, rule: Rule, text: string, line: nat, pos: nat)
    ensures Apply(spec, rule, text, line, pos).Yield? ==> Apply(spec, rule, text, line, pos).tok.kind in Kinds(spec, rule)
  {
    if rule.action.LookUpReserved? && text in spec.reserved {
      assert spec.reserved[text] in spec.reserved.Values;
    }
  }

  // ---------------------------------------------------------------- one pull: lexer.token()

  /**
   * The result of one call of `lexer.token()`, with the lexer's position and line
   * counter after the call: a token, None at the end of the text (lexpos is then one
   * past the end), or an exception.
   */
  datatype Pull =
    | Produced(tok: Token, pos: nat, line: nat)
    | Exhausted(pos: nat, line: nat)
    | Raised(error: LexError, pos: nat, line: nat)

  function Next(spec: LexerSpec, data: string, pos: nat, line: nat): (r: Pull)
    ensures r.Produced? ==> pos <= r.tok.pos < r.pos <= |data| && r.tok.line == r.line
    ensures r.Exhausted? ==> r.pos == (if pos < |data| then |data| else pos) + 1
    ensures r.line >= line
    decreases |data| - pos
  {
    if pos >= |data| then Exhausted(pos + 1, line)
    else if data[pos] in spec.ignore then Next(spec, data, pos + 1, line)
    else
      match FirstMatch(spec.rules, data, pos)
      case NoMatch => Next(spec, data, pos + 1, line)   // t_error: t.lexer.skip(1)
      case Matched(i, n) =>
        match Apply(spec, spec.rules[i], data[pos..pos + n], line, pos)
        case Skip(k) => Next(spec, data, pos + n, line + k)
        case Yield(tok) => Produced(tok, pos + n, line)
        case Throw(e) => Raised(e, pos + n, line)
  }

  // ---------------------------------------------------------------- the driver loop

  datatype Stop = EndOfInput | Failed(error: LexError)

  /** Every token pulled until None or an exception, and which of the two ended the loop. */
  datatype Outcome = Outcome(tokens: seq<Token>, stop: Stop)

  function LexFrom(spec: LexerSpec, data: string, pos: nat, line: nat): (o: Outcome)
    decreases |data| - pos
  {
    match Next(spec, data, pos, line)
    case Produced(t, p, l) =>
      var rest := LexFrom(spec, data, p, l);
      Outcome([t] + rest.tokens, rest.stop)
    case Exhausted(_, _) => Outcome([], EndOfInput)
    case Raised(e, _, _) => Outcome([], Failed(e))
  }

  /** A fresh lexer given `data`: position 0, line 1. */
  function Lex(spec: LexerSpec, data: string): Outcome {
    LexFrom(spec, data, 0, 1)
  }

  // ---------------------------------------------------------------- the scanner object

  /**
   * PLY's Lexer object: the text, lexpos and lineno, which `token()` advances.
   * `given` is false while `lexdata` is still None, before the first `input()`.
   */
  class Lexer {
    const spec: LexerSpec
    var given: bool
    var data: string
    var pos: nat
    var line: nat

    /** lex.lex(): no text yet (lexdata None, lexlen 0), lexpos 0, lineno 1. */
    constructor (spec: LexerSpec)
      ensures this.spec == spec && !given && data == [] && pos == 0 && line == 1
    {
      this.spec := spec;
      given := false;
      data := [];
      pos := 0;
      line := 1;
    }

    /** lexer.input(s): new text, lexpos back to 0; lineno is kept. */
    method Input(s: string)
      modifies this
      ensures given && data == s && pos == 0 && line == old(line)
    {
      given := true;
      data := s;
      pos := 0;
    }

    /**
     * lexer.token().  Before any input() the scanning loop has nothing to read;
     * lexpos still moves one past, and then PLY raises RuntimeError.
     */
    method Token() returns (r: Pull)
      modifies this
      ensures old(given) ==> r == Next(spec, old(data), old(pos), old(line))
      ensures !old(given) ==> r == Raised(NoInputGiven, old(pos) + 1, old(line))
      ensures given == old(given) && data == old(data) && pos == r.pos && line == r.line
    {
      if !given {
        r := Raised(NoInputGiven, pos + 1, line);
        pos := pos + 1;
        return;
      }
      var text: string, p: nat, l: nat := data, pos, line;
      while p < |text|
        invariant given == old(given) && data == text == old(data)
        invariant Next(spec, text, old(pos), old(line)) == Next(spec, text, p, l)
        decreases |text| - p
      {
        var step := Attempt(text, p, l);
        match step
        case Return(pulled) =>
          r := pulled;
          pos, line := r.pos, r.line;
          return;
        case Move(p', l') =>
          p, l := p', l';
      }
      r := Exhausted(p + 1, l);
      pos, line := p + 1, l;
    }

    /**
     * One pass of the loop in `token()` at `p`: an ignored character, a character no
     * rule matches (t_error, then skip(1)) or a t_newline match moves on without a
     * token; a rule that returns a token, or raises, ends the call.
     */
    method Attempt(text: string, p: nat, l: nat) returns (step: Step)
      requires p < |text|
      ensures step.Move? ==> p < step.pos <= |text| && Next(spec, text, p, l) == Next(spec, text, step.pos, step.line)
      ensures step.Return? ==> step.pull == Next(spec, text, p, l)
    {
      if text[p] in spec.ignore {
        IgnoredSkipped(spec, text, p, l);
        return Move(p + 1, l);
      }
      var m := FirstMatch(spec.rules, text, p);
      if m.NoMatch? {
        NextUnmatched(spec, text, p, l);
        return Move(p + 1, l);   // t_error: skip(1)
      }
      step := Fire(text, p, l, m.index, m.length);
    }

    /** The rule at `k`, the first to match at `p` with a match of `n` characters, runs. */
    method Fire(text: string, p: nat, l: nat, k: nat, n: nat) returns (step: Step)
      requires p < |text| && text[p] !in spec.ignore && FirstMatch(spec.rules, text, p) == Matched(k, n)
      ensures step.Move? ==> p < step.pos <= |text| && Next(spec, text, p, l) == Next(spec, text, step.pos, step.line)
      ensures step.Return? ==> step.pull == Next(spec, text, p, l)
    {
      var end := p + n;
      var effect := Apply(spec, spec.rules[k], text[p..end], l, p);
      match effect
      case Skip(lines) =>
        NextSkips(spec, text, p, l, k, n, lines);
        return Move(end, l + lines);   // t_newline
      case Yield(tok) =>
        NextYields(spec, text, p, l, k, n, tok);
        return Return(Produced(tok, end, l));
      case Throw(e) =>
        NextThrows(spec, text, p, l, k, n, e);
        return Return(Raised(e, end, l));
    }
  }

  /** What one pass of the loop in `token()` does: move on without a token, or end the call. */
  datatype Step = Move(pos: nat, line: nat) | Return(pull: Pull)

  lemma {:induction false} NextUnmatched(spec: LexerSpec, data: string, pos: nat, line: nat)
    requires pos < |data| && data[pos] !in spec.ignore && FirstMatch(spec.rules, data, pos).NoMatch?
    ensures Next(spec, data, pos, line) == Next(spec, data, pos + 1, line)
  {
  }

  /** One step of `token()` at a character that some rule matches. */
  lemma {:induction false} NextMatched(spec: LexerSpec, data: string, pos: nat, line: nat)
    requires pos < |data| && data[pos] !in spec.ignore && FirstMatch(spec.rules, data, pos).Matched?
    ensures var m := FirstMatch(spec.rules, data, pos);
            var end := pos + m.length;
            Next(spec, data, pos, line) ==
              match Apply(spec, spec.rules[m.index], data[pos..end], line, pos)
              case Skip(k) => Next(spec, data, end, line + k)
              case Yield(tok) => Produced(tok, end, line)
              case Throw(e) => Raised(e, end, line)
  {
  }

  /** One step of `token()` at a character that a string rule is the first to match. */
  lemma {:induction false} NextEmits(spec: LexerSpec, data: string, pos: nat, line: nat, k: nat, n: nat)
    requires pos < |data| && data[pos] !in spec.ignore && FirstMatch(spec.rules, data, pos) == Matched(k, n)
    requires spec.rules[k].action.Emit?
    ensures Next(spec, data, pos, line) == Produced(Token(spec.rules[k].name, Str(data[pos..pos + n]), line, pos), pos + n, line)
  {
    NextMatched(spec, data, pos, line);
  }

  /** One step of `token()` where the rule chosen returns a token. */
  lemma {:induction false} NextYields(spec: LexerSpec, data: string, pos: nat, line: nat, k: nat, n: nat, tok: Token)
    requires pos < |data| && data[pos] !in spec.ignore && FirstMatch(spec.rules, data, pos) == Matched(k, n)
    requires Apply(spec, spec.rules[k], data[pos..pos + n], line, pos) == Yield(tok)
    ensures Next(spec, data, pos, line) == Produced(tok, pos + n, line)
  {
    NextMatched(spec, data, pos, line);
  }

  /** One step of `token()` where the rule chosen raises. */
  lemma {:induction false} NextThrows(spec: LexerSpec, data: string, pos: nat, line: nat, k: nat, n: nat, e: LexError)
    requires pos < |data| && data[pos] !in spec.ignore && FirstMatch(spec.rules, data, pos) == Matched(k, n)
    requires Apply(spec, spec.rules[k], data[pos..pos + n], line, pos) == Throw(e)
    ensures Next(spec, data, pos, line) == Raised(e, pos + n, line)
  {
    NextMatched(spec, data, pos, line);
  }

  /** One step of `token()` where the rule chosen makes no token and moves the line counter by `k`. */
  lemma {:induction false} NextSkips(spec: LexerSpec, data: string, pos: nat, line: nat, i: nat, n: nat, k: nat)
    requires pos < |data| && data[pos] !in spec.ignore && FirstMatch(spec.rules, data, pos) == Matched(i, n)
    requires Apply(spec, spec.rules[i], data[pos..pos + n], line, pos) == Skip(k)
    ensures Next(spec, data, pos, line) == Next(spec, data, pos + n, line + k)
  {
  }

  /** One step of `token()` where the rule chosen is `t_newline`: no token, the line counter moves by the length of the match. */
  lemma {:induction false} NextCountsLines(spec: LexerSpec, data: string, pos: nat, line: nat, k: nat, n: nat)
    requires pos < |data| && data[pos] !in spec.ignore && FirstMatch(spec.rules, data, pos) == Matched(k, n)
    requires spec.rules[k].action == CountLines
    ensures Next(spec, data, pos, line) == Next(spec, data, pos + n, line + n)
  {
    NextSkips(spec, data, pos, line, k, n, n);
  }

  /** The same step, with the rule's name and the matched text given. */
  lemma {:induction false} NextEmitsText(spec: LexerSpec, data: string, pos: nat, line: nat, k: nat, name: string, text: string)
    requires pos < |data| && data[pos] !in spec.ignore && FirstMatch(spec.rules, data, pos) == Matched(k, |text|)
    requires spec.rules[k].action == Emit && spec.rules[k].name == name && PrefixAt(text, data, pos)
    ensures Next(spec, data, pos, line) == Produced(Token(name, Str(text), line, pos), pos + |text|, line)
  {
    PrefixAtSlice(text, data, pos);
    NextEmits(spec, data, pos, line, k, |text|);
  }

  /** The driver loop after one pulled token. */
  lemma {:induction false} LexFromProduced(spec: LexerSpec, data: string, pos: nat, line: nat, tok: Token, p: nat, l: nat)
    requires Next(spec, data, pos, line) == Produced(tok, p, l)
    ensures LexFrom(spec, data, pos, line) == Outcome([tok] + LexFrom(spec, data, p, l).tokens, LexFrom(spec, data, p, l).stop)
  {
  }

  /** The driver loop after the tokens `ts` and one more pulled token: what it returns is `ts`, that token, and the rest. */
  lemma {:induction false} LexFromAppend(spec: LexerSpec, data: string, pos: nat, line: nat, ts: seq<Token>, p: nat, l: nat, tok: Token, p': nat, l': nat)
    requires LexFrom(spec, data, pos, line) == Outcome(ts + LexFrom(spec, data, p, l).tokens, LexFrom(spec, data, p, l).stop)
    requires Next(spec, data, p, l) == Produced(tok, p', l')
    ensures LexFrom(spec, data, pos, line) == Outcome((ts + [tok]) + LexFrom(spec, data, p', l').tokens, LexFrom(spec, data, p', l').stop)
  {
    var rest := LexFrom(spec, data, p', l').tokens;
    assert ts + ([tok] + rest) == (ts + [tok]) + rest;
  }

  /** `lexer.input(source)` on a fresh lexer, then `while True: tok = lexer.token(); if not tok: break`. */
  method Tokenize(spec: LexerSpec, source: string) returns (tokens: seq<Token>, stop: Stop)
    ensures Outcome(tokens, stop) == Lex(spec, source)
  {
    var lexer := new Lexer(spec);
    lexer.Input(source);
    tokens := [];
    while true
      invariant lexer.spec == spec && lexer.given && lexer.data == source && lexer.pos <= |source|
      invariant Lex(spec, source) == Outcome(tokens + LexFrom(spec, source, lexer.pos, lexer.line).tokens,
                                             LexFrom(spec, source, lexer.pos, lexer.line).stop)
      decreases |source| - lexer.pos
    {
      ghost var before := LexFrom(spec, source, lexer.pos, lexer.line);
      var r := lexer.Token();
      match r
      case Produced(t, _, _) =>
        assert before.tokens == [t] + LexFrom(spec, source, lexer.pos, lexer.line).tokens;
        tokens := tokens + [t];
      case Exhausted(_, _) =>
        stop := EndOfInput;
        return;
      case Raised(e, _, _) =>
        stop := Failed(e);
        return;
    }
  }

  // ---------------------------------------------------------------- properties of every PLY lexer

  /** t_ignore: an ignored character yields nothing and is passed over alone. */
  lemma {:induction false} IgnoredSkipped(spec: LexerSpec, data: string, pos: nat, line: nat)
    requires pos < |data| && data[pos] in spec.ignore
    ensures Next(spec, data, pos, line) == Next(spec, data, pos + 1, line)
  {
  }

  /** t_error: a character no rule matches yields nothing and exactly one position is skipped. */
  lemma {:induction false} IllegalSkipped(spec: LexerSpec, data: string, pos: nat, line: nat)
    requires pos < |data| && data[pos] !in spec.ignore
    requires forall j :: 0 <= j < |spec.rules| ==> MatchLength(spec.rules[j].pattern, data, pos) == 0
    ensures Next(spec, data, pos, line) == Next(spec, data, pos + 1, line)
  {
    assert FirstMatch(spec.rules, data, pos) == NoMatch;
  }

  /** Each token consumes at least one character, so there are never more tokens than characters. */
  lemma {:induction false} TokenCountBound(spec: LexerSpec, data: string, pos: nat, line: nat)
    requires pos <= |data|
    ensures pos + |LexFrom(spec, data, pos, line).tokens| <= |data|
    decreases |data| - pos
  {
    match Next(spec, data, pos, line)
    case Produced(t, p, l) => TokenCountBound(spec, data, p, l);
    case Exhausted(_, _) =>
    case Raised(_, _, _) =>
  }

  lemma {:induction false} LexTokenCountBound(spec: LexerSpec, data: string)
    ensures |Lex(spec, data).tokens| <= |data|
  {
    TokenCountBound(spec, data, 0, 1);
  }

  /** Tokens come out in source order: their positions strictly increase and lie in the text. */
  lemma {:induction false} TokensInSourceOrder(spec: LexerSpec, data: string, pos: nat, line: nat)
    ensures forall i :: 0 <= i < |LexFrom(spec, data, pos, line).tokens| ==>
              pos <= LexFrom(spec, data, pos, line).tokens[i].pos < |data|
    ensures forall i, j :: 0 <= i < j < |LexFrom(spec, data, pos, line).tokens| ==>
              LexFrom(spec, data, pos, line).tokens[i].pos < LexFrom(spec, data, pos, line).tokens[j].pos
    decreases |data| - pos
  {
    match Next(spec, data, pos, line)
    case Produced(t, p, l) =>
      TokensInSourceOrder(spec, data, p, l);
      var rest := LexFrom(spec, data, p, l).tokens;
      assert LexFrom(spec, data, pos, line).tokens == [t] + rest;
    case Exhausted(_, _) =>
    case Raised(_, _, _) =>
  }

  /** Every token has a type in `tokens`: string rules are checked when the lexer is built, function rules when they return. */
  lemma {:induction false} KindsDeclared(spec: LexerSpec, data: string, pos: nat, line: nat)
    requires StringRulesDeclared(spec)
    ensures forall i :: 0 <= i < |LexFrom(spec, data, pos, line).tokens| ==>
              LexFrom(spec, data, pos, line).tokens[i].kind in spec.tokens
    decreases |data| - pos
  {
    NextKindDeclared(spec, data, pos, line);
    match Next(spec, data, pos, line)
    case Produced(t, p, l) =>
      KindsDeclared(spec, data, p, l);
      assert LexFrom(spec, data, pos, line).tokens == [t] + LexFrom(spec, data, p, l).tokens;
    case Exhausted(_, _) =>
    case Raised(_, _, _) =>
  }

  lemma {:induction false} NextKindDeclared(spec: LexerSpec, data: string, pos: nat, line: nat)
    requires StringRulesDeclared(spec)
    ensures Next(spec, data, pos, line).Produced? ==> Next(spec, data, pos, line).tok.kind in spec.tokens
    decreases |data| - pos, 1
  {
    if pos < |data| {
      if data[pos] in spec.ignore {
        IgnoredSkipped(spec, data, pos, line);
        NextKindDeclared(spec, data, pos + 1, line);
      } else {
        match FirstMatch(spec.rules, data, pos)
        case NoMatch =>
          NextUnmatched(spec, data, pos, line);
          NextKindDeclared(spec, data, pos + 1, line);
        case Matched(i, n) =>
          MatchedKindDeclared(spec, data, pos, line, i, n);
      }
    }
  }

  /** The same, where the entry at `i` is the first to match at `pos`, with `n` characters. */
  lemma {:induction false} MatchedKindDeclared(spec: LexerSpec, data: string, pos: nat, line: nat, i: nat, n: nat)
    requires StringRulesDeclared(spec)
    requires pos < |data| && data[pos] !in spec.ignore && FirstMatch(spec.rules, data, pos) == Matched(i, n)
    ensures Next(spec, data, pos, line).Produced? ==> Next(spec, data, pos, line).tok.kind in spec.tokens
    decreases |data| - pos, 0
  {
    match Apply(spec, spec.rules[i], data[pos..pos + n], line, pos)
    case Skip(k) =>
      NextSkips(spec, data, pos, line, i, n, k);
      NextKindDeclared(spec, data, pos + n, line + k);
    case Yield(tok) => YieldedKindDeclared(spec, data, pos, line, i, n, tok);
    case Throw(e) => NextThrows(spec, data, pos, line, i, n, e);
  }

  /** The token a matched entry yields has a declared type. */
  lemma {:induction false} YieldedKindDeclared(spec: LexerSpec, data: string, pos: nat, line: nat, i: nat, n: nat, tok: Token)
    requires StringRulesDeclared(spec)
    requires pos < |data| && data[pos] !in spec.ignore && FirstMatch(spec.rules, data, pos) == Matched(i, n)
    requires Apply(spec, spec.rules[i], data[pos..pos + n], line, pos) == Yield(tok)
    ensures Next(spec, data, pos, line) == Produced(tok, pos + n, line)
    ensures tok.kind in spec.tokens
  {
    NextYields(spec, data, pos, line, i, n, tok);
  }

  /** A pulled token, if any, carries one of the types of a live entry. */
  ghost predicate FromLiveEntry(spec: LexerSpec, r: Pull) {
    r.Produced? ==> exists k: nat {:trigger Live(spec.rules, k)} :: Live(spec.rules, k) && r.tok.kind in Kinds(spec, spec.rules[k])
  }

  /** A token pulled comes from a live entry and carries one of that entry's types. */
  lemma {:induction false} NextKindLive(spec: LexerSpec, data: string, pos: nat, line: nat)
    ensures FromLiveEntry(spec, Next(spec, data, pos, line))
    decreases |data| - pos, 2
  {
    if pos < |data| {
      if data[pos] in spec.ignore {
        IgnoredSkipped(spec, data, pos, line);
        NextKindLive(spec, data, pos + 1, line);
      } else {
        match FirstMatch(spec.rules, data, pos)
        case NoMatch =>
          NextUnmatched(spec, data, pos, line);
          NextKindLive(spec, data, pos + 1, line);
        case Matched(i, n) =>
          MatchedKindLive(spec, data, pos, line, i, n);
      }
    }
  }

  /** The same, where the entry at `i` is the first to match at `pos`, with `n` characters. */
  lemma {:induction false} MatchedKindLive(spec: LexerSpec, data: string, pos: nat, line: nat, i: nat, n: nat)
    requires pos < |data| && data[pos] !in spec.ignore && FirstMatch(spec.rules, data, pos) == Matched(i, n)
    ensures FromLiveEntry(spec, Next(spec, data, pos, line))
    decreases |data| - pos, 1
  {
    var effect := Apply(spec, spec.rules[i], data[pos..pos + n], line, pos);
    if effect.Skip? {
      SkippedKindLive(spec, data, pos, line, i, n, effect.lines);
    } else if effect.Yield? {
      YieldedKindLive(spec, data, pos, line, i, n, effect.tok);
    } else {
      NextThrows(spec, data, pos, line, i, n, effect.error);
    }
  }

  /** The same, where the entry chosen discards its match and moves the line counter by `k`. */
  lemma {:induction false} SkippedKindLive(spec: LexerSpec, data: string, pos: nat, line: nat, i: nat, n: nat, k: nat)
    requires pos < |data| && data[pos] !in spec.ignore && FirstMatch(spec.rules, data, pos) == Matched(i, n)
    requires Apply(spec, spec.rules[i], data[pos..pos + n], line, pos) == Skip(k)
    ensures FromLiveEntry(spec, Next(spec, data, pos, line))
    decreases |data| - pos, 0
  {
    NextSkips(spec, data, pos, line, i, n, k);
    NextKindLive(spec, data, pos + n, line + k);
  }

  /** The token a matched entry yields carries one of the types of that entry, which is live. */
  lemma {:induction false} YieldedKindLive(spec: LexerSpec, data: string, pos: nat, line: nat, i: nat, n: nat, tok: Token)
    requires pos < |data| && data[pos] !in spec.ignore && FirstMatch(spec.rules, data, pos) == Matched(i, n)
    requires Apply(spec, spec.rules[i], data[pos..pos + n], line, pos) == Yield(tok)
    ensures Next(spec, data, pos, line) == Produced(tok, pos + n, line)
    ensures Live(spec.rules, i) && tok.kind in Kinds(spec, spec.rules[i])
  {
    NextYields(spec, data, pos, line, i, n, tok);
    ChosenIsLive(spec.rules, data, pos);
    ApplyKind(spec, spec.rules[i], data[pos..pos + n], line, pos);
  }

  lemma {:induction false} KindsLive(spec: LexerSpec, data: string, pos: nat, line: nat)
    ensures forall i :: 0 <= i < |LexFrom(spec, data, pos, line).tokens| ==>
              exists k: nat {:trigger Live(spec.rules, k)} :: Live(spec.rules, k) && LexFrom(spec, data, pos, line).tokens[i].kind in Kinds(spec, spec.rules[k])
    decreases |data| - pos
  {
    NextKindLive(spec, data, pos, line);
    match Next(spec, data, pos, line)
    case Produced(t, p, l) =>
      KindsLive(spec, data, p, l);
      var rest := LexFrom(spec, data, p, l).tokens;
      assert LexFrom(spec, data, pos, line).tokens == [t] + rest;
      forall i | 0 < i < |[t] + rest|
        ensures exists k: nat {:trigger Live(spec.rules, k)} :: Live(spec.rules, k) && ([t] + rest)[i].kind in Kinds(spec, spec.rules[k])
      {
        assert ([t] + rest)[i] == rest[i - 1];
      }
    case Exhausted(_, _) =>
      assert LexFrom(spec, data, pos, line).tokens == [];
    case Raised(_, _, _) =>
      assert LexFrom(spec, data, pos, line).tokens == [];
  }

  /** When newlines are ignored, the `\n+` rule can never match what is left, so the line counter never moves. */
  lemma {:induction false} LineNeverAdvances(spec: LexerSpec, data: string, pos: nat, line: nat)
    requires NewlinesIgnored(spec)
    ensures Next(spec, data, pos, line).line == line
    decreases |data| - pos
  {
    if pos < |data| {
      if data[pos] in spec.ignore {
        LineNeverAdvances(spec, data, pos + 1, line);
      } else {
        assert data[pos] != '\n';
        forall j | 0 <= j < |spec.rules| && spec.rules[j].action.CountLines?
          ensures MatchLength(spec.rules[j].pattern, data, pos) == 0
        {
          assert MatchLength(spec.rules[j].pattern, data, pos) == RunLength(data, pos, NewlineChar);
        }
        match FirstMatch(spec.rules, data, pos)
        case NoMatch => LineNeverAdvances(spec, data, pos + 1, line);
        case Matched(i, n) =>
      }
    }
  }

  lemma {:induction false} AllOnLine(spec: LexerSpec, data: string, pos: nat, line: nat)
    requires NewlinesIgnored(spec)
    ensures forall i :: 0 <= i < |LexFrom(spec, data, pos, line).tokens| ==>
              LexFrom(spec, data, pos, line).tokens[i].line == line
    decreases |data| - pos
  {
    LineNeverAdvances(spec, data, pos, line);
    match Next(spec, data, pos, line)
    case Produced(t, p, l) =>
      AllOnLine(spec, data, p, l);
      assert LexFrom(spec, data, pos, line).tokens == [t] + LexFrom(spec, data, p, l).tokens;
    case Exhausted(_, _) =>
    case Raised(_, _, _) =>
  }

  // ---------------------------------------------------------------- int(...) of a digit run

  /** The decimal digits of `n`, most significant first (the inverse of `DecimalValue`). */
  function DecimalText(n: nat): (s: string)
    ensures |s| > 0 && forall i :: 0 <= i < |s| ==> IsDigit(s[i])
    decreases n
  {
    var d := ['0' + ((n % 10) as char)];
    if n < 10 then d else DecimalText(n / 10) + d
  }

  lemma {:induction false} DecimalRoundTrip(n: nat)
    ensures DecimalValue(DecimalText(n)) == n
    decreases n
  {
    var s := DecimalText(n);
    var d := ['0' + ((n % 10) as char)];
    if n >= 10 {
      DecimalRoundTrip(n / 10);
      assert s == DecimalText(n / 10) + d;
      assert s[..|s| - 1] == DecimalText(n / 10);
    }
  }

  function Pow10(k: nat): (p: nat)
    ensures p >= 1
  {
    if k == 0 then 1 else 10 * Pow10(k - 1)
  }

  /** int(s) of k digits lies in [0, 10^k); leading zeros add nothing. */
  lemma {:induction false} DecimalBound(s: string)
    ensures DecimalValue(s) < Pow10(|s|)
    decreases |s|
  {
    if |s| > 0 {
      DecimalBound(s[..|s| - 1]);
    }
  }

  lemma {:induction false} LeadingZero(s: string)
    ensures DecimalValue("0" + s) == DecimalValue(s)
    decreases |s|
  {
    if |s| > 0 {
      assert ("0" + s)[..|"0" + s| - 1] == "0" + s[..|s| - 1];
      LeadingZero(s[..|s| - 1]);
    }
  }
}
