/**
 * The semantic actions of the yacc grammar in goparser.py.
 *
 * PLY calls the action `p_<name>` once for every reduction of a production of
 * `<name>`, with `p[1..]` the values of the right-hand-side symbols (a token's
 * value, or what the action of a nonterminal left in its `p[0]`) and `p[0]` the
 * result slot, which starts as None.  So `len(p)` is one more than the number of
 * right-hand-side symbols.  Each action is a function of those values, written
 * `rhs` here (`p[i]` is `rhs[i - 1]`), with Python's IndexError for a `p[i]` past
 * the end and its TypeError for a list concatenated with something that is not a
 * list.  The productions are the docstrings of the actions; the LALR tables that
 * decide which production is reduced are not part of this model.
 */
module GoGrammar {
  import opened PyValue
  import opened PlyLex

  datatype PyError = IndexError | TypeError

  /** What an action leaves in `p[0]`, or what it raises. */
  datatype Reduced = Done(value: Value) | Raises(error: PyError)

  /** `len(p)` for a reduction with these right-hand-side values. */
  function Len(rhs: seq<Value>): nat {
    |rhs| + 1
  }

  // ---------------------------------------------------------------- the productions

  /** The nonterminals, in the order of their actions. */
  datatype Nonterminal =
    | Program | TypeSpecifier | Declaration | Ids | SwitchStatement | CaseStatements
    | CaseStatement | Statements | Empty | Statement | Expression | Assignment
    | FunctionDeclaration | Parameters | Parameter

  /** The right-hand sides of the productions of `lhs`, as the action's docstring lists them. */
  function Alternatives(lhs: Nonterminal): seq<seq<string>> {
    match lhs
    case Program => [["statements"]]
    case TypeSpecifier => [["INT"], ["BOOL"], ["FLOAT"], ["STRING"]]
    case Declaration =>
      [["VAR", "ID", "type_specifier"],
       ["VAR", "ID", "ids", "type_specifier"],
       ["CONST", "ID", "type_specifier"],
       ["CONST", "ID", "ids", "type_specifier"],
       ["VAR", "ID", "EQUALS", "LSQBRACE", "NUMBER", "RSQBRACE", "type_specifier", "LBRACE", "RBRACE"]]
    case Ids => [["COMMA", "ids"], ["COMMA", "ID"]]
    case SwitchStatement =>
      [["SWITCH", "ID", "LBRACE", "case_statements", "RBRACE"],
       ["SWITCH", "NUMBER", "LBRACE", "case_statements", "RBRACE"]]
    case CaseStatements => [["case_statement"], ["case_statement", "case_statements"]]
    case CaseStatement => [["CASE", "NUMBER", "COLON", "statements"]]
    case Statements =>
      [["declaration"], ["statement"], ["declaration", "statements"], ["statement", "statements"],
       ["function_declaration"]]
    case Empty => [[]]
    case Statement =>
      [["IF", "LPAREN", "expression", "RPAREN", "LBRACE", "program", "RBRACE"],
       ["IF", "LPAREN", "expression", "RPAREN", "LBRACE", "program", "RBRACE", "ELSE", "LBRACE", "program", "RBRACE"],
       ["FOR", "assignment", "SEMICOLON", "expression", "SEMICOLON", "expression", "LBRACE", "program", "RBRACE"],
       ["assignment"],
       ["switch_statement"]]
    case Expression =>
      [["expression", "PLUS", "expression"], ["expression", "MINUS", "expression"],
       ["expression", "MUL", "expression"], ["expression", "DIVIDE", "expression"],
       ["LPAREN", "expression", "RPAREN"],
       ["expression", "LESSTHAN", "expression"], ["expression", "GREATERTHAN", "expression"],
       ["expression", "LESSTHANEQ", "expression"], ["expression", "GREATERTHANEQ", "expression"],
       ["expression", "DEQUALS", "expression"],
       ["ID"], ["NUMBER"]]
    case Assignment =>
      [["ID", "EQUALS", "expression"], ["ID", "EQUALS", "BOOLEAN"], ["ID", "EQUALS", "FLOATINGNUMBER"]]
    case FunctionDeclaration => [["FUNCTION", "ID", "LPAREN", "parameters", "RPAREN"]]
    case Parameters => [["parameter", "COMMA", "parameters"], ["parameter"]]
    case Parameter => [["ID", "type_specifier"], ["empty"]]
  }

  // ---------------------------------------------------------------- the actions

  /** p_program: p[0] = p[1]. */
  function ReduceProgram(rhs: seq<Value>): Reduced {
    if |rhs| >= 1 then Done(rhs[0]) else Raises(IndexError)
  }

  /** p_type_specifier: p[0] = p[1] when len(p) == 2; otherwise p[0] stays None. */
  function ReduceTypeSpecifier(rhs: seq<Value>): Reduced {
    if Len(rhs) == 2 then Done(rhs[0]) else Done(None)
  }

  /**
   * p_declaration: `('declaration', p[1], [p[2]])` when len(p) == 3, otherwise
   * `('declaration', p[1], (p[2], p[3]))`.
   */
  function ReduceDeclaration(rhs: seq<Value>): (r: Reduced)
    ensures r.Done? <==> |rhs| >= 2
    ensures r.Done? ==> r.value.Tuple? && |r.value.items| == 3 && r.value.items[0] == Str("declaration") &&
                        r.value.items[1] == rhs[0]
  {
    if Len(rhs) == 3 then Done(Tuple([Str("declaration"), rhs[0], List([rhs[1]])]))
    else if |rhs| >= 3 then Done(Tuple([Str("declaration"), rhs[0], Tuple([rhs[1], rhs[2]])]))
    else Raises(IndexError)
  }

  /** p_ids: p[0] = p[2]. */
  function ReduceIds(rhs: seq<Value>): Reduced {
    if |rhs| >= 2 then Done(rhs[1]) else Raises(IndexError)
  }

  /** p_switch_statement: ('switch', p[2], p[4]). */
  function ReduceSwitchStatement(rhs: seq<Value>): Reduced {
    if |rhs| >= 4 then Done(Tuple([Str("switch"), rhs[1], rhs[3]])) else Raises(IndexError)
  }

  /** `[p[1]]` when len(p) == 2, otherwise `[p[1]] + p[2]` (p_case_statements and p_statements). */
  function ReduceList(rhs: seq<Value>): Reduced {
    if Len(rhs) == 2 then Done(List([rhs[0]]))
    else if |rhs| == 0 then Raises(IndexError)
    else if rhs[1].List? then Done(List([rhs[0]] + rhs[1].items))
    else Raises(TypeError)
  }

  /** p_case_statements. */
  function ReduceCaseStatements(rhs: seq<Value>): Reduced {
    ReduceList(rhs)
  }

  /** p_case_statement: ('case', p[2], p[4]). */
  function ReduceCaseStatement(rhs: seq<Value>): Reduced {
    if |rhs| >= 4 then Done(Tuple([Str("case"), rhs[1], rhs[3]])) else Raises(IndexError)
  }

  /** p_statements. */
  function ReduceStatements(rhs: seq<Value>): Reduced {
    ReduceList(rhs)
  }

  /** p_empty: the body only reads p[0], which stays None. */
  function ReduceEmpty(rhs: seq<Value>): Reduced {
    Done(None)
  }

  /**
   * p_statement: `('if', p[3], p[6])` when len(p) == 7 and p[1] == "if",
   * `('if-else', p[3], p[6], p[12])` when len(p) == 13, `('switch', p[3], p[6])`
   * when len(p) == 2 and p[1] == "switch" (which raises: there is no p[3]),
   * and p[1] otherwise.
   */
  function ReduceStatement(rhs: seq<Value>): (r: Reduced)
    ensures r.Raises? <==> |rhs| == 0 || (|rhs| == 1 && rhs[0] == Str("switch"))
  {
    if Len(rhs) == 7 && rhs[0] == Str("if") then Done(Tuple([Str("if"), rhs[2], rhs[5]]))
    else if Len(rhs) == 13 then Done(Tuple([Str("if-else"), rhs[2], rhs[5], rhs[11]]))
    else if Len(rhs) == 2 && rhs[0] == Str("switch") then Raises(IndexError)
    else if |rhs| >= 1 then Done(rhs[0])
    else Raises(IndexError)
  }

  /** p_expression: (p[2], p[1], p[3]) when len(p) == 4, p[1] otherwise. */
  function ReduceExpression(rhs: seq<Value>): (r: Reduced)
    ensures r.Done? <==> |rhs| >= 1
  {
    if Len(rhs) == 4 then Done(Tuple([rhs[1], rhs[0], rhs[2]]))
    else if |rhs| >= 1 then Done(rhs[0])
    else Raises(IndexError)
  }

  /** p_assignment: ('assignment', p[1], p[3]) when len(p) == 5; otherwise p[0] stays None. */
  function ReduceAssignment(rhs: seq<Value>): (r: Reduced)
    ensures r.Done?
    ensures r.value != None <==> |rhs| == 4
  {
    if Len(rhs) == 5 then Done(Tuple([Str("assignment"), rhs[0], rhs[2]])) else Done(None)
  }

  /** p_function_declaration: ("function_declaration", p[1]). */
  function ReduceFunctionDeclaration(rhs: seq<Value>): (r: Reduced)
    ensures r.Done? <==> |rhs| >= 1
  {
    if |rhs| >= 1 then Done(Tuple([Str("function_declaration"), rhs[0]])) else Raises(IndexError)
  }

  /** p_parameters: p[0] = p[1]. */
  function ReduceParameters(rhs: seq<Value>): Reduced {
    if |rhs| >= 1 then Done(rhs[0]) else Raises(IndexError)
  }

  /** p_parameter: p[0] = p[1]. */
  function ReduceParameter(rhs: seq<Value>): Reduced {
    if |rhs| >= 1 then Done(rhs[0]) else Raises(IndexError)
  }

  /** The action PLY runs for a reduction to `lhs`. */
  function Reduce(lhs: Nonterminal, rhs: seq<Value>): Reduced {
    match lhs
    case Program => ReduceProgram(rhs)
    case TypeSpecifier => ReduceTypeSpecifier(rhs)
    case Declaration => ReduceDeclaration(rhs)
    case Ids => ReduceIds(rhs)
    case SwitchStatement => ReduceSwitchStatement(rhs)
    case CaseStatements => ReduceCaseStatements(rhs)
    case CaseStatement => ReduceCaseStatement(rhs)
    case Statements => ReduceStatements(rhs)
    case Empty => ReduceEmpty(rhs)
    case Statement => ReduceStatement(rhs)
    case Expression => ReduceExpression(rhs)
    case Assignment => ReduceAssignment(rhs)
    case FunctionDeclaration => ReduceFunctionDeclaration(rhs)
    case Parameters => ReduceParameters(rhs)
    case Parameter => ReduceParameter(rhs)
  }

  // ---------------------------------------------------------------- when an action raises

  /**
   * The highest `p[i]` the action of `lhs` reads on every path: a reduction with
   * fewer right-hand-side values raises IndexError.  p_type_specifier and
   * p_assignment read nothing unless len(p) is 2 or 5, and p_empty reads nothing.
   */
  function ReadsUpTo(lhs: Nonterminal): nat {
    match lhs
    case TypeSpecifier => 0
    case Empty => 0
    case Assignment => 0
    case Declaration => 2
    case Ids => 2
    case SwitchStatement => 4
    case CaseStatement => 4
    case _ => 1
  }

  /**
   * An action raises exactly when `p` is shorter than what it reads, when a list
   * action is handed something other than a list to concatenate with (TypeError),
   * or, for p_statement, when the single symbol is the text "switch" and the
   * action goes on to read p[3].
   */
  lemma {:induction false} RaisesExactly(lhs: Nonterminal, rhs: seq<Value>)
    ensures Reduce(lhs, rhs).Raises? <==>
              |rhs| < ReadsUpTo(lhs) ||
              (lhs in {Statements, CaseStatements} && |rhs| >= 2 && !rhs[1].List?) ||
              (lhs == Statement && |rhs| == 1 && rhs[0] == Str("switch"))
    ensures Reduce(lhs, rhs) == Raises(TypeError) <==>
              lhs in {Statements, CaseStatements} && |rhs| >= 2 && !rhs[1].List?
  {
  }

  // ---------------------------------------------------------------- what the actions build

  /** Every reduction of a production of `lhs` runs to completion, given lists where lists are concatenated. */
  lemma {:induction false} ReductionsComplete(lhs: Nonterminal, k: nat, rhs: seq<Value>)
    requires k < |Alternatives(lhs)| && |rhs| == |Alternatives(lhs)[k]|
    requires lhs in {Statements, CaseStatements} && |rhs| == 2 ==> rhs[1].List?
    requires lhs == Statement && |rhs| == 1 ==> rhs[0] != Str("switch")
    ensures Reduce(lhs, rhs).Done?
  {
    var alts := Alternatives(lhs);
    assert |rhs| == |alts[k]|;
    if lhs == Statement {
      assert |rhs| in {7, 11, 9, 1};
    } else if lhs in {Statements, CaseStatements} {
      assert |rhs| in {1, 2};
    } else if lhs == Declaration {
      assert |rhs| >= 3;
    } else if lhs in {SwitchStatement, CaseStatement} {
      assert |rhs| >= 4;
    } else if lhs == Ids {
      assert |rhs| == 2;
    } else if lhs != Empty {
      assert |rhs| >= 1;
    }
  }

  /**
   * No declaration production has two symbols, so the list form of p_declaration is
   * never built: every declaration is `('declaration', keyword, (p[2], p[3]))`,
   * which for `VAR ID ids type_specifier` keeps the last name of `ids` and drops the
   * type, and for the array form keeps the text "=".
   */
  lemma {:induction false} DeclarationAlwaysPair(k: nat, rhs: seq<Value>)
    requires k < |Alternatives(Declaration)| && |rhs| == |Alternatives(Declaration)[k]|
    ensures Reduce(Declaration, rhs) == Done(Tuple([Str("declaration"), rhs[0], Tuple([rhs[1], rhs[2]])]))
  {
    assert |rhs| >= 3;
  }

  /** Every assignment production has three symbols, so p_assignment always leaves None. */
  lemma {:induction false} AssignmentNone(k: nat, rhs: seq<Value>)
    requires k < |Alternatives(Assignment)| && |rhs| == |Alternatives(Assignment)[k]|
    ensures Reduce(Assignment, rhs) == Done(None)
  {
    assert |rhs| == 3;
  }

  /**
   * The if and if-else productions have 7 and 11 symbols, so len(p) is 8 or 12 and
   * neither tuple branch of p_statement is taken: every statement reduction that
   * completes passes p[1] through, which for an if or a for is the keyword text.
   */
  lemma {:induction false} StatementPassesFirst(k: nat, rhs: seq<Value>)
    requires k < |Alternatives(Statement)| && |rhs| == |Alternatives(Statement)[k]|
    requires |rhs| == 1 ==> rhs[0] != Str("switch")
    ensures Reduce(Statement, rhs) == Done(rhs[0])
  {
    assert |rhs| in {1, 7, 9, 11};
  }

  /**
   * The binary and parenthesised expression productions have three symbols and
   * build `(p[2], p[1], p[3])`: `(op, left, right)` for a binary form and
   * `(inner, '(', ')')` for the parenthesised one; ID and NUMBER pass through.
   */
  lemma {:induction false} ExpressionShapes(k: nat, rhs: seq<Value>)
    requires k < |Alternatives(Expression)| && |rhs| == |Alternatives(Expression)[k]|
    ensures |rhs| == 3 || |rhs| == 1
    ensures |rhs| == 3 ==> Reduce(Expression, rhs) == Done(Tuple([rhs[1], rhs[0], rhs[2]]))
    ensures |rhs| == 1 ==> Reduce(Expression, rhs) == Done(rhs[0])
    ensures Alternatives(Expression)[k] == ["LPAREN", "expression", "RPAREN"] ==>
              Reduce(Expression, rhs) == Done(Tuple([rhs[1], rhs[0], rhs[2]]))
  {
    assert |rhs| in {1, 3};
  }

  /** A switch statement reduced through `statement : switch_statement` keeps its tuple. */
  lemma {:induction false} SwitchStatementKept(rhs: seq<Value>)
    requires |rhs| == 5
    ensures ReduceSwitchStatement(rhs).Done?
    ensures Reduce(Statement, [ReduceSwitchStatement(rhs).value]) == Done(Tuple([Str("switch"), rhs[1], rhs[3]]))
  {
  }

  /** The single-symbol productions of type_specifier, program, parameters and parameter pass their value up. */
  lemma {:induction false} UnitPassesValue(lhs: Nonterminal, v: Value)
    requires lhs in {Program, TypeSpecifier, Parameters, Parameter}
    ensures Reduce(lhs, [v]) == Done(v)
  {
  }

  /** `parameter : ID type_specifier` keeps the name and forgets the type. */
  lemma {:induction false} ParameterKeepsName(name: Value, t: Value)
    ensures Reduce(Parameter, [name, t]) == Done(name)
  {
  }

  /** `parameter : empty` leaves None: p_empty reads nothing and its p[0] stays None. */
  lemma {:induction false} EmptyParameterIsNone(rhs: seq<Value>)
    requires |rhs| == |Alternatives(Empty)[0]|
    ensures Reduce(Empty, rhs) == Done(None)
    ensures Reduce(Parameter, [Reduce(Empty, rhs).value]) == Done(None)
  {
  }

  /** p_function_declaration keeps only the FUNCTION keyword: the name and the parameters are forgotten. */
  lemma {:induction false} FunctionDeclarationForgets(rhs: seq<Value>, rhs': seq<Value>)
    requires |rhs| == |rhs'| == |Alternatives(FunctionDeclaration)[0]|
    ensures Reduce(FunctionDeclaration, rhs).Done?
    ensures Reduce(FunctionDeclaration, rhs) == Reduce(FunctionDeclaration, rhs') <==> rhs[0] == rhs'[0]
  {
    var r, r' := Reduce(FunctionDeclaration, rhs), Reduce(FunctionDeclaration, rhs');
    if r == r' {
      assert r.value.items[1] == rhs[0] && r'.value.items[1] == rhs'[0];
    }
  }

  // ---------------------------------------------------------------- right-recursive derivations

  /**
   * The value of a `statements` (or `case_statements`) derivation over the values
   * of its items, innermost reduction first: the last item by the one-symbol
   * production, each earlier one by the two-symbol production.
   */
  function ListDerivation(items: seq<Value>): (r: Reduced)
    requires |items| > 0
    decreases |items|
  {
    if |items| == 1 then ReduceList([items[0]])
    else match ListDerivation(items[1..])
      case Done(rest) => ReduceList([items[0], rest])
      case Raises(e) => Raises(e)
  }

  /** A statements derivation builds the list of its items, in source order. */
  lemma {:induction false} ListDerivationKeepsItems(items: seq<Value>)
    requires |items| > 0
    ensures ListDerivation(items) == Done(List(items))
    decreases |items|
  {
    if |items| > 1 {
      ListDerivationKeepsItems(items[1..]);
      assert [items[0]] + items[1..] == items;
    } else {
      assert [items[0]] == items;
    }
  }

  /** The values of the `case_statement` reductions `CASE n : body`, one per (n, body). */
  function CaseValues(cases: seq<(Value, Value)>): seq<Value> {
    seq(|cases|, i requires 0 <= i < |cases| => ReduceCaseStatement([Str("case"), cases[i].0, Str(":"), cases[i].1]).value)
  }

  /**
   * A switch over a case_statements derivation keeps every case's number and
   * body, in source order, in its third component.
   */
  lemma {:induction false} SwitchKeepsCases(subject: Value, cases: seq<(Value, Value)>)
    requires |cases| > 0
    ensures ListDerivation(CaseValues(cases)).Done?
    ensures var list := ListDerivation(CaseValues(cases)).value;
            var r := Reduce(SwitchStatement, [Str("switch"), subject, Str("{"), list, Str("}")]);
            r.Done? && r.value.Tuple? && |r.value.items| == 3 && r.value.items[1] == subject &&
            r.value.items[2].List? && |r.value.items[2].items| == |cases| &&
            forall i :: 0 <= i < |cases| ==> r.value.items[2].items[i] == Tuple([Str("case"), cases[i].0, cases[i].1])
  {
    ListDerivationKeepsItems(CaseValues(cases));
  }

  /** The value of an `ids` derivation `, n1 , n2 ... , nk` over the values of the names. */
  function IdsDerivation(names: seq<Value>): (r: Reduced)
    requires |names| > 0
    decreases |names|
  {
    if |names| == 1 then ReduceIds([Str(","), names[0]])
    else match IdsDerivation(names[1..])
      case Done(rest) => ReduceIds([Str(","), rest])
      case Raises(e) => Raises(e)
  }

  /** An ids derivation keeps only its last name. */
  lemma {:induction false} IdsKeepLast(names: seq<Value>)
    requires |names| > 0
    ensures IdsDerivation(names) == Done(names[|names| - 1])
    decreases |names|
  {
    if |names| > 1 {
      IdsKeepLast(names[1..]);
    }
  }

  /** The value of a `parameters` derivation `p1 , p2 ... , pk` over the values of the parameters. */
  function ParametersDerivation(params: seq<Value>): (r: Reduced)
    requires |params| > 0
    decreases |params|
  {
    if |params| == 1 then ReduceParameters([params[0]])
    else match ParametersDerivation(params[1..])
      case Done(rest) => ReduceParameters([params[0], Str(","), rest])
      case Raises(e) => Raises(e)
  }

  /** A parameters derivation keeps only its first parameter. */
  lemma {:induction false} ParametersKeepFirst(params: seq<Value>)
    requires |params| > 0
    ensures ParametersDerivation(params) == Done(params[0])
    decreases |params|
  {
    if |params| > 1 {
      ParametersKeepFirst(params[1..]);
    }
  }

  // ---------------------------------------------------------------- expression trees

  /** The operator texts of the binary expression productions. */
  const Operators: set<string> := {"+", "-", "*", "/", "<", ">", "<=", ">=", "=="}

  /** An expression as the grammar derives it. */
  datatype Expr =
    | Binary(op: string, left: Expr, right: Expr)   // expression OP expression
    | Paren(inner: Expr)                            // LPAREN expression RPAREN
    | Name(id: string)                              // ID
    | Number(n: nat)                                // NUMBER

  /** A tree whose names are identifiers and whose operators are those of the grammar. */
  predicate WellFormed(e: Expr) {
    match e
    case Binary(op, l, r) => op in Operators && WellFormed(l) && WellFormed(r)
    case Paren(inner) => WellFormed(inner)
    case Name(id) => |id| > 0 && IsIdentStart(id[0])
    case Number(_) => true
  }

  /** What p_expression builds for a derivation of `e`, children first. */
  function ExprValue(e: Expr): (r: Reduced)
  {
    match e
    case Binary(op, l, r) =>
      (match (ExprValue(l), ExprValue(r))
       case (Done(lv), Done(rv)) => ReduceExpression([lv, Str(op), rv])
       case (Raises(x), _) => Raises(x)
       case (_, Raises(x)) => Raises(x))
    case Paren(inner) =>
      (match ExprValue(inner)
       case Done(v) => ReduceExpression([Str("("), v, Str(")")])
       case Raises(x) => Raises(x))
    case Name(id) => ReduceExpression([Str(id)])
    case Number(n) => ReduceExpression([Int(n)])
  }

  datatype Option<T> = Absent | Some(value: T)

  /**
   * Reads an expression back from the value p_expression built: a parenthesised
   * expression became `(inner, '(', ')')` and a binary one `(op, left, right)`.
   */
  function DecodeExpr(v: Value): (r: Option<Expr>)
  {
    match v
    case Tuple(items) =>
      if |items| != 3 then Absent
      else if items[1] == Str("(") && items[2] == Str(")") then
        (match DecodeExpr(items[0])
         case Some(inner) => Some(Paren(inner))
         case Absent => Absent)
      else if items[0].Str? then
        (match (DecodeExpr(items[1]), DecodeExpr(items[2]))
         case (Some(l), Some(r)) => Some(Binary(items[0].s, l, r))
         case _ => Absent)
      else Absent
    case Str(s) => Some(Name(s))
    case Int(i) => if i >= 0 then Some(Number(i)) else Absent
    case _ => Absent
  }

  /** p_expression never raises on a derivation, and the value it builds determines the tree. */
  lemma {:induction false} ExprRoundTrip(e: Expr)
    requires WellFormed(e)
    ensures ExprValue(e).Done?
    ensures DecodeExpr(ExprValue(e).value) == Some(e)
  {
    match e
    case Binary(op, l, r) =>
      ExprRoundTrip(l);
      ExprRoundTrip(r);
      assert ExprValue(l).value != Str("(") by {
        if l.Name? { assert l.id[0] != '('; }
      }
    case Paren(inner) =>
      ExprRoundTrip(inner);
    case Name(id) =>
    case Number(n) =>
  }
}
