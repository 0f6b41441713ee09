// The expression tree the static-context visitor walks, with the children
// each node kind hands to the generic descendant traversal.

module Expressions {
  import opened Base
  import opened Names

  /** Expression kinds whose static-context visit is the default action. */
  datatype OtherKind =
    | ArrayUnboxing | ArrayLookup | ObjectLookup | Predicate | DynamicFunctionCall
    | ArrayConstructor | ObjectConstructor | ContextItem | NamedFunctionRef
    | IntegerLiteral | StringLiteral | DoubleLiteral | DecimalLiteral | NullLiteral | BooleanLiteral
    | Additive | Multiplicative | SimpleMap | And | Or | Not | Unary | Range | StringConcat
    | Comparison | InstanceOf | Treat | Castable | Cast | TryCatch

  datatype Param = Param(name: Name, paramType: SequenceType)

  datatype Expr =
    | VariableReference(variableName: Name)
      /** A function literal, or the body of a declared function when name is present. */
    | InlineFunction(functionName: Option<Name>, params: seq<Param>, returnType: SequenceType, body: Expr)
      /** An absent argument is a '?' placeholder of a partial application. */
    | FunctionCall(identifier: FunctionIdentifier, arguments: seq<Option<Expr>>)
    | Flwor(clauses: seq<Clause>, returnExpression: Expr)
    | Quantified(bindings: seq<QuantifiedBinding>, evaluation: Expr)
    | TypeSwitch(test: Expr, typeCases: seq<TypeSwitchCase>, defaultCase: TypeSwitchCase)
    | Comma(expressions: seq<Option<Expr>>)
    | Conditional(condition: Expr, thenBranch: Expr, elseBranch: Expr)
    | Switch(test: Expr, switchCases: seq<SwitchCase>, defaultExpression: Expr)
    | Other(kind: OtherKind, children: seq<Expr>)

  datatype Clause =
    | ForClause(variable: Name, variableType: SequenceType, positionalVariable: Option<Name>, allowingEmpty: bool, expression: Expr)
    | LetClause(variable: Name, variableType: SequenceType, expression: Expr)
    | GroupByClause(groupVariables: seq<GroupByVariable>)
    | CountClause(variable: Name)
    | WhereClause(expression: Expr)
    | OrderByClause(expressions: seq<Expr>)
    | ReturnClause(expression: Expr)

  datatype GroupByVariable = GroupByVariable(name: Name, variableType: SequenceType, expression: Option<Expr>)

  datatype QuantifiedBinding = QuantifiedBinding(name: Name, variableType: SequenceType, expression: Expr)

  datatype TypeSwitchCase = TypeSwitchCase(variable: Option<Name>, returnExpression: Expr)

  datatype SwitchCase = SwitchCase(conditions: seq<Expr>, returnExpression: Expr)

  datatype Declaration =
    | FunctionDeclaration(name: Name, params: seq<Param>, returnType: SequenceType, body: Expr)
    | VariableDeclaration(name: Name, variableType: SequenceType, expression: Option<Expr>)

  /** The InlineFunctionExpression a function declaration holds. */
  function DeclaredFunction(d: Declaration): (e: Expr)
    requires d.FunctionDeclaration?
    ensures e.InlineFunction? && e.functionName == Some(d.name)
  {
    InlineFunction(Some(d.name), d.params, d.returnType, d.body)
  }

  // ---------------------------------------------------------------------
  // Sizes, for termination of the mutually recursive visits

  function ExprSize(e: Expr): (n: nat)
    ensures n >= 1
  {
    match e
    case VariableReference(_) => 1
    case InlineFunction(_, _, _, body) => 1 + ExprSize(body)
    case FunctionCall(_, args) => 1 + OptionsSize(args)
    case Flwor(clauses, ret) => 2 + ClausesSize(clauses) + ExprSize(ret)
    case Quantified(bindings, evaluation) => 1 + BindingsSize(bindings) + ExprSize(evaluation)
    case TypeSwitch(test, cases, d) => 1 + ExprSize(test) + TypeSwitchCasesSize(cases) + ExprSize(d.returnExpression)
    case Comma(es) => 1 + OptionsSize(es)
    case Conditional(c, t, f) => 1 + ExprSize(c) + ExprSize(t) + ExprSize(f)
    case Switch(test, cases, d) => 1 + ExprSize(test) + SwitchCasesSize(cases) + ExprSize(d)
    case Other(_, children) => 1 + ExprsSize(children)
  }

  function ExprsSize(es: seq<Expr>): nat
  {
    if es == [] then 0 else ExprSize(es[0]) + ExprsSize(es[1..])
  }

  function OptionsSize(es: seq<Option<Expr>>): nat
  {
    if es == [] then 0 else OptionSize(es[0]) + OptionsSize(es[1..])
  }

  function OptionSize(o: Option<Expr>): nat
  {
    if o.Some? then ExprSize(o.value) else 0
  }

  function ClauseSize(c: Clause): (n: nat)
    ensures n >= 1
  {
    match c
    case ForClause(_, _, _, _, e) => 1 + ExprSize(e)
    case LetClause(_, _, e) => 1 + ExprSize(e)
    case GroupByClause(vs) => 1 + GroupVariablesSize(vs)
    case CountClause(_) => 2
    case WhereClause(e) => 1 + ExprSize(e)
    case OrderByClause(es) => 1 + ExprsSize(es)
    case ReturnClause(e) => 1 + ExprSize(e)
  }

  function ClausesSize(cs: seq<Clause>): nat
  {
    if cs == [] then 0 else ClauseSize(cs[0]) + ClausesSize(cs[1..])
  }

  function GroupVariablesSize(vs: seq<GroupByVariable>): nat
  {
    if vs == [] then 0 else GroupVariableSize(vs[0]) + GroupVariablesSize(vs[1..])
  }

  function GroupVariableSize(v: GroupByVariable): nat
  {
    1 + OptionSize(v.expression)
  }

  function BindingsSize(bs: seq<QuantifiedBinding>): nat
  {
    if bs == [] then 0 else BindingSize(bs[0]) + BindingsSize(bs[1..])
  }

  function BindingSize(b: QuantifiedBinding): nat
  {
    ExprSize(b.expression)
  }

  function TypeSwitchCasesSize(cs: seq<TypeSwitchCase>): nat
  {
    if cs == [] then 0 else TypeSwitchCaseSize(cs[0]) + TypeSwitchCasesSize(cs[1..])
  }

  function TypeSwitchCaseSize(c: TypeSwitchCase): nat
  {
    ExprSize(c.returnExpression)
  }

  function SwitchCasesSize(cs: seq<SwitchCase>): nat
  {
    if cs == [] then 0 else ExprsSize(cs[0].conditions) + ExprSize(cs[0].returnExpression) + SwitchCasesSize(cs[1..])
  }

  lemma {:induction false} ExprsSizeAppend(a: seq<Expr>, b: seq<Expr>)
    ensures ExprsSize(a + b) == ExprsSize(a) + ExprsSize(b)
  {
    if a == [] {
      assert a + b == b;
    } else {
      assert (a + b)[0] == a[0] && (a + b)[1..] == a[1..] + b;
      ExprsSizeAppend(a[1..], b);
    }
  }

  lemma {:induction false} ClausesSizeAppend(a: seq<Clause>, b: seq<Clause>)
    ensures ClausesSize(a + b) == ClausesSize(a) + ClausesSize(b)
  {
    if a == [] {
      assert a + b == b;
    } else {
      assert (a + b)[0] == a[0] && (a + b)[1..] == a[1..] + b;
      ClausesSizeAppend(a[1..], b);
    }
  }

  lemma {:induction false} PresentExpressionsSize(es: seq<Option<Expr>>)
    ensures ExprsSize(PresentExpressions(es)) == OptionsSize(es)
  {
    if es != [] {
      PresentExpressionsSize(es[1..]);
      if es[0].Some? {
        ExprsSizeAppend([es[0].value], PresentExpressions(es[1..]));
        assert ExprsSize([es[0].value]) == ExprSize(es[0].value) by {
          assert [es[0].value][1..] == [];
        }
      }
    }
  }

  lemma {:induction false} CaseExpressionsSize(cases: seq<SwitchCase>)
    ensures ExprsSize(CaseExpressions(cases)) == SwitchCasesSize(cases)
  {
    if cases != [] {
      var c := cases[0];
      CaseExpressionsSize(cases[1..]);
      ExprsSizeAppend(c.conditions + [c.returnExpression], CaseExpressions(cases[1..]));
      ExprsSizeAppend(c.conditions, [c.returnExpression]);
      assert ExprsSize([c.returnExpression]) == ExprSize(c.returnExpression) by {
        assert [c.returnExpression][1..] == [];
      }
    }
  }

  // ---------------------------------------------------------------------
  // getChildren

  /** The present expressions, in order; absent ones are skipped. */
  function PresentExpressions(es: seq<Option<Expr>>): seq<Expr>
  {
    if es == [] then []
    else if es[0].Some? then [es[0].value] + PresentExpressions(es[1..])
    else PresentExpressions(es[1..])
  }

  /** CommaExpression.getChildren keeps exactly the present sub-expressions, in order. */
  lemma {:induction false} CommaChildrenKeepPresentInOrder(a: seq<Option<Expr>>, b: seq<Option<Expr>>)
    ensures PresentExpressions(a + b) == PresentExpressions(a) + PresentExpressions(b)
    ensures forall e :: e in PresentExpressions(a) <==> Some(e) in a
    ensures |PresentExpressions(a)| <= |a|
  {
    if a != [] {
      CommaChildrenKeepPresentInOrder(a[1..], b);
      assert (a + b)[0] == a[0] && (a + b)[1..] == a[1..] + b;
      assert a == [a[0]] + a[1..];
    } else {
      assert a + b == b;
    }
  }

  function ConditionalChildren(e: Expr): (children: seq<Expr>)
    requires e.Conditional?
    ensures |children| == 3
    ensures children[0] == e.condition && children[1] == e.thenBranch && children[2] == e.elseBranch
  {
    [e.condition, e.thenBranch, e.elseBranch]
  }

  /** SwitchCase.getAllExpressions: its tests, then its return expression. */
  function CaseExpressions(cases: seq<SwitchCase>): seq<Expr>
  {
    if cases == [] then [] else cases[0].conditions + [cases[0].returnExpression] + CaseExpressions(cases[1..])
  }

  function SwitchChildren(e: Expr): (children: seq<Expr>)
    requires e.Switch?
    ensures |children| >= 2
    ensures children[0] == e.test && children[|children| - 1] == e.defaultExpression
  {
    [e.test] + CaseExpressions(e.switchCases) + [e.defaultExpression]
  }

  /** Every case's return expression sits among a switch's children, between the test and the default. */
  lemma {:induction false} CaseReturnsAreChildren(cases: seq<SwitchCase>, k: nat)
    requires k < |cases|
    ensures cases[k].returnExpression in CaseExpressions(cases)
    ensures forall j :: 0 <= j < |cases[k].conditions| ==> cases[k].conditions[j] in CaseExpressions(cases)
  {
    if k > 0 {
      CaseReturnsAreChildren(cases[1..], k - 1);
    }
  }

  /** The expressions of cases k, k + 1, ... follow those of the cases before k. */
  lemma {:induction false} CaseExpressionsSplit(cases: seq<SwitchCase>, k: nat)
    requires k < |cases|
    ensures CaseExpressions(cases)
      == CaseExpressions(cases[..k]) + cases[k].conditions + [cases[k].returnExpression] + CaseExpressions(cases[k + 1..])
  {
    if k > 0 {
      CaseExpressionsSplit(cases[1..], k - 1);
      assert cases[..k][1..] == cases[1..][..k - 1];
      assert cases[1..][k..] == cases[k + 1..];
    } else {
      assert cases[..0] == [];
    }
  }

  /** Where case k's return expression sits among all the cases' expressions. */
  function CaseReturnOffset(cases: seq<SwitchCase>, k: nat): (r: nat)
    requires k < |cases|
    ensures r < |CaseExpressions(cases)|
  {
    CaseExpressionsSplit(cases, k);
    |CaseExpressions(cases[..k])| + |cases[k].conditions|
  }

  /** The expression at CaseReturnOffset is case k's return expression, so the switch child after the test is too. */
  lemma CaseReturnAtOffset(e: Expr, k: nat)
    requires e.Switch? && k < |e.switchCases|
    ensures CaseExpressions(e.switchCases)[CaseReturnOffset(e.switchCases, k)] == e.switchCases[k].returnExpression
    ensures SwitchChildren(e)[1 + CaseReturnOffset(e.switchCases, k)] == e.switchCases[k].returnExpression
  {
    CaseExpressionsSplit(e.switchCases, k);
  }

  /** The offsets of the later cases' return expressions lie past the first case's expressions. */
  lemma {:induction false} CaseReturnOffsetStep(cases: seq<SwitchCase>)
    requires |cases| > 0
    ensures CaseReturnOffset(cases, 0) == |cases[0].conditions|
    ensures forall k :: 0 < k < |cases| ==>
      CaseReturnOffset(cases, k) == |cases[0].conditions| + 1 + CaseReturnOffset(cases[1..], k - 1)
  {
    assert cases[..0] == [];
    forall k | 0 < k < |cases|
      ensures CaseReturnOffset(cases, k) == |cases[0].conditions| + 1 + CaseReturnOffset(cases[1..], k - 1)
    {
      assert cases[..k][1..] == cases[1..][..k - 1];
      assert cases[..k][0] == cases[0];
    }
  }

  /**
   * InlineFunctionExpression.getChildren is empty, so the generic traversal
   * never enters a function body. FLWOR, quantified and typeswitch
   * expressions list none here either: the visitor handles each of them
   * itself, binding their variables, and never reaches their children
   * through the generic traversal. Every other kind lists its
   * sub-expressions.
   */
  function Children(e: Expr): (children: seq<Expr>)
    ensures e.InlineFunction? ==> children == []
    ensures e.VariableReference? ==> children == []
  {
    match e
    case VariableReference(_) => []
    case InlineFunction(_, _, _, _) => []
    case FunctionCall(_, args) => PresentExpressions(args)
    case Flwor(_, _) => []
    case Quantified(bindings, evaluation) => []
    case TypeSwitch(_, _, _) => []
    case Comma(es) => PresentExpressions(es)
    case Conditional(_, _, _) => ConditionalChildren(e)
    case Switch(_, _, _) => SwitchChildren(e)
    case Other(_, children) => children
  }

  /** The identifier of an inline function: its name and the number of its parameters. */
  function InlineFunctionIdentifier(e: Expr): (id: FunctionIdentifier)
    requires e.InlineFunction?
    ensures id.arity == |e.params| && id.name == e.functionName
  {
    FunctionIdentifier(e.functionName, |e.params|)
  }

  /** The children of the clauses the static-context visitor leaves to the default action. */
  function ClauseChildren(c: Clause): seq<Expr>
  {
    match c
    case WhereClause(e) => [e]
    case OrderByClause(es) => es
    case ReturnClause(e) => [e]
    case _ => []
  }

  /** The children of an expression are smaller than the expression itself. */
  lemma ChildrenAreSmaller(e: Expr)
    ensures ExprsSize(Children(e)) < ExprSize(e)
  {
    match e
    case FunctionCall(_, args) => PresentExpressionsSize(args);
    case Comma(es) => PresentExpressionsSize(es);
    case Conditional(c, t, f) =>
      assert ExprsSize([c, t, f]) == ExprSize(c) + ExprsSize([t, f]) by { assert [c, t, f][1..] == [t, f]; }
      assert ExprsSize([t, f]) == ExprSize(t) + ExprsSize([f]) by { assert [t, f][1..] == [f]; }
      assert ExprsSize([f]) == ExprSize(f) by { assert [f][1..] == []; }
    case Switch(test, cases, d) =>
      ExprsSizeAppend([test] + CaseExpressions(cases), [d]);
      ExprsSizeAppend([test], CaseExpressions(cases));
      CaseExpressionsSize(cases);
      assert ExprsSize([test]) == ExprSize(test) by { assert [test][1..] == []; }
      assert ExprsSize([d]) == ExprSize(d) by { assert [d][1..] == []; }
    case _ =>
  }

  lemma ClauseChildrenAreSmaller(c: Clause)
    ensures ExprsSize(ClauseChildren(c)) < ClauseSize(c)
  {
    match c
    case WhereClause(e) => assert [e][1..] == [];
    case ReturnClause(e) => assert [e][1..] == [];
    case _ =>
  }
}
