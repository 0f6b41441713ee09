// The static-context pass of the compiler: it threads a chain of variable
// frames through the expression tree, rejects undeclared and redeclared
// variables, gives every node its highest execution mode, and tells the
// user-defined function catalogue what call sites and declarations need.

module StaticContextVisitor {
  import opened Base
  import opened Names
  import opened ExecutionModes
  import opened Expressions
  import opened StaticContexts
  import NodeVisitor

  /** The node kinds whose own mode rule lies outside this model. */
  datatype RuleKind =
    | FlworRule | ForClauseRule | ForVariableRule | LetClauseRule | LetVariableRule
    | GroupByRule | CountRule | WhereRule | OrderByRule | ReturnRule
    | QuantifiedRule | TypeSwitchRule | InlineFunctionRule | FunctionDeclarationRule
    | FunctionCallRule | VariableDeclarationRule | DeclaredVariableRule
    | OtherRule(kind: OtherKind)

  /**
   * The pass's configuration. modeRule gives the mode of a node kind from
   * the modes of its sub-expressions; isBuiltin is the builtin table's
   * exists; parametersStorageMode is the catalogue's answer for the
   * parameter modes of a declared function.
   */
  datatype VisitorConfig = VisitorConfig(
    setUnsetToLocal: bool,
    suppressErrorsForFunctionSignatureCollision: bool,
    modeRule: (RuleKind, seq<ExecutionMode>) -> ExecutionMode,
    isBuiltin: FunctionIdentifier -> bool,
    parametersStorageMode: (Functions, FunctionIdentifier) -> seq<ExecutionMode>)

  /** What visiting one node gives: the context handed on, the catalogue, and the node's mode. */
  datatype Visited = Visited(context: StaticContext, functions: Functions, mode: ExecutionMode)

  /** What visiting a sequence of nodes gives: the last context, the catalogue, and each node's mode. */
  datatype VisitedAll = VisitedAll(context: StaticContext, functions: Functions, modes: seq<ExecutionMode>)

  // ---------------------------------------------------------------------
  // Entry point

  /** visit: a missing context is an internal error; otherwise the node's own visit method. */
  function VisitNode(e: Expr, argument: Option<StaticContext>, functions: Functions, config: VisitorConfig): (r: Result<Visited>)
    ensures argument.None? ==> r == Err(OurBadException("No static context provided!"))
    ensures argument.Some? ==> r == Visit(e, argument.value, functions, config)
  {
    if argument.None? then Err(OurBadException("No static context provided!"))
    else Visit(e, argument.value, functions, config)
  }

  /**
   * node.accept(visitor): dispatch on the kind of the node. A reference
   * fails exactly when its variable is not in scope; an empty comma
   * expression is LOCAL and hands its argument on.
   */
  function Visit(e: Expr, ctx: StaticContext, functions: Functions, config: VisitorConfig): (r: Result<Visited>)
    ensures e.VariableReference? ==> (r.Err? <==> !IsInScope(ctx, e.variableName))
    ensures e == Comma([]) ==> r == Ok(Visited(ctx, functions, Local))
    decreases ExprSize(e), 2
  {
    match e
    case VariableReference(_) => VisitVariableReference(e, ctx, functions, config)
    case InlineFunction(_, _, _, _) => VisitInlineFunctionExpr(e, ctx, functions, config)
    case FunctionCall(_, _) => VisitFunctionCall(e, ctx, functions, config)
    case Flwor(_, _) => VisitFlworExpression(e, ctx, functions, config)
    case Quantified(_, _) => VisitQuantifiedExpression(e, ctx, functions, config)
    case TypeSwitch(_, _, _) => VisitTypeSwitchExpression(e, ctx, functions, config)
    case _ => DefaultAction(e, ctx, functions, config)
  }

  /** visitDescendants over expressions, stopping at the first exception. */
  function VisitAll(es: seq<Expr>, ctx: StaticContext, functions: Functions, config: VisitorConfig): (r: Result<VisitedAll>)
    ensures r.Ok? ==> |r.value.modes| == |es|
    decreases ExprsSize(es), 3
  {
    if es == [] then Ok(VisitedAll(ctx, functions, []))
    else
      var v :- Visit(es[0], ctx, functions, config);
      var rest :- VisitAll(es[1..], v.context, v.functions, config);
      Ok(VisitedAll(rest.context, rest.functions, [v.mode] + rest.modes))
  }

  /**
   * defaultAction: visit the children in turn, then derive the node's mode
   * from theirs. A child's failure is passed on; otherwise the node has the
   * context and catalogue its children left, and the only failure of its
   * own is the NullPointerException of a comma expression.
   */
  function DefaultAction(e: Expr, ctx: StaticContext, functions: Functions, config: VisitorConfig): (r: Result<Visited>)
    requires e.Comma? || e.Conditional? || e.Switch? || e.Other?
    ensures (ChildrenAreSmaller(e);
      var all := VisitAll(Children(e), ctx, functions, config);
      && (all.Err? ==> r == Err(all.error))
      && (all.Ok? && r.Ok? ==> r.value.context == all.value.context && r.value.functions == all.value.functions)
      && (all.Ok? && r.Err? ==> e.Comma? && r.error == NullPointerException)
      && (all.Ok? && r.Ok? && e.Comma? ==> r.value.mode == CommaMode(all.value.modes)))
    decreases ExprSize(e), 1
  {
    ChildrenAreSmaller(e);
    var all :- VisitAll(Children(e), ctx, functions, config);
    var mode :- DefaultMode(e, all.modes, config);
    Ok(Visited(all.context, all.functions, mode))
  }

  /**
   * initHighestExecutionMode of the kinds handled by the default action. A
   * comma expression runs its loop over the raw list of entries, nulls
   * included, where the children were visited without the nulls.
   */
  function DefaultMode(e: Expr, childModes: seq<ExecutionMode>, config: VisitorConfig): (r: Result<ExecutionMode>)
    requires e.Comma? || e.Conditional? || e.Switch? || e.Other?
    requires |childModes| == |Children(e)|
    ensures r.Err? ==> e.Comma? && r.error == NullPointerException
    ensures e.Comma? ==> (r.Err? <==> NullReachedFirst(EntryModes(e.expressions, childModes)))
    ensures e.Comma? && r.Ok? ==> r.value == CommaMode(childModes)
    ensures e.Conditional? ==> r == Ok(ConditionalMode(childModes[0], childModes[1], childModes[2]))
    ensures e.Switch? ==> r.Ok? && exists caseModes: seq<ExecutionMode> ::
      && r.value == SwitchMode(caseModes, childModes[|childModes| - 1])
      && |caseModes| == |e.switchCases|
      && forall k :: 0 <= k < |caseModes| ==> caseModes[k] == childModes[1 + CaseReturnOffset(e.switchCases, k)]
  {
    match e
    case Comma(es) =>
      CommaEntriesModeSpec(EntryModes(es, childModes));
      CommaEntriesMode(EntryModes(es, childModes))
    case Conditional(_, _, _) => Ok(ConditionalMode(childModes[0], childModes[1], childModes[2]))
    case Switch(_, cases, _) =>
      var caseModes := CaseReturnModes(cases, childModes[1..|childModes| - 1], 0);
      assert forall k :: 0 <= k < |caseModes| ==> caseModes[k] == childModes[1 + CaseReturnOffset(cases, k)];
      Ok(SwitchMode(caseModes, childModes[|childModes| - 1]))
    case Other(kind, _) => Ok(config.modeRule(OtherRule(kind), childModes))
  }

  /**
   * The entries of a comma expression with the modes of its visited
   * children put back in place: a null stays a null, the k-th present
   * expression gets the k-th mode.
   */
  function EntryModes(es: seq<Option<Expr>>, modes: seq<ExecutionMode>): (r: Entries)
    requires |modes| == |PresentExpressions(es)|
    ensures |r| == |es|
    ensures forall i :: 0 <= i < |es| ==> (r[i].None? <==> es[i].None?)
    ensures PresentModes(r) == modes
    decreases |es|
  {
    if es == [] then []
    else if es[0].None? then [None] + EntryModes(es[1..], modes)
    else [Some(modes[0])] + EntryModes(es[1..], modes[1..])
  }

  /**
   * The modes of the cases' return expressions, picked out of the modes of
   * all case expressions (each case's tests, then its return expression).
   */
  function CaseReturnModes(cases: seq<SwitchCase>, modes: seq<ExecutionMode>, from: nat): (r: seq<ExecutionMode>)
    ensures |r| <= |cases|
    ensures forall i :: 0 <= i < |r| ==> r[i] in modes
    ensures from + |CaseExpressions(cases)| <= |modes| ==>
      |r| == |cases| && forall k :: 0 <= k < |cases| ==> r[k] == modes[from + CaseReturnOffset(cases, k)]
    decreases |cases|
  {
    if cases == [] then []
    else
      var at := from + |cases[0].conditions|;
      var rest := CaseReturnModes(cases[1..], modes, at + 1);
      if at < |modes| then
        var r := [modes[at]] + rest;
        assert forall i :: 0 <= i < |r| ==> r[i] in modes by {
          forall i | 0 <= i < |r| ensures r[i] in modes {
            if i > 0 { assert r[i] == rest[i - 1]; }
          }
        }
        assert from + |CaseExpressions(cases)| <= |modes| ==>
          |r| == |cases| && forall k :: 0 <= k < |cases| ==> r[k] == modes[from + CaseReturnOffset(cases, k)]
        by {
          if from + |CaseExpressions(cases)| <= |modes| {
            CaseReturnOffsetStep(cases);
            forall k | 0 <= k < |cases| ensures r[k] == modes[from + CaseReturnOffset(cases, k)] {
              if k > 0 { assert r[k] == rest[k - 1]; }
            }
          }
        }
        r
      else
        rest
  }

  // ---------------------------------------------------------------------
  // Primary expressions

  /** The mode a variable reference takes from its binding, UNSET read as LOCAL when configured. */
  function ReferenceMode(binding: VariableBinding, config: VisitorConfig): ExecutionMode
  {
    if config.setUnsetToLocal && binding.mode == Unset then Local else binding.mode
  }

  function VisitVariableReference(e: Expr, ctx: StaticContext, functions: Functions, config: VisitorConfig): (r: Result<Visited>)
    requires e.VariableReference?
    ensures r.Err? <==> !IsInScope(ctx, e.variableName)
    ensures r.Err? ==> r.error == UndeclaredVariableException(e.variableName.localName)
    ensures r.Ok? ==> r.value.context == ctx && r.value.functions == functions
    ensures r.Ok? ==> r.value.mode == ReferenceMode(Lookup(ctx, e.variableName).value, config)
    ensures r.Ok? && config.setUnsetToLocal ==> r.value.mode != Unset
  {
    var name := e.variableName;
    if !IsInScope(ctx, name) then Err(UndeclaredVariableException(name.localName))
    else Ok(Visited(ctx, functions, ReferenceMode(Lookup(ctx, name).value, config)))
  }

  /** The type a variable reference is given: the declared type of its innermost binding. */
  function ReferenceType(e: Expr, ctx: StaticContext): (t: Option<SequenceType>)
    requires e.VariableReference? && IsInScope(ctx, e.variableName)
    ensures HasVariable(ctx, e.variableName) ==> t == ctx.variables[e.variableName].variableType
  {
    Lookup(ctx, e.variableName).value.variableType
  }

  /** The frame of an inline function: a child context with every parameter bound LOCAL. */
  function InlineFunctionContext(ctx: StaticContext, params: seq<Param>): StaticContext
    decreases |params|
  {
    if params == [] then ChildContext(ctx)
    else
      var inner := InlineFunctionContext(ctx, params[..|params| - 1]);
      var p := params[|params| - 1];
      AddVariable(inner, p.name, Some(p.paramType), Local)
  }

  /** Only a named function reports its body's mode to the catalogue. */
  function RegisterUserDefinedFunctionExecutionMode(e: Expr, bodyMode: ExecutionMode, functions: Functions, config: VisitorConfig): (f: Functions)
    requires e.InlineFunction?
    ensures e.functionName.None? ==> f == functions
    ensures e.functionName.Some? ==>
      f.registrations == functions.registrations
        + [FunctionExecutionMode(FunctionIdentifier(e.functionName, |e.params|), bodyMode, config.suppressErrorsForFunctionSignatureCollision)]
  {
    if e.functionName.Some? then
      Register(functions, FunctionExecutionMode(InlineFunctionIdentifier(e), bodyMode, config.suppressErrorsForFunctionSignatureCollision))
    else functions
  }

  /**
   * visitInlineFunctionExpr: the body is visited in a frame holding the
   * parameters, all LOCAL. The context handed on is the argument, so the
   * parameters stay inside the function.
   */
  function VisitInlineFunctionExpr(e: Expr, ctx: StaticContext, functions: Functions, config: VisitorConfig): (r: Result<Visited>)
    requires e.InlineFunction?
    ensures r.Ok? ==> r.value.context == ctx
    decreases ExprSize(e), 1
  {
    var body :- Visit(e.body, InlineFunctionContext(ctx, e.params), functions, config);
    Ok(Visited(ctx, RegisterUserDefinedFunctionExecutionMode(e, body.mode, body.functions, config),
               config.modeRule(InlineFunctionRule, [body.mode])))
  }

  predicate IsPartialApplication(arguments: seq<Option<Expr>>)
  {
    exists i :: 0 <= i < |arguments| && arguments[i].None?
  }

  /** The parameter modes a call site reports: LOCAL for a partial application, else each argument's mode. */
  function CallSiteModes(arguments: seq<Option<Expr>>, argumentModes: seq<ExecutionMode>): (modes: seq<ExecutionMode>)
    ensures IsPartialApplication(arguments) ==> |modes| == |arguments| && forall i :: 0 <= i < |modes| ==> modes[i] == Local
    ensures !IsPartialApplication(arguments) ==> modes == argumentModes
  {
    if IsPartialApplication(arguments) then seq(|arguments|, _ => Local) else argumentModes
  }

  /**
   * visitFunctionCall: the arguments are visited in turn; a call to a
   * function that is not a builtin reports its parameter modes; the
   * argument is handed on.
   */
  function VisitFunctionCall(e: Expr, ctx: StaticContext, functions: Functions, config: VisitorConfig): (r: Result<Visited>)
    requires e.FunctionCall?
    ensures r.Ok? ==> r.value.context == ctx
    decreases ExprSize(e), 1
  {
    ChildrenAreSmaller(e);
    var args :- VisitAll(PresentExpressions(e.arguments), ctx, functions, config);
    var recorded :=
      if config.isBuiltin(e.identifier) then args.functions
      else Register(args.functions, ParametersStorageMode(e.identifier, CallSiteModes(e.arguments, args.modes),
                                                          config.suppressErrorsForFunctionSignatureCollision));
    Ok(Visited(ctx, recorded, config.modeRule(FunctionCallRule, args.modes)))
  }

  // ---------------------------------------------------------------------
  // FLWOR

  /** The clause chain of a FLWOR expression, ending with its return clause. */
  function ClauseChain(e: Expr): (chain: seq<Clause>)
    requires e.Flwor?
    ensures |chain| == |e.clauses| + 1 && chain[|chain| - 1] == ReturnClause(e.returnExpression)
    ensures ClausesSize(chain) < ExprSize(e)
  {
    var chain := e.clauses + [ReturnClause(e.returnExpression)];
    ClausesSizeAppend(e.clauses, [ReturnClause(e.returnExpression)]);
    assert ClausesSize([ReturnClause(e.returnExpression)]) == ClauseSize(ReturnClause(e.returnExpression)) by {
      assert [ReturnClause(e.returnExpression)][1..] == [];
    }
    chain
  }

  /**
   * visitFlowrExpression: the first clause is visited in the argument, and
   * then every clause, the first one included, in the context the previous
   * visit produced. The argument is handed on.
   */
  function VisitFlworExpression(e: Expr, ctx: StaticContext, functions: Functions, config: VisitorConfig): (r: Result<Visited>)
    requires e.Flwor?
    ensures r.Ok? ==> r.value.context == ctx
    decreases ExprSize(e), 1
  {
    var chain := ClauseChain(e);
    assert ClauseSize(chain[0]) <= ClausesSize(chain);
    var first :- VisitClause(chain[0], ctx, functions, config);
    var all :- VisitClauses(chain, first.context, first.functions, config);
    Ok(Visited(ctx, all.functions, config.modeRule(FlworRule, all.modes)))
  }

  /** The clause loop: each clause is visited in the context the previous one produced. */
  function VisitClauses(cs: seq<Clause>, ctx: StaticContext, functions: Functions, config: VisitorConfig): (r: Result<VisitedAll>)
    ensures r.Ok? ==> |r.value.modes| == |cs|
    decreases ClausesSize(cs), 3
  {
    if cs == [] then Ok(VisitedAll(ctx, functions, []))
    else
      var v :- VisitClause(cs[0], ctx, functions, config);
      var rest :- VisitClauses(cs[1..], v.context, v.functions, config);
      Ok(VisitedAll(rest.context, rest.functions, [v.mode] + rest.modes))
  }

  /**
   * clause.accept(visitor): a for, let, group-by or count clause pushes one
   * frame onto its argument, and a count clause never fails.
   */
  function VisitClause(c: Clause, ctx: StaticContext, functions: Functions, config: VisitorConfig): (r: Result<Visited>)
    ensures r.Ok? && (c.ForClause? || c.LetClause? || c.GroupByClause? || c.CountClause?) ==>
      r.value.context.ancestors == [ctx.variables] + ctx.ancestors
    ensures c.CountClause? ==> r.Ok?
    decreases ClauseSize(c), 2
  {
    match c
    case ForClause(_, _, _, _, _) => VisitForClause(c, ctx, functions, config)
    case LetClause(_, _, _) => VisitLetClause(c, ctx, functions, config)
    case GroupByClause(_) => VisitGroupByClause(c, ctx, functions, config)
    case CountClause(_) => VisitCountClause(c, ctx, functions, config)
    case _ =>
      ClauseChildrenAreSmaller(c);
      var all :- VisitAll(ClauseChildren(c), ctx, functions, config);
      var kind := if c.WhereClause? then WhereRule else if c.OrderByClause? then OrderByRule else ReturnRule;
      Ok(Visited(all.context, all.functions, config.modeRule(kind, all.modes)))
  }

  /** The positional variable's type: one integer. */
  function PositionalType(): SequenceType
  {
    ExactlyOne(IntegerItem)
  }

  /**
   * visitForClause: the expression is resolved in the argument; a child
   * frame binds the variable with the clause's storage mode and, when
   * present, the positional variable as a LOCAL integer.
   */
  function VisitForClause(c: Clause, ctx: StaticContext, functions: Functions, config: VisitorConfig): (r: Result<Visited>)
    requires c.ForClause?
    ensures r.Ok? <==> Visit(c.expression, ctx, functions, config).Ok?
    ensures r.Ok? ==> r.value.context.ancestors == [ctx.variables] + ctx.ancestors
    ensures r.Ok? && (c.positionalVariable.None? || c.positionalVariable.value != c.variable) ==>
      Lookup(r.value.context, c.variable).Some? && Lookup(r.value.context, c.variable).value.variableType == Some(c.variableType)
    ensures r.Ok? && c.positionalVariable.Some? ==>
      Lookup(r.value.context, c.positionalVariable.value) == Some(VariableBinding(Some(PositionalType()), Local))
    ensures r.Ok? ==> forall n :: n != c.variable && c.positionalVariable != Some(n) ==> Lookup(r.value.context, n) == Lookup(ctx, n)
    decreases ClauseSize(c), 1
  {
    var v :- Visit(c.expression, ctx, functions, config);
    var t := Some(c.variableType);
    var bound := AddVariable(ChildContext(ctx), c.variable, t, config.modeRule(ForVariableRule, [v.mode]));
    ChildWithVariable(ctx, c.variable, t, config.modeRule(ForVariableRule, [v.mode]));
    var result :=
      if c.positionalVariable.Some? then
        AddVariableLookup(bound, c.positionalVariable.value, Some(PositionalType()), Local);
        AddVariable(bound, c.positionalVariable.value, Some(PositionalType()), Local)
      else bound;
    Ok(Visited(result, v.functions, config.modeRule(ForClauseRule, [v.mode])))
  }

  /** visitLetClause: as the for clause, without a positional variable. */
  function VisitLetClause(c: Clause, ctx: StaticContext, functions: Functions, config: VisitorConfig): (r: Result<Visited>)
    requires c.LetClause?
    ensures r.Ok? <==> Visit(c.expression, ctx, functions, config).Ok?
    ensures r.Ok? ==> r.value.context.ancestors == [ctx.variables] + ctx.ancestors
    ensures r.Ok? ==> r.value.context.variables.Keys == {c.variable}
    ensures r.Ok? ==> Lookup(r.value.context, c.variable).Some? && Lookup(r.value.context, c.variable).value.variableType == Some(c.variableType)
    ensures r.Ok? ==> forall n :: n != c.variable ==> Lookup(r.value.context, n) == Lookup(ctx, n)
    decreases ClauseSize(c), 1
  {
    var v :- Visit(c.expression, ctx, functions, config);
    var mode := config.modeRule(LetVariableRule, [v.mode]);
    ChildWithVariable(ctx, c.variable, Some(c.variableType), mode);
    var bound := AddVariable(ChildContext(ctx), c.variable, Some(c.variableType), mode);
    Ok(Visited(bound, v.functions, config.modeRule(LetClauseRule, [v.mode])))
  }

  /**
   * visitGroupByClause: one child frame for the whole clause. A grouping
   * variable with an initializer has it resolved in the argument and is
   * bound LOCAL; one without must already be in scope of the argument.
   */
  function VisitGroupByClause(c: Clause, ctx: StaticContext, functions: Functions, config: VisitorConfig): (r: Result<Visited>)
    requires c.GroupByClause?
    ensures r.Ok? ==> r.value.context.ancestors == [ctx.variables] + ctx.ancestors
    ensures r.Ok? ==> r.value.context.variables.Keys == InitializedNames(c.groupVariables)
    ensures r.Ok? ==> forall n :: n in r.value.context.variables ==> r.value.context.variables[n].mode == Local
    decreases ClauseSize(c), 1
  {
    var g :- VisitGroupVariables(c.groupVariables, ctx, ChildContext(ctx), functions, config);
    Ok(Visited(g.context, g.functions, config.modeRule(GroupByRule, [])))
  }

  /** The grouping variables that come with an initializer. */
  function InitializedNames(vs: seq<GroupByVariable>): set<Name>
  {
    if vs == [] then {} else (if vs[0].expression.Some? then {vs[0].name} else {}) + InitializedNames(vs[1..])
  }

  /**
   * The loop over the grouping variables: the clause's frame gains exactly
   * the initialized variables, all LOCAL; a variable without an initializer
   * must be in scope of the argument.
   */
  function VisitGroupVariables(vs: seq<GroupByVariable>, argument: StaticContext, groupContext: StaticContext,
                               functions: Functions, config: VisitorConfig): (r: Result<VisitedAll>)
    ensures r.Ok? ==> r.value.context.ancestors == groupContext.ancestors
    ensures r.Ok? ==> r.value.context.variables.Keys == groupContext.variables.Keys + InitializedNames(vs)
    ensures r.Ok? ==> forall n :: n in InitializedNames(vs) ==> r.value.context.variables[n].mode == Local
    ensures r.Ok? ==> forall n :: n in groupContext.variables && n !in InitializedNames(vs) ==>
      r.value.context.variables[n] == groupContext.variables[n]
    ensures r.Ok? ==> forall i :: 0 <= i < |vs| && vs[i].expression.None? ==> IsInScope(argument, vs[i].name)
    ensures (forall i :: 0 <= i < |vs| ==> vs[i].expression.None?) ==>
      (r.Ok? <==> forall i :: 0 <= i < |vs| ==> IsInScope(argument, vs[i].name))
    ensures r.Err? && (forall i :: 0 <= i < |vs| ==> vs[i].expression.None?) ==>
      exists i :: 0 <= i < |vs| && r.error == UndeclaredVariableException(vs[i].name.localName)
    decreases GroupVariablesSize(vs), 3
  {
    if vs == [] then Ok(VisitedAll(groupContext, functions, []))
    else
      var v := vs[0];
      assert GroupVariablesSize(vs) == 1 + OptionSize(v.expression) + GroupVariablesSize(vs[1..]);
      if v.expression.Some? then
        var x :- Visit(v.expression.value, argument, functions, config);
        VisitGroupVariables(vs[1..], argument, AddVariable(groupContext, v.name, Some(v.variableType), Local), x.functions, config)
      else if !IsInScope(argument, v.name) then Err(UndeclaredVariableException(v.name.localName))
      else
        var r := VisitGroupVariables(vs[1..], argument, groupContext, functions, config);
        assert forall i :: 1 <= i < |vs| ==> vs[i] == vs[1..][i - 1];
        r
  }

  /** visitCountClause: a child frame binds the count variable as one LOCAL integer, then the variable is resolved in it. */
  function VisitCountClause(c: Clause, ctx: StaticContext, functions: Functions, config: VisitorConfig): (r: Result<Visited>)
    requires c.CountClause?
    ensures r.Ok?
    ensures r.value.context == AddVariable(ChildContext(ctx), c.variable, Some(ExactlyOne(IntegerItem)), Local)
    decreases ClauseSize(c), 1
  {
    var result := AddVariable(ChildContext(ctx), c.variable, Some(ExactlyOne(IntegerItem)), Local);
    ChildWithVariable(ctx, c.variable, Some(ExactlyOne(IntegerItem)), Local);
    var v := VisitVariableReference(VariableReference(c.variable), result, functions, config);
    Ok(Visited(result, v.value.functions, config.modeRule(CountRule, [])))
  }

  // ---------------------------------------------------------------------
  // Quantifiers and typeswitch

  /**
   * visitQuantifiedExpression: each binding's expression is resolved in
   * the chain of frames built so far, then its variable gets a frame of its
   * own; the condition is resolved in the full chain. The argument is
   * handed on.
   */
  function VisitQuantifiedExpression(e: Expr, ctx: StaticContext, functions: Functions, config: VisitorConfig): (r: Result<Visited>)
    requires e.Quantified?
    ensures r.Ok? ==> r.value.context == ctx
    decreases ExprSize(e), 1
  {
    var b :- VisitBindings(e.bindings, ctx, functions, config);
    var ev :- Visit(e.evaluation, b.context, b.functions, config);
    Ok(Visited(ctx, ev.functions, config.modeRule(QuantifiedRule, b.modes + [ev.mode])))
  }

  /** The chain of frames the quantifier builds, one per binding, each LOCAL. */
  function BindingChain(ctx: StaticContext, bs: seq<QuantifiedBinding>): StaticContext
    decreases |bs|
  {
    if bs == [] then ctx
    else BindingChain(AddVariable(ChildContext(ctx), bs[0].name, Some(bs[0].variableType), Local), bs[1..])
  }

  function VisitBindings(bs: seq<QuantifiedBinding>, ctx: StaticContext, functions: Functions, config: VisitorConfig): (r: Result<VisitedAll>)
    ensures r.Ok? ==> r.value.context == BindingChain(ctx, bs)
    decreases BindingsSize(bs), 3
  {
    if bs == [] then Ok(VisitedAll(ctx, functions, []))
    else
      assert BindingsSize(bs) == ExprSize(bs[0].expression) + BindingsSize(bs[1..]);
      var v :- Visit(bs[0].expression, ctx, functions, config);
      var next := AddVariable(ChildContext(ctx), bs[0].name, Some(bs[0].variableType), Local);
      var rest :- VisitBindings(bs[1..], next, v.functions, config);
      Ok(VisitedAll(rest.context, rest.functions, [v.mode] + rest.modes))
  }

  /** The context a typeswitch case is resolved in: a child frame, with the case variable (untyped, LOCAL) when named. */
  function CaseContext(ctx: StaticContext, variable: Option<Name>): StaticContext
  {
    if variable.Some? then AddVariable(ChildContext(ctx), variable.value, None, Local) else ChildContext(ctx)
  }

  /** The default case is resolved in the argument itself when it names no variable. */
  function DefaultCaseContext(ctx: StaticContext, variable: Option<Name>): StaticContext
  {
    if variable.Some? then AddVariable(ChildContext(ctx), variable.value, None, Local) else ctx
  }

  /**
   * visitTypeSwitchExpression: the test is resolved in the argument, each
   * case in its own frame; the argument is handed on.
   */
  function VisitTypeSwitchExpression(e: Expr, ctx: StaticContext, functions: Functions, config: VisitorConfig): (r: Result<Visited>)
    requires e.TypeSwitch?
    ensures r.Ok? ==> r.value.context == ctx
    decreases ExprSize(e), 1
  {
    var t :- Visit(e.test, ctx, functions, config);
    var cs :- VisitTypeSwitchCases(e.typeCases, ctx, t.functions, config);
    var d :- Visit(e.defaultCase.returnExpression, DefaultCaseContext(ctx, e.defaultCase.variable), cs.functions, config);
    Ok(Visited(ctx, d.functions, config.modeRule(TypeSwitchRule, [t.mode] + cs.modes + [d.mode])))
  }

  function VisitTypeSwitchCases(cases: seq<TypeSwitchCase>, ctx: StaticContext, functions: Functions, config: VisitorConfig): (r: Result<VisitedAll>)
    ensures r.Ok? ==> r.value.context == ctx
    decreases TypeSwitchCasesSize(cases), 3
  {
    if cases == [] then Ok(VisitedAll(ctx, functions, []))
    else
      assert TypeSwitchCasesSize(cases) == ExprSize(cases[0].returnExpression) + TypeSwitchCasesSize(cases[1..]);
      var v :- Visit(cases[0].returnExpression, CaseContext(ctx, cases[0].variable), functions, config);
      var rest :- VisitTypeSwitchCases(cases[1..], ctx, v.functions, config);
      Ok(VisitedAll(ctx, rest.functions, [v.mode] + rest.modes))
  }

  // ---------------------------------------------------------------------
  // Declarations

  /** A parameter typed as the empty sequence or as at most one item is stored LOCAL whatever the call sites said. */
  function ForcedParameterMode(t: SequenceType, reported: ExecutionMode): ExecutionMode
  {
    if t.IsEmptySequence() then Local
    else if t.arity == OneOrZero || t.arity == One then Local
    else reported
  }

  /**
   * populateFunctionDeclarationStaticContext: the i-th parameter takes the
   * i-th reported mode, forced to LOCAL for empty or single-item types; a
   * parameter without a reported mode is an index error.
   */
  function PopulateFunctionDeclarationStaticContext(ctx: StaticContext, modes: seq<ExecutionMode>, params: seq<Param>, i: nat): (r: Result<StaticContext>)
    requires i <= |params|
    ensures r.Err? <==> |modes| < |params| && i < |params|
    ensures r.Err? ==> r.error == IndexOutOfBoundsException
    ensures r.Ok? ==> r.value.ancestors == ctx.ancestors
    decreases |params| - i
  {
    if i == |params| then Ok(ctx)
    else if i >= |modes| then Err(IndexOutOfBoundsException)
    else
      var p := params[i];
      PopulateFunctionDeclarationStaticContext(AddVariable(ctx, p.name, Some(p.paramType), ForcedParameterMode(p.paramType, modes[i])), modes, params, i + 1)
  }

  /**
   * visitFunctionDeclaration: the body is resolved in a frame holding the
   * parameters with the modes the call sites reported, and the body's mode
   * is reported to the catalogue. The argument is handed on.
   */
  function VisitFunctionDeclaration(d: Declaration, ctx: StaticContext, functions: Functions, config: VisitorConfig): (r: Result<Visited>)
    requires d.FunctionDeclaration?
    ensures r.Ok? ==> r.value.context == ctx
    ensures r.Ok? ==> |d.params| <= |config.parametersStorageMode(functions, FunctionIdentifier(Some(d.name), |d.params|))|
  {
    var e := DeclaredFunction(d);
    var id := InlineFunctionIdentifier(e);
    var modes := config.parametersStorageMode(functions, id);
    var fctx :- PopulateFunctionDeclarationStaticContext(ChildContext(ctx), modes, d.params, 0);
    var body :- Visit(d.body, fctx, functions, config);
    Ok(Visited(ctx, RegisterUserDefinedFunctionExecutionMode(e, body.mode, body.functions, config),
               config.modeRule(FunctionDeclarationRule, [body.mode])))
  }

  /**
   * visitVariableDeclaration: the initializer, if any, is resolved in the
   * argument; a name the argument's own frame already binds is rejected;
   * otherwise a child frame binds it.
   */
  function VisitVariableDeclaration(d: Declaration, ctx: StaticContext, functions: Functions, config: VisitorConfig): (r: Result<Visited>)
    requires d.VariableDeclaration?
    ensures d.expression.None? ==> (r.Err? <==> HasVariable(ctx, d.name))
    ensures r.Err? && HasVariable(ctx, d.name) && (d.expression.None? || Visit(d.expression.value, ctx, functions, config).Ok?)
      ==> r.error == VariableAlreadyExistsException(d.name.localName)
    ensures r.Ok? ==> !HasVariable(ctx, d.name) && r.value.context.ancestors == [ctx.variables] + ctx.ancestors
    ensures r.Ok? ==> r.value.context.variables.Keys == {d.name} && r.value.context.variables[d.name].variableType == Some(d.variableType)
  {
    var initialized :- if d.expression.Some? then
                         var v :- Visit(d.expression.value, ctx, functions, config);
                         Ok(VisitedAll(ctx, v.functions, [v.mode]))
                       else Ok(VisitedAll(ctx, functions, []));
    if HasVariable(ctx, d.name) then Err(VariableAlreadyExistsException(d.name.localName))
    else
      var mode := config.modeRule(DeclaredVariableRule, initialized.modes);
      Ok(Visited(AddVariable(ChildContext(ctx), d.name, Some(d.variableType), mode), initialized.functions,
                 config.modeRule(VariableDeclarationRule, initialized.modes)))
  }

  /**
   * declaration.accept(visitor): a function declaration hands its argument
   * on; a variable declaration brings its variable into scope; neither takes
   * a name out of scope.
   */
  function VisitDeclaration(d: Declaration, ctx: StaticContext, functions: Functions, config: VisitorConfig): (r: Result<Visited>)
    ensures r.Ok? && d.FunctionDeclaration? ==> r.value.context == ctx
    ensures r.Ok? && d.VariableDeclaration? ==> IsInScope(r.value.context, d.name)
    ensures r.Ok? ==> forall n :: IsInScope(ctx, n) ==> IsInScope(r.value.context, n)
  {
    if d.FunctionDeclaration? then VisitFunctionDeclaration(d, ctx, functions, config)
    else
      var r := VisitVariableDeclaration(d, ctx, functions, config);
      if r.Ok? then
        PushedFrameKeepsScope(ctx, r.value.context);
        r
      else r
  }

  /**
   * The prolog's default traversal: each declaration sees what the previous
   * ones declared, and after it every declared variable is in scope.
   */
  function VisitProlog(ds: seq<Declaration>, ctx: StaticContext, functions: Functions, config: VisitorConfig): (r: Result<VisitedAll>)
    ensures r.Ok? ==> |r.value.modes| == |ds|
    ensures r.Ok? ==> forall n :: IsInScope(ctx, n) ==> IsInScope(r.value.context, n)
    ensures r.Ok? ==> forall i :: 0 <= i < |ds| && ds[i].VariableDeclaration? ==> IsInScope(r.value.context, ds[i].name)
    decreases |ds|
  {
    if ds == [] then Ok(VisitedAll(ctx, functions, []))
    else
      var v :- VisitDeclaration(ds[0], ctx, functions, config);
      var rest :- VisitProlog(ds[1..], v.context, v.functions, config);
      assert forall i :: 1 <= i < |ds| ==> ds[i] == ds[1..][i - 1];
      Ok(VisitedAll(rest.context, rest.functions, [v.mode] + rest.modes))
  }

  /**
   * A main module's default traversal: the prolog, then the query body in
   * the context the prolog produced, which the body hands on: every
   * variable the prolog declares is in scope there.
   */
  function VisitMainModule(prolog: seq<Declaration>, body: Expr, ctx: StaticContext, functions: Functions, config: VisitorConfig): (r: Result<Visited>)
    ensures r.Ok? ==> VisitProlog(prolog, ctx, functions, config).Ok?
    ensures r.Ok? ==> r.value.context == VisitProlog(prolog, ctx, functions, config).value.context
    ensures r.Ok? ==> forall i :: 0 <= i < |prolog| && prolog[i].VariableDeclaration? ==> IsInScope(r.value.context, prolog[i].name)
  {
    var p :- VisitProlog(prolog, ctx, functions, config);
    VisitKeepsContext(body, p.context, p.functions, config);
    Visit(body, p.context, p.functions, config)
  }

  /** processImportedModule: the library module's context is imported into the argument, which is handed on. */
  function ProcessImportedModule(libraryContext: StaticContext, namespace: string, ctx: StaticContext): (r: StaticContext)
    ensures forall n :: Lookup(r, n) == Lookup(ctx, n)
    ensures r.imports == ctx.imports + [ImportedModule(namespace, libraryContext)]
  {
    ImportModuleContext(ctx, libraryContext, namespace)
  }

  // ---------------------------------------------------------------------
  // Properties of the pass

  /**
   * A comma expression whose only entry is null has no children to visit,
   * and its loop dereferences the null.
   */
  lemma NullEntryIsDereferenced(ctx: StaticContext, functions: Functions, config: VisitorConfig)
    ensures Visit(Comma([None]), ctx, functions, config) == Err(NullPointerException)
  {
    var e := Comma([None]);
    assert Children(e) == [] by {
      assert e.expressions[1..] == [];
    }
    var entries := EntryModes(e.expressions, []);
    assert entries[0].None?;
    assert NullReachedFirst(entries);
  }

  /** Every expression visit hands its argument on: no binding escapes an expression. */
  lemma {:induction false} VisitKeepsContext(e: Expr, ctx: StaticContext, functions: Functions, config: VisitorConfig)
    ensures Visit(e, ctx, functions, config).Ok? ==> Visit(e, ctx, functions, config).value.context == ctx
    decreases ExprSize(e), 1
  {
    if e.Comma? || e.Conditional? || e.Switch? || e.Other? {
      ChildrenAreSmaller(e);
      VisitAllKeepsContext(Children(e), ctx, functions, config);
    }
  }

  lemma {:induction false} VisitAllKeepsContext(es: seq<Expr>, ctx: StaticContext, functions: Functions, config: VisitorConfig)
    ensures VisitAll(es, ctx, functions, config).Ok? ==> VisitAll(es, ctx, functions, config).value.context == ctx
    decreases ExprsSize(es), 2
  {
    if es != [] {
      VisitKeepsContext(es[0], ctx, functions, config);
      var v := Visit(es[0], ctx, functions, config);
      if v.Ok? {
        VisitAllKeepsContext(es[1..], ctx, v.value.functions, config);
      }
    }
  }

  /** A context one frame deeper than another sees everything the other sees. */
  lemma PushedFrameKeepsScope(ctx: StaticContext, r: StaticContext)
    requires r.ancestors == [ctx.variables] + ctx.ancestors
    ensures forall n :: IsInScope(ctx, n) ==> IsInScope(r, n)
  {
    forall n | IsInScope(ctx, n)
      ensures IsInScope(r, n)
    {
      assert ([r.variables] + r.ancestors)[1..] == [ctx.variables] + ctx.ancestors;
    }
  }

  /** A clause never takes a variable out of scope: later clauses see what earlier ones saw. */
  lemma ClauseKeepsScope(c: Clause, ctx: StaticContext, functions: Functions, config: VisitorConfig)
    ensures VisitClause(c, ctx, functions, config).Ok? ==>
      forall n :: IsInScope(ctx, n) ==> IsInScope(VisitClause(c, ctx, functions, config).value.context, n)
  {
    var r := VisitClause(c, ctx, functions, config);
    if r.Ok? {
      match c
      case ForClause(_, _, _, _, _) => PushedFrameKeepsScope(ctx, r.value.context);
      case LetClause(_, _, _) => PushedFrameKeepsScope(ctx, r.value.context);
      case GroupByClause(_) => PushedFrameKeepsScope(ctx, r.value.context);
      case CountClause(_) => PushedFrameKeepsScope(ctx, r.value.context);
      case _ => VisitAllKeepsContext(ClauseChildren(c), ctx, functions, config);
    }
  }

  lemma {:induction false} ClausesKeepScope(cs: seq<Clause>, ctx: StaticContext, functions: Functions, config: VisitorConfig)
    ensures VisitClauses(cs, ctx, functions, config).Ok? ==>
      forall n :: IsInScope(ctx, n) ==> IsInScope(VisitClauses(cs, ctx, functions, config).value.context, n)
  {
    if cs != [] {
      ClauseKeepsScope(cs[0], ctx, functions, config);
      var v := VisitClause(cs[0], ctx, functions, config);
      if v.Ok? {
        ClausesKeepScope(cs[1..], v.value.context, v.value.functions, config);
      }
    }
  }

  /**
   * The quantifier's chain keeps every outer variable in scope, brings
   * every bound variable into scope, and is one frame deeper per binding.
   */
  lemma {:induction false} BindingChainScope(ctx: StaticContext, bs: seq<QuantifiedBinding>)
    decreases |bs|
    ensures forall n :: IsInScope(ctx, n) ==> IsInScope(BindingChain(ctx, bs), n)
    ensures forall i :: 0 <= i < |bs| ==> IsInScope(BindingChain(ctx, bs), bs[i].name)
    ensures |BindingChain(ctx, bs).ancestors| == |ctx.ancestors| + |bs|
  {
    if bs != [] {
      var next := AddVariable(ChildContext(ctx), bs[0].name, Some(bs[0].variableType), Local);
      ChildWithVariable(ctx, bs[0].name, Some(bs[0].variableType), Local);
      BindingChainScope(next, bs[1..]);
      forall i | 1 <= i < |bs|
        ensures IsInScope(BindingChain(ctx, bs), bs[i].name)
      {
        assert bs[i] == bs[1..][i - 1];
      }
    }
  }

  /** The quantifier's condition is resolved where every bound variable is in scope. */
  lemma QuantifiedConditionSeesBindings(e: Expr, ctx: StaticContext, functions: Functions, config: VisitorConfig)
    requires e.Quantified?
    ensures VisitBindings(e.bindings, ctx, functions, config).Ok? ==>
      var chain := VisitBindings(e.bindings, ctx, functions, config).value.context;
      (forall i :: 0 <= i < |e.bindings| ==> IsInScope(chain, e.bindings[i].name))
      && (forall n :: IsInScope(ctx, n) ==> IsInScope(chain, n))
  {
    BindingChainScope(ctx, e.bindings);
  }

  /** The frame of an inline function binds every parameter LOCAL and shadows nothing else. */
  lemma {:induction false} InlineFunctionContextBindsParams(ctx: StaticContext, params: seq<Param>)
    ensures var r := InlineFunctionContext(ctx, params);
      && r.ancestors == [ctx.variables] + ctx.ancestors
      && (forall i :: 0 <= i < |params| ==> Lookup(r, params[i].name).Some? && Lookup(r, params[i].name).value.mode == Local)
      && (forall n :: (forall i :: 0 <= i < |params| ==> params[i].name != n) ==> Lookup(r, n) == Lookup(ctx, n))
    decreases |params|
  {
    if params == [] {
    } else {
      var init := params[..|params| - 1];
      var p := params[|params| - 1];
      InlineFunctionContextBindsParams(ctx, init);
      var inner := InlineFunctionContext(ctx, init);
      AddVariableLookup(inner, p.name, Some(p.paramType), Local);
      forall i | 0 <= i < |params| - 1
        ensures params[i] == init[i]
      {}
    }
  }

  /** visitDescendants with the visit as its step: the loop over expressions is the generic traversal. */
  function Step(config: VisitorConfig): (Expr, Result<VisitedAll>) -> Result<VisitedAll>
  {
    (e: Expr, acc: Result<VisitedAll>) =>
      if acc.Err? then acc
      else
        var v := Visit(e, acc.value.context, acc.value.functions, config);
        if v.Err? then Err(v.error)
        else Ok(VisitedAll(v.value.context, v.value.functions, acc.value.modes + [v.value.mode]))
  }

  lemma {:induction false} VisitDescendantsKeepsFailure(es: seq<Expr>, error: Exception, config: VisitorConfig)
    ensures NodeVisitor.VisitDescendants(es, Err(error), Step(config)) == Err(error)
  {
    if es != [] {
      VisitDescendantsKeepsFailure(es[1..], error, config);
    }
  }

  /**
   * VisitAll is visitDescendants: the same first exception, or the same
   * final context and catalogue with the children's modes in order.
   */
  lemma {:induction false} VisitAllIsVisitDescendants(es: seq<Expr>, ctx: StaticContext, functions: Functions,
                                                      prefix: seq<ExecutionMode>, config: VisitorConfig)
    ensures var all := VisitAll(es, ctx, functions, config);
      NodeVisitor.VisitDescendants(es, Ok(VisitedAll(ctx, functions, prefix)), Step(config))
        == if all.Err? then Err(all.error) else Ok(VisitedAll(all.value.context, all.value.functions, prefix + all.value.modes))
  {
    if es != [] {
      var v := Visit(es[0], ctx, functions, config);
      var acc := Ok(VisitedAll(ctx, functions, prefix));
      assert NodeVisitor.VisitDescendants(es, acc, Step(config))
        == NodeVisitor.VisitDescendants(es[1..], Step(config)(es[0], acc), Step(config));
      if v.Err? {
        VisitDescendantsKeepsFailure(es[1..], v.error, config);
      } else {
        VisitAllIsVisitDescendants(es[1..], v.value.context, v.value.functions, prefix + [v.value.mode], config);
        var rest := VisitAll(es[1..], v.value.context, v.value.functions, config);
        if rest.Ok? {
          assert prefix + [v.value.mode] + rest.value.modes == prefix + ([v.value.mode] + rest.value.modes);
        }
      }
    } else {
      assert prefix + [] == prefix;
    }
  }

  /**
   * A call to a function that is not a builtin reports one storage mode per
   * argument: LOCAL for a partial application, else each argument's mode.
   */
  lemma FunctionCallRegistersCallSite(e: Expr, ctx: StaticContext, functions: Functions, config: VisitorConfig)
    requires e.FunctionCall?
    ensures var r := VisitFunctionCall(e, ctx, functions, config);
      var args := VisitAll(PresentExpressions(e.arguments), ctx, functions, config);
      && (r.Ok? <==> args.Ok?)
      && (r.Ok? && config.isBuiltin(e.identifier) ==> r.value.functions == args.value.functions)
      && (r.Ok? && !config.isBuiltin(e.identifier) ==>
            r.value.functions.registrations == args.value.functions.registrations
              + [ParametersStorageMode(e.identifier, CallSiteModes(e.arguments, args.value.modes),
                                       config.suppressErrorsForFunctionSignatureCollision)])
  {
  }

  /** A prolog variable is in scope of the query body, and declaring it twice is an error. */
  lemma DeclaredVariableScope(name: Name, t: SequenceType, ctx: StaticContext, functions: Functions, config: VisitorConfig)
    ensures var d := VariableDeclaration(name, t, None);
      var p := VisitProlog([d], ctx, functions, config);
      && (p.Ok? <==> !HasVariable(ctx, name))
      && (p.Ok? ==> IsInScope(p.value.context, name))
      && VisitProlog([d, d], ctx, functions, config).Err?
      && (!HasVariable(ctx, name) ==> VisitProlog([d, d], ctx, functions, config).error == VariableAlreadyExistsException(name.localName))
  {
    var d := VariableDeclaration(name, t, None);
    var p := VisitProlog([d], ctx, functions, config);
    var first := VisitVariableDeclaration(d, ctx, functions, config);
    assert [d][1..] == [] && [d, d][1..] == [d];
    assert VisitDeclaration(d, ctx, functions, config) == first;
    if first.Ok? {
      var f := first.value;
      assert VisitProlog([], f.context, f.functions, config) == Ok(VisitedAll(f.context, f.functions, []));
      assert p == Ok(VisitedAll(f.context, f.functions, [f.mode] + []));
      assert HasVariable(f.context, name);
      assert IsInScope(f.context, name);
      var second := VisitVariableDeclaration(d, f.context, f.functions, config);
      assert second.Err?;
      assert VisitDeclaration(d, f.context, f.functions, config) == second;
      assert VisitProlog([d], f.context, f.functions, config) == Err(second.error);
    } else {
      assert p == Err(first.error);
    }
  }

  // ---------------------------------------------------------------------
  // Function parameters as the code is written

  /**
   * The context visitInlineFunctionExpr returns as written: the function's
   * own frame, parameters included, instead of its argument.
   */
  function InlineFunctionContextAsWritten(e: Expr, ctx: StaticContext): (r: StaticContext)
    requires e.InlineFunction?
    ensures forall i :: 0 <= i < |e.params| ==> IsInScope(r, e.params[i].name)
  {
    InlineFunctionContextBindsParams(ctx, e.params);
    InlineFunctionContext(ctx, e.params)
  }

  /**
   * With the context returned as written, the parameter of
   * (function($x) { $x }, $x) is in scope of the second item; the pass that
   * hands the argument on rejects that $x as undeclared.
   */
  lemma ParameterLeaksToSiblingAsWritten(functions: Functions, config: VisitorConfig)
    ensures var x := Name(NoNamespace, "x");
      var f := InlineFunction(None, [Param(x, ExactlyOne(ItemItem))], ExactlyOne(ItemItem), VariableReference(x));
      && VisitVariableReference(VariableReference(x), InlineFunctionContextAsWritten(f, RootContext()), functions, config).Ok?
      && Visit(Comma([Some(f), Some(VariableReference(x))]), RootContext(), functions, config)
           == Err(UndeclaredVariableException("x"))
  {
    var x := Name(NoNamespace, "x");
    var f := InlineFunction(None, [Param(x, ExactlyOne(ItemItem))], ExactlyOne(ItemItem), VariableReference(x));
    var e := Comma([Some(f), Some(VariableReference(x))]);
    var inner := InlineFunctionContext(RootContext(), f.params);
    InlineFunctionContextBindsParams(RootContext(), f.params);
    assert f.params[0].name == x;
    assert Children(e) == [f, VariableReference(x)] by {
      assert PresentExpressions(e.expressions[1..]) == [VariableReference(x)];
    }
    assert LookupFrames([RootContext().variables] + RootContext().ancestors, x)
        == LookupFrames([RootContext().variables][1..], x);
    assert !IsInScope(RootContext(), x);
    assert IsInScope(inner, x);
    assert Visit(VariableReference(x), inner, functions, config).Ok?;
    assert VisitInlineFunctionExpr(f, RootContext(), functions, config).Ok?;
    var v := Visit(f, RootContext(), functions, config);
    assert v.Ok? && v.value.context == RootContext();
    assert [f, VariableReference(x)][1..] == [VariableReference(x)];
    var undeclared: Result<Visited> := Err(UndeclaredVariableException("x"));
    assert Visit(VariableReference(x), RootContext(), v.value.functions, config) == undeclared;
    assert VisitAll([VariableReference(x)], RootContext(), v.value.functions, config) == Err(UndeclaredVariableException("x"));
    assert VisitAll(Children(e), RootContext(), functions, config) == Err(UndeclaredVariableException("x"));
    assert DefaultAction(e, RootContext(), functions, config) == undeclared;
    assert VisitVariableReference(VariableReference(x), InlineFunctionContextAsWritten(f, RootContext()), functions, config).Ok?;
  }

  /**
   * The context visitFunctionDeclaration returns as written: the frame
   * holding the parameters, or the exception raised while populating it or
   * visiting the body.
   */
  function FunctionDeclarationContextAsWritten(d: Declaration, ctx: StaticContext, functions: Functions, config: VisitorConfig): (r: Result<StaticContext>)
    requires d.FunctionDeclaration?
    ensures r.Ok? ==> r.value.ancestors == [ctx.variables] + ctx.ancestors
    ensures r.Ok? <==> VisitFunctionDeclaration(d, ctx, functions, config).Ok?
  {
    var modes := config.parametersStorageMode(functions, InlineFunctionIdentifier(DeclaredFunction(d)));
    var fctx :- PopulateFunctionDeclarationStaticContext(ChildContext(ctx), modes, d.params, 0);
    var body :- Visit(d.body, fctx, functions, config);
    Ok(fctx)
  }

  /**
   * With the context returned as written, "declare function f($x) { $x };
   * declare variable $x;" fails: the variable declaration finds $x in the
   * frame the function left behind. Handing the argument on accepts it.
   */
  lemma ParameterClashesWithLaterDeclarationAsWritten(functions: Functions, config: VisitorConfig)
    requires |config.parametersStorageMode(functions, FunctionIdentifier(Some(Name(NoNamespace, "f")), 1))| >= 1
    ensures var x := Name(NoNamespace, "x");
      var fd := FunctionDeclaration(Name(NoNamespace, "f"), [Param(x, ExactlyOne(ItemItem))], ExactlyOne(ItemItem), VariableReference(x));
      var vd := VariableDeclaration(x, ExactlyOne(ItemItem), None);
      var asWritten := FunctionDeclarationContextAsWritten(fd, RootContext(), functions, config);
      && asWritten.Ok?
      && VisitVariableDeclaration(vd, asWritten.value, functions, config) == Err(VariableAlreadyExistsException("x"))
      && VisitProlog([fd, vd], RootContext(), functions, config).Ok?
  {
    var x := Name(NoNamespace, "x");
    var fd := FunctionDeclaration(Name(NoNamespace, "f"), [Param(x, ExactlyOne(ItemItem))], ExactlyOne(ItemItem), VariableReference(x));
    var vd := VariableDeclaration(x, ExactlyOne(ItemItem), None);
    var modes := config.parametersStorageMode(functions, InlineFunctionIdentifier(DeclaredFunction(fd)));
    var bound := AddVariable(ChildContext(RootContext()), x, Some(ExactlyOne(ItemItem)), ForcedParameterMode(ExactlyOne(ItemItem), modes[0]));
    var fctx := PopulateFunctionDeclarationStaticContext(ChildContext(RootContext()), modes, fd.params, 0);
    assert fctx == PopulateFunctionDeclarationStaticContext(bound, modes, fd.params, 1) == Ok(bound);
    assert fctx.Ok? && HasVariable(fctx.value, x);
    AddVariableLookup(ChildContext(RootContext()), x, Some(ExactlyOne(ItemItem)), ForcedParameterMode(ExactlyOne(ItemItem), modes[0]));
    assert IsInScope(fctx.value, x);
    assert Visit(fd.body, bound, functions, config).Ok?;
    assert FunctionDeclarationContextAsWritten(fd, RootContext(), functions, config) == Ok(bound);
    assert VisitVariableDeclaration(vd, bound, functions, config) == Err(VariableAlreadyExistsException("x"));
    var v := VisitFunctionDeclaration(fd, RootContext(), functions, config);
    assert v.Ok? && v.value.context == RootContext();
    assert [fd, vd][1..] == [vd] && [vd][1..] == [];
    assert LookupFrames([RootContext().variables] + RootContext().ancestors, x)
        == LookupFrames([RootContext().variables][1..], x);
    assert !HasVariable(RootContext(), x);
    var w := VisitVariableDeclaration(vd, RootContext(), v.value.functions, config);
    assert w.Ok?;
    assert VisitProlog([vd], RootContext(), v.value.functions, config).Ok?;
  }
}
