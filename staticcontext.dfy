// The static context: a chain of variable frames, innermost first, and the
// record of what the compiler tells the user-defined function catalogue.

module StaticContexts {
  import opened Base
  import opened Names
  import opened ExecutionModes

  /** What a frame knows about a variable: its declared type (possibly absent) and its storage mode. */
  datatype VariableBinding = VariableBinding(variableType: Option<SequenceType>, mode: ExecutionMode)

  type Frame = map<Name, VariableBinding>

  datatype ImportedModule = ImportedModule(namespace: string, context: StaticContext)

  /**
   * A StaticContext: its own frame, the frames of its ancestors (nearest
   * first) and the library-module contexts imported into it.
   */
  datatype StaticContext = StaticContext(variables: Frame, ancestors: seq<Frame>, imports: seq<ImportedModule>)

  /** The context of a main module before anything is declared. */
  function RootContext(): StaticContext
  {
    StaticContext(map[], [], [])
  }

  /**
   * new StaticContext(parent): an empty frame whose parent is the given
   * context. It shadows nothing: every name resolves as in the parent.
   */
  function ChildContext(parent: StaticContext): (r: StaticContext)
    ensures forall n :: !HasVariable(r, n)
    ensures forall n :: Lookup(r, n) == Lookup(parent, n)
    ensures r.imports == parent.imports
  {
    var r := StaticContext(map[], [parent.variables] + parent.ancestors, parent.imports);
    assert ([r.variables] + r.ancestors)[1..] == [parent.variables] + parent.ancestors;
    r
  }

  /**
   * addVariable: binds (or rebinds) the name in the context's own frame,
   * leaving the other names of that frame, the ancestors and the imports
   * as they were.
   */
  function AddVariable(ctx: StaticContext, name: Name, variableType: Option<SequenceType>, mode: ExecutionMode): (r: StaticContext)
    ensures HasVariable(r, name) && r.variables[name] == VariableBinding(variableType, mode)
    ensures forall n :: n != name ==> (HasVariable(r, n) <==> HasVariable(ctx, n))
    ensures forall n :: n != name && n in ctx.variables ==> n in r.variables && r.variables[n] == ctx.variables[n]
    ensures r.ancestors == ctx.ancestors && r.imports == ctx.imports
  {
    ctx.(variables := ctx.variables[name := VariableBinding(variableType, mode)])
  }

  /** hasVariable: the name is bound in the context's own frame; such a name is in scope. */
  predicate HasVariable(ctx: StaticContext, name: Name)
    ensures name in ctx.variables ==> HasVariable(ctx, name) && Lookup(ctx, name) == Some(ctx.variables[name])
  {
    name in ctx.variables
  }

  function LookupFrames(frames: seq<Frame>, name: Name): Option<VariableBinding>
  {
    if frames == [] then None
    else if name in frames[0] then Some(frames[0][name])
    else LookupFrames(frames[1..], name)
  }

  /**
   * The binding of the innermost frame that has the name: the context's own
   * frame shadows its ancestors.
   */
  function Lookup(ctx: StaticContext, name: Name): (r: Option<VariableBinding>)
    ensures name in ctx.variables ==> r == Some(ctx.variables[name])
    ensures name !in ctx.variables ==> r == LookupFrames(ctx.ancestors, name)
  {
    assert ([ctx.variables] + ctx.ancestors)[1..] == ctx.ancestors;
    LookupFrames([ctx.variables] + ctx.ancestors, name)
  }

  /**
   * isInScope: the name is bound in the context's frame or in one of its
   * ancestors'; with no ancestors, exactly when the own frame binds it.
   */
  predicate IsInScope(ctx: StaticContext, name: Name)
    ensures HasVariable(ctx, name) ==> IsInScope(ctx, name)
    ensures ctx.ancestors == [] ==> (IsInScope(ctx, name) <==> HasVariable(ctx, name))
  {
    Lookup(ctx, name).Some?
  }

  lemma {:induction false} LookupFramesFindsAnyFrame(frames: seq<Frame>, name: Name)
    ensures LookupFrames(frames, name).Some? <==> exists i :: 0 <= i < |frames| && name in frames[i]
  {
    if frames != [] {
      LookupFramesFindsAnyFrame(frames[1..], name);
      if name !in frames[0] {
        forall i | 0 < i < |frames| && name in frames[i]
          ensures exists j :: 0 <= j < |frames[1..]| && name in frames[1..][j]
        {
          assert frames[1..][i - 1] == frames[i];
        }
      }
    }
  }

  /** isInScope walks the chain: a name is in scope iff some frame of the chain binds it. */
  lemma InScopeIffSomeFrame(ctx: StaticContext, name: Name)
    ensures IsInScope(ctx, name) <==> HasVariable(ctx, name) || exists i :: 0 <= i < |ctx.ancestors| && name in ctx.ancestors[i]
  {
    var frames := [ctx.variables] + ctx.ancestors;
    LookupFramesFindsAnyFrame(frames, name);
    if exists i :: 0 <= i < |ctx.ancestors| && name in ctx.ancestors[i] {
      var i :| 0 <= i < |ctx.ancestors| && name in ctx.ancestors[i];
      assert frames[i + 1] == ctx.ancestors[i];
    }
    if exists i :: 0 <= i < |frames| && name in frames[i] {
      var i :| 0 <= i < |frames| && name in frames[i];
      if i > 0 { assert frames[i] == ctx.ancestors[i - 1]; }
    }
  }

  /**
   * A child frame with one new variable: the variable is in scope with the
   * given binding, the child's own frame has nothing else, and every other
   * name resolves as it did in the parent.
   */
  lemma ChildWithVariable(parent: StaticContext, name: Name, t: Option<SequenceType>, mode: ExecutionMode)
    ensures var ctx := AddVariable(ChildContext(parent), name, t, mode);
      && Lookup(ctx, name) == Some(VariableBinding(t, mode))
      && (forall other :: other != name ==> Lookup(ctx, other) == Lookup(parent, other))
      && (forall other :: HasVariable(ctx, other) <==> other == name)
  {
    var ctx := AddVariable(ChildContext(parent), name, t, mode);
    forall other | other != name
      ensures Lookup(ctx, other) == Lookup(parent, other)
    {
      var frames := [ctx.variables] + ctx.ancestors;
      assert frames[1..] == [parent.variables] + parent.ancestors;
    }
  }

  /** addVariable on a context: the name now resolves to the new binding, every other name as before. */
  lemma AddVariableLookup(ctx: StaticContext, name: Name, t: Option<SequenceType>, mode: ExecutionMode)
    ensures Lookup(AddVariable(ctx, name, t, mode), name) == Some(VariableBinding(t, mode))
    ensures forall other :: other != name ==> Lookup(AddVariable(ctx, name, t, mode), other) == Lookup(ctx, other)
  {
    var r := AddVariable(ctx, name, t, mode);
    assert ([r.variables] + r.ancestors)[1..] == ([ctx.variables] + ctx.ancestors)[1..];
  }

  /** importModuleContext: the library module's context is recorded under its namespace. */
  function ImportModuleContext(ctx: StaticContext, moduleContext: StaticContext, namespace: string): (r: StaticContext)
    ensures r.variables == ctx.variables && r.ancestors == ctx.ancestors
    ensures |r.imports| == |ctx.imports| + 1 && r.imports[|ctx.imports|] == ImportedModule(namespace, moduleContext)
  {
    ctx.(imports := ctx.imports + [ImportedModule(namespace, moduleContext)])
  }

  // ---------------------------------------------------------------------
  // What the compiler tells the user-defined function catalogue

  datatype Registration =
    | ParametersStorageMode(identifier: FunctionIdentifier, modes: seq<ExecutionMode>, suppressCollisionErrors: bool)
    | FunctionExecutionMode(identifier: FunctionIdentifier, mode: ExecutionMode, suppressCollisionErrors: bool)

  /** The catalogue as the record of the registrations made to it, oldest first. */
  datatype Functions = Functions(registrations: seq<Registration>)

  function Register(functions: Functions, r: Registration): (f: Functions)
    ensures |f.registrations| == |functions.registrations| + 1
    ensures f.registrations[|functions.registrations|] == r
    ensures f.registrations[..|functions.registrations|] == functions.registrations
  {
    Functions(functions.registrations + [r])
  }
}
