// The generic node visitor every compiler pass extends: a visit that threads
// one argument through a node's children, left to right.

module NodeVisitor {

  /** The node kinds the base visitor has one visit method for. */
  datatype NodeKind =
    | CommaExpression | MainModule | LibraryModule | Prolog
    | FlworExpression | VariableReference | ForClause | LetClause | GroupByClause | OrderByClause
    | WhereClause | CountClause | ReturnClause
    | ArrayUnboxing | ArrayLookup | ObjectLookup | PredicateExpression | DynamicFunctionCall
    | ArrayConstructor | ObjectConstructor | ContextItem | FunctionCall | InlineFunction | NamedFunctionRef
    | IntegerLiteral | StringLiteral | DoubleLiteral | DecimalLiteral | NullLiteral | BooleanLiteral
    | AdditiveExpr | MultiplicativeExpr | SimpleMapExpr | AndExpr | OrExpr | NotExpr | UnaryExpr
    | RangeExpr | StringConcatExpr | ComparisonExpr | InstanceOfExpr | TreatExpr | CastableExpr | CastExpr
    | QuantifiedExpr | ConditionalExpr | SwitchExpr | TypeSwitchExpr | TryCatchExpr
    | VariableDeclaration | FunctionDeclaration

  /** visitDescendants: each child is visited with the result of visiting the previous one. */
  function VisitDescendants<N, T>(children: seq<N>, argument: T, visit: (N, T) -> T): (r: T)
    ensures children == [] ==> r == argument
    ensures |children| == 1 ==> r == visit(children[0], argument)
  {
    if children == [] then argument else VisitDescendants(children[1..], visit(children[0], argument), visit)
  }

  /** Visiting a + b threads the result of a's children into b's. */
  lemma {:induction false} VisitDescendantsAppend<N, T>(a: seq<N>, b: seq<N>, argument: T, visit: (N, T) -> T)
    ensures VisitDescendants(a + b, argument, visit) == VisitDescendants(b, VisitDescendants(a, argument, visit), visit)
  {
    if a == [] {
      assert a + b == b;
    } else {
      assert (a + b)[0] == a[0] && (a + b)[1..] == a[1..] + b;
      VisitDescendantsAppend(a[1..], b, visit(a[0], argument), visit);
    }
  }

  /** With no children the argument comes back unchanged; otherwise the result is the last child's. */
  lemma VisitDescendantsResult<N, T>(children: seq<N>, argument: T, visit: (N, T) -> T)
    ensures children == [] ==> VisitDescendants(children, argument, visit) == argument
    ensures children != [] ==>
      VisitDescendants(children, argument, visit)
        == visit(children[|children| - 1], VisitDescendants(children[..|children| - 1], argument, visit))
  {
    if children != [] {
      var n := |children| - 1;
      assert children == children[..n] + [children[n]];
      VisitDescendantsAppend(children[..n], [children[n]], argument, visit);
    }
  }

  /** The loop of visitDescendants, accumulating the result child by child. */
  method VisitDescendantsLoop<N, T>(children: seq<N>, argument: T, visit: (N, T) -> T) returns (result: T)
    ensures result == VisitDescendants(children, argument, visit)
  {
    result := argument;
    var i := 0;
    while i < |children|
      invariant 0 <= i <= |children|
      invariant result == VisitDescendants(children[..i], argument, visit)
    {
      VisitDescendantsAppend(children[..i], [children[i]], argument, visit);
      assert children[..i + 1] == children[..i] + [children[i]];
      result := visit(children[i], result);
      i := i + 1;
    }
    assert children[..i] == children;
  }

  /**
   * defaultAction: the descendants traversal. The argument comes back when
   * there are no children; otherwise the last child's visit decides.
   */
  function DefaultAction<N, T>(children: seq<N>, argument: T, visit: (N, T) -> T): (r: T)
    ensures children == [] ==> r == argument
    ensures children != [] ==> r == visit(children[|children| - 1], VisitDescendants(children[..|children| - 1], argument, visit))
  {
    VisitDescendantsResult(children, argument, visit);
    VisitDescendants(children, argument, visit)
  }

  /** The base visitor's per-kind visit: whatever the kind, the default action. */
  function BaseVisit<N, T>(kind: NodeKind, children: seq<N>, argument: T, visit: (N, T) -> T): (r: T)
    ensures r == DefaultAction(children, argument, visit)
    ensures children != [] ==> r == visit(children[|children| - 1], VisitDescendants(children[..|children| - 1], argument, visit))
  {
    DefaultAction(children, argument, visit)
  }
}
