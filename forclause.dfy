// The for clause of a FLWOR expression, evaluated locally: for each tuple
// of the clause before it, one output tuple per item of the assignment
// expression, carrying the item and its 1-based position; with "allowing
// empty", an input whose expression is empty still gives one tuple, with
// the empty sequence and position 0. Also the variables the clause binds
// and depends on, the projection it asks of the previous clause, and the
// choice of distributed plan with its "job within a job" refusals.

module ForClauses {
  import opened Base
  import opened Names
  import opened Items

  /** A tuple: the items bound to each variable. */
  type Tuple = map<Name, seq<Item>>

  /** The fixed part of a for clause. */
  datatype ForClause = ForClause(variableName: Name, positionalVariableName: Option<Name>, allowingEmpty: bool)

  // ---------------------------------------------------------------------
  // What the clause outputs

  /** A copy of the tuple with the variable bound and, if any, the position bound after it. */
  function Bind(c: ForClause, t: Tuple, items: seq<Item>, position: int): Tuple
  {
    var u := t[c.variableName := items];
    if c.positionalVariableName.Some? then u[c.positionalVariableName.value := [Item.IntegerItem(position)]] else u
  }

  /**
   * The output tuples for one input tuple and the items of its expression:
   * the i-th item at position i + 1; no item gives the empty binding at
   * position 0 when the clause allows empty, and nothing otherwise.
   */
  function TuplesFor(c: ForClause, t: Tuple, items: seq<Item>): seq<Tuple>
  {
    if |items| == 0 then
      if c.allowingEmpty then [Bind(c, t, [], 0)] else []
    else
      seq(|items|, i requires 0 <= i < |items| => Bind(c, t, [items[i]], i + 1))
  }

  /** The output of the clause: the input tuples in order, each with its expression's tuples. */
  function ForOutput(c: ForClause, evaluate: Tuple -> seq<Item>, inputs: seq<Tuple>): seq<Tuple>
  {
    if inputs == [] then [] else TuplesFor(c, inputs[0], evaluate(inputs[0])) + ForOutput(c, evaluate, inputs[1..])
  }

  /** Each output tuple is the input tuple with the item and its position bound; the positions count from 1. */
  lemma TuplesForContents(c: ForClause, t: Tuple, items: seq<Item>, i: int)
    requires 0 <= i < |items|
    ensures |TuplesFor(c, t, items)| == |items|
    ensures c.variableName in TuplesFor(c, t, items)[i]
    ensures c.positionalVariableName.None? ==> TuplesFor(c, t, items)[i][c.variableName] == [items[i]]
    ensures c.positionalVariableName.Some? ==>
      TuplesFor(c, t, items)[i][c.positionalVariableName.value] == [Item.IntegerItem(i + 1)]
    ensures forall x :: x in t && x != c.variableName && Some(x) != c.positionalVariableName ==>
      x in TuplesFor(c, t, items)[i] && TuplesFor(c, t, items)[i][x] == t[x]
  {
  }

  /** An empty expression gives one tuple with the empty binding at position 0 exactly when the clause allows empty. */
  lemma TuplesForEmpty(c: ForClause, t: Tuple)
    ensures |TuplesFor(c, t, [])| == if c.allowingEmpty then 1 else 0
    ensures c.allowingEmpty ==> TuplesFor(c, t, [])[0][c.variableName] == [] || Some(c.variableName) == c.positionalVariableName
    ensures c.allowingEmpty && c.positionalVariableName.Some? ==>
      TuplesFor(c, t, [])[0][c.positionalVariableName.value] == [Item.IntegerItem(0)]
  {
  }

  /** The output of consecutive inputs is the concatenation of their outputs. */
  lemma {:induction false} ForOutputAppend(c: ForClause, evaluate: Tuple -> seq<Item>, a: seq<Tuple>, b: seq<Tuple>)
    ensures ForOutput(c, evaluate, a + b) == ForOutput(c, evaluate, a) + ForOutput(c, evaluate, b)
  {
    if a == [] {
      assert a + b == b;
    } else {
      assert (a + b)[0] == a[0] && (a + b)[1..] == a[1..] + b;
      ForOutputAppend(c, evaluate, a[1..], b);
    }
  }

  /** The output from the i-th input on: that input's tuples, then the output from the next one on. */
  lemma ForOutputUnfold(c: ForClause, evaluate: Tuple -> seq<Item>, inputs: seq<Tuple>, i: nat)
    requires i < |inputs|
    ensures ForOutput(c, evaluate, inputs[i..])
            == TuplesFor(c, inputs[i], evaluate(inputs[i])) + ForOutput(c, evaluate, inputs[i + 1..])
  {
    assert inputs[i..][1..] == inputs[i + 1..];
  }

  /** The number of output tuples per input: its number of items, or one for an allowed empty. */
  function TupleCount(c: ForClause, items: seq<Item>): nat
  {
    if |items| == 0 && c.allowingEmpty then 1 else |items|
  }

  function TotalCount(c: ForClause, evaluate: Tuple -> seq<Item>, inputs: seq<Tuple>): nat
  {
    if inputs == [] then 0 else TupleCount(c, evaluate(inputs[0])) + TotalCount(c, evaluate, inputs[1..])
  }

  /** The clause outputs as many tuples as the cross product has pairs, plus the allowed empties. */
  lemma {:induction false} ForOutputLength(c: ForClause, evaluate: Tuple -> seq<Item>, inputs: seq<Tuple>)
    ensures |ForOutput(c, evaluate, inputs)| == TotalCount(c, evaluate, inputs)
  {
    if inputs != [] {
      ForOutputLength(c, evaluate, inputs[1..]);
    }
  }

  // ---------------------------------------------------------------------
  // Step by step: the tuples still to come from a partly read expression

  function NextPosition(c: ForClause, position: int): int
  {
    if c.positionalVariableName.Some? then position + 1 else position
  }

  /**
   * The tuples still to come from the expression's items from the k-th on,
   * the next position being given; with no item left, the empty binding if
   * nothing was output yet and the clause allows empty.
   */
  function Continuation(c: ForClause, t: Tuple, items: seq<Item>, k: nat, position: int, isFirstItem: bool): seq<Tuple>
    decreases |items| - k
  {
    if k < |items| then
      [Bind(c, t, [items[k]], position)] + Continuation(c, t, items, k + 1, NextPosition(c, position), false)
    else if isFirstItem && c.allowingEmpty then [Bind(c, t, [], 0)]
    else []
  }

  /** Without a positional variable the position is never stored. */
  lemma BindIgnoresPosition(c: ForClause, t: Tuple, items: seq<Item>, p: int, q: int)
    requires c.positionalVariableName.None?
    ensures Bind(c, t, items, p) == Bind(c, t, items, q)
  {
  }

  /** From the k-th item on, read with position k + 1, the continuation is the rest of the clause's tuples. */
  lemma {:induction false} ContinuationIsSuffix(c: ForClause, t: Tuple, items: seq<Item>, k: nat, position: int)
    requires 0 < k <= |items| || (k == 0 && |items| > 0)
    requires c.positionalVariableName.Some? ==> position == k + 1
    ensures Continuation(c, t, items, k, position, false) == TuplesFor(c, t, items)[k..]
    decreases |items| - k
  {
    if k < |items| {
      ContinuationIsSuffix(c, t, items, k + 1, NextPosition(c, position));
      if c.positionalVariableName.None? {
        BindIgnoresPosition(c, t, [items[k]], position, k + 1);
      }
      assert TuplesFor(c, t, items)[k..] == [TuplesFor(c, t, items)[k]] + TuplesFor(c, t, items)[k + 1..];
    }
  }

  /** A freshly opened expression continues with exactly the clause's tuples for the input. */
  lemma FreshContinuation(c: ForClause, t: Tuple, items: seq<Item>)
    ensures Continuation(c, t, items, 0, 1, true) == TuplesFor(c, t, items)
  {
    if |items| > 0 {
      ContinuationIsSuffix(c, t, items, 1, NextPosition(c, 1));
      if c.positionalVariableName.None? {
        BindIgnoresPosition(c, t, [items[0]], 1, 1);
      }
      assert TuplesFor(c, t, items) == [TuplesFor(c, t, items)[0]] + TuplesFor(c, t, items)[1..];
    }
  }

  // ---------------------------------------------------------------------
  // The iterator

  /**
   * The local for-clause iterator. The tuples of the previous clause and the
   * items of the expression, which the runtime computes from the dynamic
   * context, are modelled as sequences read by position; the expression's
   * value for a tuple is the function evaluate.
   */
  class ForClauseIterator {
    const clause: ForClause
    /** The iterator starts the FLWOR expression: it has no previous clause. */
    const isStartingClause: bool
    const evaluate: Tuple -> seq<Item>

    /** The previous clause: its tuples, how many were read, and whether it is open. */
    var childTuples: seq<Tuple>
    var childPosition: nat
    var childOpen: bool

    /** The assignment expression: its items for the current tuple, how many were read, and whether it is open. */
    var assignmentItems: seq<Item>
    var assignmentPosition: nat
    var assignmentOpen: bool

    var inputTuple: Tuple
    var position: int
    var isFirstItem: bool
    var hasNext: bool
    var nextLocalTupleResult: Tuple
    var isOpen: bool

    constructor (clause: ForClause, isStartingClause: bool, evaluate: Tuple -> seq<Item>)
      ensures this.clause == clause && this.isStartingClause == isStartingClause && this.evaluate == evaluate
      ensures !isOpen && !hasNext && !assignmentOpen && !childOpen
      ensures Valid()
    {
      this.clause := clause;
      this.isStartingClause := isStartingClause;
      this.evaluate := evaluate;
      childTuples := [];
      childPosition := 0;
      childOpen := false;
      assignmentItems := [];
      assignmentPosition := 0;
      assignmentOpen := false;
      inputTuple := map[];
      position := 0;
      isFirstItem := false;
      hasNext := false;
      nextLocalTupleResult := map[];
      isOpen := false;
    }

    /** The tuple the expression's items are bound into: a fresh one for a starting clause. */
    function BaseTuple(): Tuple
      reads this
    {
      if isStartingClause then map[] else inputTuple
    }

    /** The tuples still to come from the current expression. */
    function AssignmentOutput(): seq<Tuple>
      reads this
    {
      if assignmentOpen then Continuation(clause, BaseTuple(), assignmentItems, assignmentPosition, position, isFirstItem)
      else []
    }

    /** The tuples still to come from the previous clause's unread tuples. */
    function ChildOutput(): seq<Tuple>
      reads this
      requires childPosition <= |childTuples|
    {
      if isStartingClause then [] else ForOutput(clause, evaluate, childTuples[childPosition..])
    }

    /** Every tuple next() will still return, in order. */
    function Remaining(): seq<Tuple>
      reads this
      requires childPosition <= |childTuples|
    {
      (if hasNext then [nextLocalTupleResult] else []) + AssignmentOutput() + ChildOutput()
    }

    predicate Valid()
      reads this
    {
      childPosition <= |childTuples|
      && assignmentPosition <= |assignmentItems|
      && (!hasNext ==> AssignmentOutput() == [] && ChildOutput() == [])
      && (isStartingClause ==> !isFirstItem || !clause.allowingEmpty)
    }

    /**
     * setResultFromExpression: the next item of the expression becomes the
     * next tuple, with its position; an exhausted expression is closed, and
     * gives the empty binding at position 0 if it gave nothing and the clause
     * allows empty.
     */
    method SetResultFromExpression() returns (found: bool)
      requires assignmentPosition <= |assignmentItems|
      requires assignmentOpen || !isFirstItem || !clause.allowingEmpty
      modifies this
      ensures found == hasNext
      ensures found ==> [nextLocalTupleResult] + AssignmentOutput() == old(AssignmentOutput())
      ensures !found ==> old(AssignmentOutput()) == [] && AssignmentOutput() == []
      ensures assignmentPosition <= |assignmentItems|
      ensures !isFirstItem || !clause.allowingEmpty
      ensures childTuples == old(childTuples) && childPosition == old(childPosition) && childOpen == old(childOpen)
      ensures inputTuple == old(inputTuple) && assignmentItems == old(assignmentItems) && isOpen == old(isOpen)
    {
      var base := BaseTuple();
      if assignmentOpen && assignmentPosition < |assignmentItems| {
        nextLocalTupleResult := base[clause.variableName := [assignmentItems[assignmentPosition]]];
        assignmentPosition := assignmentPosition + 1;
        if clause.positionalVariableName.Some? {
          nextLocalTupleResult := nextLocalTupleResult[clause.positionalVariableName.value := [Item.IntegerItem(position)]];
          position := position + 1;
        }
        hasNext := true;
        isFirstItem := false;
        return true;
      }
      assignmentOpen := false;
      if !isFirstItem || !clause.allowingEmpty {
        hasNext := false;
        return false;
      }
      nextLocalTupleResult := base[clause.variableName := []];
      if clause.positionalVariableName.Some? {
        nextLocalTupleResult := nextLocalTupleResult[clause.positionalVariableName.value := [Item.IntegerItem(0)]];
      }
      hasNext := true;
      isFirstItem := false;
      return true;
    }

    /**
     * The next tuple of the previous clause becomes the input tuple, and the
     * expression is opened on it with the position back at 1.
     */
    method OpenOnNextInput()
      requires !isStartingClause && childPosition < |childTuples|
      modifies this
      ensures childPosition == old(childPosition) + 1 && assignmentPosition <= |assignmentItems|
      ensures childTuples == old(childTuples) && isOpen == old(isOpen)
      ensures assignmentOpen
      ensures AssignmentOutput() + ChildOutput() == old(ChildOutput())
    {
      ForOutputUnfold(clause, evaluate, childTuples, childPosition);
      inputTuple := childTuples[childPosition];
      childPosition := childPosition + 1;
      assignmentItems := evaluate(inputTuple);
      assignmentPosition := 0;
      assignmentOpen := true;
      position := 1;
      isFirstItem := true;
      FreshContinuation(clause, inputTuple, assignmentItems);
    }

    /** One turn of setNextLocalTupleResult's loop: open the expression on the next input tuple and read from it. */
    method ReadNextInput() returns (found: bool)
      requires !isStartingClause && childPosition < |childTuples| && assignmentPosition <= |assignmentItems|
      modifies this
      ensures childPosition == old(childPosition) + 1 && assignmentPosition <= |assignmentItems|
      ensures childTuples == old(childTuples) && isOpen == old(isOpen)
      ensures found == hasNext
      ensures found ==> [nextLocalTupleResult] + AssignmentOutput() + ChildOutput() == old(ChildOutput())
      ensures !found ==> AssignmentOutput() == [] && ChildOutput() == old(ChildOutput())
    {
      OpenOnNextInput();
      ghost var pending := AssignmentOutput();
      ghost var later := ChildOutput();
      found := SetResultFromExpression();
      assert ChildOutput() == later;
      if found {
        assert [nextLocalTupleResult] + AssignmentOutput() + later == pending + later;
      }
    }

    /**
     * setNextLocalTupleResult: the open expression's next tuple if it has
     * one; otherwise read tuples from the previous clause, opening the
     * expression on each, until one gives a tuple; when the previous clause
     * is exhausted, hasNext is false and the previous clause is closed.
     */
    method SetNextLocalTupleResult()
      requires !isStartingClause
      requires childPosition <= |childTuples| && assignmentPosition <= |assignmentItems|
      modifies this
      ensures childPosition <= |childTuples| && assignmentPosition <= |assignmentItems|
      ensures childTuples == old(childTuples) && isOpen == old(isOpen)
      ensures (if hasNext then [nextLocalTupleResult] else []) + AssignmentOutput() + ChildOutput()
              == old(AssignmentOutput() + ChildOutput())
      ensures !hasNext ==> AssignmentOutput() == [] && childPosition == |childTuples| && !childOpen
    {
      ghost var pending := AssignmentOutput();
      ghost var target := ChildOutput();
      if assignmentOpen {
        var found := SetResultFromExpression();
        assert ChildOutput() == target;
        if found {
          assert [nextLocalTupleResult] + AssignmentOutput() + target == pending + target;
          return;
        }
      }
      assert pending + target == target;
      while childPosition < |childTuples|
        invariant childPosition <= |childTuples| && assignmentPosition <= |assignmentItems|
        invariant childTuples == old(childTuples) && isOpen == old(isOpen)
        invariant AssignmentOutput() == []
        invariant ChildOutput() == target
      {
        var found := ReadNextInput();
        if found {
          return;
        }
      }
      hasNext := false;
      childOpen := false;
    }

    /**
     * What open and reset do for a clause with a previous clause: the
     * previous clause is started over on the given tuples, the position and
     * first-item flag are re-primed, and the first tuple is read.
     */
    method StartOnChild(inputs: seq<Tuple>)
      requires Valid() && !isStartingClause
      modifies this
      ensures Valid() && isOpen == old(isOpen)
      ensures Remaining() ==
        StaleOutput(clause, old(assignmentOpen), old(inputTuple), old(assignmentItems), old(assignmentPosition))
        + ForOutput(clause, evaluate, inputs)
    {
      ghost var stale := StaleOutput(clause, assignmentOpen, inputTuple, assignmentItems, assignmentPosition);
      childTuples := inputs;
      childPosition := 0;
      childOpen := true;
      position := 1;
      isFirstItem := true;
      assert inputs[0..] == inputs;
      assert AssignmentOutput() == stale;
      assert ChildOutput() == ForOutput(clause, evaluate, inputs);
      SetNextLocalTupleResult();
      assert childPosition == |childTuples| ==> childTuples[childPosition..] == [];
    }

    /**
     * What open and reset do for a starting clause: the expression is
     * evaluated on the empty tuple and opened, and its first tuple is read.
     */
    method StartOnExpression()
      requires Valid() && isStartingClause
      modifies this
      ensures Valid() && isOpen == old(isOpen)
      ensures Remaining() == TuplesFor(clause, map[], evaluate(map[]))
    {
      assignmentItems := evaluate(map[]);
      assignmentPosition := 0;
      assignmentOpen := true;
      position := 1;
      isFirstItem := true;
      FreshContinuation(clause, map[], assignmentItems);
      var _ := SetResultFromExpression();
    }

    /**
     * open: a starting clause opens its expression and reads from it; any
     * other clause opens the previous clause, whose tuples are given, and
     * reads the first tuple. On a new or closed iterator, whose expression is
     * closed, the iterator then returns the clause's whole output.
     */
    method Open(inputs: seq<Tuple>)
      requires Valid()
      modifies this
      ensures Valid() && isOpen
      ensures Remaining() ==
        if isStartingClause then TuplesFor(clause, map[], evaluate(map[]))
        else StaleOutput(clause, old(assignmentOpen), old(inputTuple), old(assignmentItems), old(assignmentPosition))
             + ForOutput(clause, evaluate, inputs)
      ensures !old(assignmentOpen) ==> Remaining() == if isStartingClause then TuplesFor(clause, map[], evaluate(map[]))
                                                      else ForOutput(clause, evaluate, inputs)
    {
      isOpen := true;
      if !isStartingClause {
        StartOnChild(inputs);
      } else {
        childTuples := [];
        childPosition := 0;
        StartOnExpression();
      }
    }
  
    /**
     * next: the pending tuple, after which the next one is computed; with no
     * pending tuple, an IteratorFlowException.
     */
    method Next() returns (r: Result<Tuple>)
      requires Valid()
      modifies this
      ensures Valid()
      ensures r.Ok? <==> old(hasNext)
      ensures r.Ok? ==> r.value == old(Remaining())[0] && Remaining() == old(Remaining())[1..]
      ensures r.Err? ==> r.error == IteratorFlowException && Remaining() == old(Remaining())
    {
      if !hasNext {
        return Err(IteratorFlowException);
      }
      var result := nextLocalTupleResult;
      ghost var pending := AssignmentOutput();
      ghost var later := ChildOutput();
      assert old(Remaining())[1..] == pending + later;
      if isStartingClause {
        var _ := SetResultFromExpression();
        assert ChildOutput() == later == [];
      } else {
        SetNextLocalTupleResult();
        assert childPosition == |childTuples| ==> childTuples[childPosition..] == [];
      }
      return Ok(result);
    }

    /** close: this iterator, the previous clause and the expression are closed. */
    method Close()
      requires Valid()
      modifies this
      ensures Valid() && !isOpen && !childOpen && !assignmentOpen
      ensures hasNext == old(hasNext) && childPosition == old(childPosition)
    {
      isOpen := false;
      childOpen := false;
      assignmentOpen := false;
    }

    /**
     * reset as the clause writes it: the previous clause is reset (its
     * tuples given anew) and the position and first-item flag re-primed,
     * but an expression still open from the abandoned run is not closed, so
     * its unread items come first, bound into the old input tuple.
     */
    method ResetAsWritten(inputs: seq<Tuple>)
      requires Valid()
      modifies this
      ensures Valid()
      ensures Remaining() ==
        if isStartingClause then TuplesFor(clause, map[], evaluate(map[]))
        else StaleOutput(clause, old(assignmentOpen), old(inputTuple), old(assignmentItems), old(assignmentPosition))
             + ForOutput(clause, evaluate, inputs)
    {
      if !isStartingClause {
        StartOnChild(inputs);
      } else {
        StartOnExpression();
      }
    }

    /**
     * reset with the expression closed first: the iterator returns the
     * clause's whole output again, as after open.
     */
    method Reset(inputs: seq<Tuple>)
      requires Valid()
      modifies this
      ensures Valid()
      ensures Remaining() == if isStartingClause then TuplesFor(clause, map[], evaluate(map[]))
                             else ForOutput(clause, evaluate, inputs)
    {
      if !isStartingClause {
        assignmentOpen := false;
        StartOnChild(inputs);
      } else {
        StartOnExpression();
      }
    }
  }

  /**
   * What an expression left open by an abandoned run still gives after a
   * reset: its unread items, bound into the old input tuple, with positions
   * restarting at 1, or the empty binding if none is left and the clause
   * allows empty.
   */
  function StaleOutput(c: ForClause, wasOpen: bool, t: Tuple, items: seq<Item>, k: nat): seq<Tuple>
  {
    if wasOpen then Continuation(c, t, items, k, 1, true) else []
  }

  /**
   * After one tuple of "for $x in (1, 2)" over a single input tuple was
   * read, a reset as written returns the stale $x = 2 before the whole
   * output again.
   */
  lemma ResetReplaysStaleItemsAsWritten(x: Name, t: Tuple)
    ensures var c := ForClause(x, None, false);
            var evaluate := (u: Tuple) => [Item.IntegerItem(1), Item.IntegerItem(2)];
            StaleOutput(c, true, t, evaluate(t), 1) + ForOutput(c, evaluate, [t])
            != ForOutput(c, evaluate, [t])
  {
    var c := ForClause(x, None, false);
    var evaluate := (u: Tuple) => [Item.IntegerItem(1), Item.IntegerItem(2)];
    ForOutputLength(c, evaluate, [t]);
    assert |StaleOutput(c, true, t, evaluate(t), 1)| == 1;
  }

  // ---------------------------------------------------------------------
  // Variables and dependencies

  /** How much of a variable's value a consumer needs (FULL, or an aggregate of it). */
  datatype VariableDependency = Full | Count | Sum | Avg | Max | Min

  /** The positional variable, as a set. */
  function PositionalSet(c: ForClause): set<Name>
  {
    if c.positionalVariableName.Some? then {c.positionalVariableName.value} else {}
  }

  /**
   * getVariablesBoundInCurrentFLWORExpression: those of the previous clause
   * (none for a starting clause), the variable and the positional variable.
   */
  function VariablesBound(c: ForClause, childBound: Option<set<Name>>): (r: set<Name>)
    ensures c.variableName in r
    ensures c.positionalVariableName.Some? ==> c.positionalVariableName.value in r
    ensures childBound.Some? ==> childBound.value <= r
    ensures forall x :: x in r ==> x == c.variableName || x in PositionalSet(c) || (childBound.Some? && x in childBound.value)
  {
    (if childBound.Some? then childBound.value else {}) + {c.variableName} + PositionalSet(c)
  }

  /** What the previous clause contributes: the variables it binds and its own dependencies. */
  datatype ChildClause = ChildClause(bound: set<Name>, dependencies: map<Name, VariableDependency>)

  /**
   * getVariableDependencies: the expression's dependencies; after a previous
   * clause, without the variables it binds, and overridden by its own
   * dependencies.
   */
  function VariableDependencies(expression: map<Name, VariableDependency>, child: Option<ChildClause>)
    : (r: map<Name, VariableDependency>)
    ensures child.None? ==> r == expression
    ensures child.Some? ==> forall x :: x in r <==>
      x in child.value.dependencies || (x in expression && x !in child.value.bound)
    ensures child.Some? ==> forall x :: x in r ==>
      r[x] == if x in child.value.dependencies then child.value.dependencies[x] else expression[x]
  {
    if child.None? then expression
    else (expression - child.value.bound) + child.value.dependencies
  }

  /**
   * getProjection: none for a starting clause. Otherwise the parent's
   * projection without the clause's variables, plus the expression's
   * dependencies; a variable both need in different ways is needed in full.
   */
  function Projection(c: ForClause, isStartingClause: bool, parentProjection: map<Name, VariableDependency>,
                      expression: map<Name, VariableDependency>): (r: Option<map<Name, VariableDependency>>)
    ensures r.None? <==> isStartingClause
    ensures r.Some? ==> forall x :: x in r.value <==>
      x in expression || (x in parentProjection && x != c.variableName && x !in PositionalSet(c))
  {
    if isStartingClause then None
    else
      var kept := parentProjection - {c.variableName} - PositionalSet(c);
      Some(map x | x in kept.Keys + expression.Keys ::
             if x !in expression then kept[x]
             else if x in kept && kept[x] != expression[x] then Full
             else expression[x])
  }

  /**
   * The projection asks for each variable exactly what the expression and
   * the parent need: the common kind when they agree or only one needs it,
   * the full value when they disagree.
   */
  lemma ProjectionValues(c: ForClause, parent: map<Name, VariableDependency>, expression: map<Name, VariableDependency>,
                         x: Name)
    requires x in Projection(c, false, parent, expression).value
    ensures var r := Projection(c, false, parent, expression).value;
            var needed := x in parent && x != c.variableName && x !in PositionalSet(c);
            (x in expression && needed && parent[x] != expression[x] ==> r[x] == Full)
            && (x in expression && (!needed || parent[x] == expression[x]) ==> r[x] == expression[x])
            && (x !in expression ==> r[x] == parent[x])
  {
  }

  /** A variable the clause binds reaches the previous clause only if the expression itself needs it. */
  lemma ProjectionDropsOwnVariables(c: ForClause, parent: map<Name, VariableDependency>,
                                    expression: map<Name, VariableDependency>)
    ensures c.variableName !in expression ==> c.variableName !in Projection(c, false, parent, expression).value
    ensures c.variableName in expression ==>
      Projection(c, false, parent, expression).value[c.variableName] == expression[c.variableName]
  {
  }

  // ---------------------------------------------------------------------
  // The distributed plan

  /** The assignment expression as the plan sees it. */
  datatype Assignment = Assignment(
    dependencies: map<Name, VariableDependency>,
    isRdd: bool,
    /** When the expression is a predicate, the variables its sequence part depends on. */
    predicateSequenceDependencies: Option<set<Name>>)

  datatype Plan = StartingClausePlan | CartesianProductPlan | JoinPlan | InParallelPlan | UnionPlan

  /**
   * The join refusals, in order: the expression is not a predicate, its
   * sequence depends on the tuple, or the clause has a positional variable.
   */
  function JoinPlanFor(c: ForClause, a: Assignment, bound: set<Name>): (r: Result<Plan>)
    ensures r.Ok? <==> a.predicateSequenceDependencies.Some?
                       && a.predicateSequenceDependencies.value * bound == {}
                       && c.positionalVariableName.None?
    ensures r.Ok? ==> r.value == JoinPlan
    ensures r.Err? ==> r.error == JobWithinAJobException
  {
    if a.predicateSequenceDependencies.None? then Err(JobWithinAJobException)
    else if a.predicateSequenceDependencies.value * bound != {} then Err(JobWithinAJobException)
    else if c.positionalVariableName.Some? then Err(JobWithinAJobException)
    else Ok(JoinPlan)
  }

  /**
   * getDataFrame: a starting clause has its own plan; after a DataFrame
   * clause an RDD expression gives a cartesian product, or a join when it
   * uses variables of the FLWOR expression, and a local expression is
   * evaluated in parallel; after a local clause the plan is a union.
   */
  function ChoosePlan(c: ForClause, child: Option<ChildClause>, childIsDataFrame: bool, a: Assignment)
    : (r: Result<Plan>)
    ensures child.None? ==> r == Ok(StartingClausePlan)
    ensures child.Some? && !childIsDataFrame ==> r == Ok(UnionPlan)
    ensures child.Some? && childIsDataFrame && !a.isRdd ==> r == Ok(InParallelPlan)
    ensures r.Err? ==> r.error == JobWithinAJobException && child.Some? && childIsDataFrame && a.isRdd
    ensures r.Err? <==>
      child.Some? && childIsDataFrame && a.isRdd
      && a.dependencies.Keys * VariablesBound(c, Some(child.value.bound)) != {}
      && !(a.predicateSequenceDependencies.Some?
           && a.predicateSequenceDependencies.value * VariablesBound(c, Some(child.value.bound)) == {}
           && c.positionalVariableName.None?)
  {
    if child.None? then Ok(StartingClausePlan)
    else if childIsDataFrame then
      if a.isRdd then
        var bound := VariablesBound(c, Some(child.value.bound));
        if a.dependencies.Keys * bound != {} then JoinPlanFor(c, a, bound) else Ok(CartesianProductPlan)
      else Ok(InParallelPlan)
    else Ok(UnionPlan)
  }
}
