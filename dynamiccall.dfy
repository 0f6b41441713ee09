// The dynamic function call: the function is known only once the postfix
// expression has been evaluated, so open picks the function item, builds
// the call iterator over it and the arguments, and forwards the call's
// items one at a time until the call yields a null item or runs out.

module DynamicFunctionCalls {
  import opened Base
  import opened Names
  import opened Items

  /** What a built call iterator yields; None stands for a null item. */
  type CallStream = seq<Option<Item>>

  /** The results of a call: its items up to, not including, the first null. */
  function Results(s: CallStream): (r: seq<Item>)
    ensures |r| <= |s|
    ensures forall i :: 0 <= i < |r| ==> s[i] == Some(r[i])
    ensures |r| < |s| ==> s[|r|].None?
  {
    if s == [] || s[0].None? then [] else [s[0].value] + Results(s[1..])
  }

  /** Whatever follows a null item is never delivered. */
  lemma {:induction false} ResultsStopAtNull(s: CallStream, t: CallStream)
    requires forall i :: 0 <= i < |s| ==> s[i].Some?
    ensures Results(s + [None] + t) == Results(s + [None]) == Results(s)
    ensures |Results(s)| == |s|
    decreases |s|
  {
    if s == [] {
      assert (s + [None] + t)[0].None?;
    } else {
      assert (s + [None] + t)[1..] == s[1..] + [None] + t;
      assert (s + [None])[1..] == s[1..] + [None];
      ResultsStopAtNull(s[1..], t);
    }
  }

  /** The message of the cast failure on a non-function item. */
  const NotAFunctionMessage: string := "Dynamic function call can only be performed on functions."

  /** The message of the check for a second item. */
  const SequenceMessage: string := "Dynamic function call can not be performed on a sequence."

  /**
   * The function item field after the function-producing sequence is read:
   * a first item that is a function is stored (before the check for a
   * second item); a first item of another kind fails its cast and an
   * empty sequence stores nothing, so the previous value stays.
   */
  function SelectedFunctionItem(items: seq<Item>, previous: Option<FunctionItem>): (r: Option<FunctionItem>)
    ensures |items| > 0 && items[0].FunctionValue? ==> r == Some(items[0].fn)
    ensures !(|items| > 0 && items[0].FunctionValue?) ==> r == previous
  {
    if |items| > 0 && items[0].FunctionValue? then Some(items[0].fn) else previous
  }

  /**
   * The exception, if any, that reading the function-producing sequence
   * and building the call raises: the failed cast, then a second item,
   * then a call built over a function item that was never set.
   */
  function FunctionItemError(items: seq<Item>, previous: Option<FunctionItem>): (r: Option<Exception>)
    ensures r.None? <==> (|items| == 1 && items[0].FunctionValue?) || (|items| == 0 && previous.Some?)
    ensures r.None? ==> SelectedFunctionItem(items, previous).Some?
    ensures |items| > 0 && !items[0].FunctionValue? ==> r == Some(UnexpectedTypeException(NotAFunctionMessage))
    ensures |items| > 1 && items[0].FunctionValue? ==> r == Some(UnexpectedTypeException(SequenceMessage))
    ensures |items| == 0 && previous.None? ==> r == Some(NullPointerException)
  {
    if |items| > 0 && !items[0].FunctionValue? then Some(UnexpectedTypeException(NotAFunctionMessage))
    else if |items| > 1 then Some(UnexpectedTypeException(SequenceMessage))
    else if SelectedFunctionItem(items, previous).None? then Some(NullPointerException)
    else None
  }

  /** The non-null arguments, in order. */
  function NonNull(arguments: seq<Option<IteratorHandle>>): (r: seq<IteratorHandle>)
    ensures |r| <= |arguments|
    ensures forall x :: x in r <==> Some(x) in arguments
  {
    if arguments == [] then []
    else (if arguments[0].Some? then [arguments[0].value] else []) + NonNull(arguments[1..])
  }

  /**
   * The constructor's children list: the non-null arguments in order, then
   * the function iterator unless it is already one of them.
   */
  method BuildChildren(functionItemIterator: IteratorHandle, arguments: seq<Option<IteratorHandle>>)
    returns (children: seq<IteratorHandle>)
    ensures children == NonNull(arguments) + (if Some(functionItemIterator) in arguments then [] else [functionItemIterator])
    ensures forall x :: x in children <==> x == functionItemIterator || Some(x) in arguments
  {
    children := [];
    var i := 0;
    while i < |arguments|
      invariant 0 <= i <= |arguments|
      invariant children + NonNull(arguments[i..]) == NonNull(arguments)
    {
      assert arguments[i..][1..] == arguments[i + 1..];
      if arguments[i].Some? {
        children := children + [arguments[i].value];
      }
      i := i + 1;
    }
    assert arguments[i..] == [];
    if functionItemIterator !in children {
      children := children + [functionItemIterator];
    }
  }

  class DynamicFunctionCallIterator {
    const functionItemIterator: IteratorHandle
    const functionArguments: seq<Option<IteratorHandle>>
    const children: seq<IteratorHandle>

    /** The function item last read; None until one has been. */
    var functionItem: Option<FunctionItem>
    /** Whether a call iterator has been built. */
    var callBuilt: bool
    /** The call iterator: what it yields, how far it has been read, whether it is open. */
    var callStream: CallStream
    var callPosition: nat
    var callOpen: bool
    var nextResult: Option<Item>
    var hasNext: bool
    var isOpen: bool

    constructor (functionItemIterator: IteratorHandle, functionArguments: seq<Option<IteratorHandle>>)
      ensures this.functionItemIterator == functionItemIterator && this.functionArguments == functionArguments
      ensures children == NonNull(functionArguments)
                          + (if Some(functionItemIterator) in functionArguments then [] else [functionItemIterator])
      ensures functionItem.None? && !callBuilt && !callOpen && !hasNext && !isOpen
      ensures Valid() && Remaining() == []
    {
      var c := BuildChildren(functionItemIterator, functionArguments);
      this.functionItemIterator := functionItemIterator;
      this.functionArguments := functionArguments;
      children := c;
      functionItem := None;
      callBuilt := false;
      callStream := [];
      callPosition := 0;
      callOpen := false;
      nextResult := None;
      hasNext := false;
      isOpen := false;
    }

    ghost predicate Valid()
      reads this
    {
      && callPosition <= |callStream|
      && (hasNext ==> nextResult.Some? && callBuilt)
      && (callOpen ==> callBuilt && hasNext)
    }

    /** What the open call iterator still has to give. */
    ghost function Pending(): seq<Item>
      reads this
      requires callPosition <= |callStream|
    {
      if callOpen then Results(callStream[callPosition..]) else []
    }

    /** The items next() will still return, in order. */
    ghost function Remaining(): seq<Item>
      reads this
      requires Valid()
    {
      (if hasNext then [nextResult.value] else []) + Pending()
    }

    /** setNextResult: pull one item from the call; a null or an exhausted call ends the stream and closes the call. */
    method SetNextResult()
      requires callPosition <= |callStream| && (callOpen ==> callBuilt)
      modifies this
      ensures Valid()
      ensures Remaining() == old(Pending())
      ensures hasNext <==> |old(Pending())| > 0
      ensures !hasNext ==> !callOpen
      ensures callStream == old(callStream) && callBuilt == old(callBuilt) && functionItem == old(functionItem)
      ensures isOpen == old(isOpen)
    {
      ghost var rest := callStream[callPosition..];
      nextResult := None;
      if callOpen && callPosition < |callStream| {
        nextResult := callStream[callPosition];
        callPosition := callPosition + 1;
        assert rest[1..] == callStream[callPosition..];
      }
      if nextResult.None? {
        hasNext := false;
        callOpen := false;
      } else {
        hasNext := true;
      }
    }

    /**
     * open: read the function item, build the call over it, open the call
     * and pull the first result. An error leaves the previous call as it was.
     */
    method Open(functionItems: seq<Item>, call: FunctionItem -> CallStream) returns (error: Option<Exception>)
      modifies this
      ensures isOpen
      ensures functionItem == SelectedFunctionItem(functionItems, old(functionItem))
      ensures error == FunctionItemError(functionItems, old(functionItem))
      ensures error.Some? ==> callBuilt == old(callBuilt) && callStream == old(callStream)
                              && callPosition == old(callPosition) && callOpen == old(callOpen)
                              && hasNext == old(hasNext) && nextResult == old(nextResult)
      ensures error.None? ==> callBuilt && callStream == call(functionItem.value)
                              && Valid() && Remaining() == Results(call(functionItem.value))
    {
      isOpen := true;
      error := FunctionItemError(functionItems, functionItem);
      functionItem := SelectedFunctionItem(functionItems, functionItem);
      if error.Some? {
        return;
      }
      callBuilt := true;
      callStream := call(functionItem.value);
      callPosition := 0;
      callOpen := true;
      assert callStream[0..] == callStream;
      SetNextResult();
    }

    /**
     * next: the pending result, after which the next one is pulled. Without
     * one it is an IteratorFlowException, whose message names the function
     * item, so a never-set function item makes it a NullPointerException.
     */
    method Next() returns (r: Result<Item>)
      requires Valid()
      modifies this
      ensures Valid()
      ensures r.Ok? <==> old(hasNext)
      ensures old(hasNext) ==> r.value == old(Remaining())[0] && Remaining() == old(Remaining())[1..]
      ensures !old(hasNext) ==> r == (if functionItem.None? then Err(NullPointerException) else Err(IteratorFlowException))
      ensures !old(hasNext) ==> Remaining() == old(Remaining())
      ensures functionItem == old(functionItem) && isOpen == old(isOpen)
    {
      if hasNext {
        var result := nextResult.value;
        SetNextResult();
        return Ok(result);
      }
      if functionItem.None? {
        return Err(NullPointerException);
      }
      return Err(IteratorFlowException);
    }

    /**
     * reset: the call built at open is reset under the new dynamic context,
     * so its arguments are evaluated again and it yields `call`, the call of
     * the kept function item in that context; the function-producing
     * sequence is not evaluated again, so the function item stays as it was.
     * Without a built call it is a NullPointerException.
     */
    method Reset(call: CallStream) returns (error: Option<Exception>)
      requires Valid()
      modifies this
      ensures error.Some? <==> !old(callBuilt)
      ensures Valid()
      ensures error.Some? ==> error == Some(NullPointerException) && unchanged(this)
      ensures error.None? ==> callStream == call && Remaining() == Results(call)
      ensures functionItem == old(functionItem) && isOpen == old(isOpen)
    {
      if !callBuilt {
        return Some(NullPointerException);
      }
      callStream := call;
      callPosition := 0;
      callOpen := true;
      assert callStream[0..] == callStream;
      SetNextResult();
      return None;
    }

    /**
     * close: the call is closed only when this iterator is open, so the call
     * in the deepest level of a recursion, never opened, is never closed.
     * An open iterator whose first open failed before the call was built
     * has no call to close: that is a NullPointerException, raised before
     * the open flag is cleared.
     */
    method Close() returns (error: Option<Exception>)
      requires Valid()
      modifies this
      ensures error.Some? <==> old(isOpen) && !old(callBuilt)
      ensures error.Some? ==> error == Some(NullPointerException) && unchanged(this)
      ensures error.None? ==> !isOpen && Valid() && callOpen == (old(callOpen) && !old(isOpen))
      ensures callStream == old(callStream) && callPosition == old(callPosition) && hasNext == old(hasNext)
      ensures nextResult == old(nextResult) && callBuilt == old(callBuilt) && functionItem == old(functionItem)
    {
      if isOpen {
        if !callBuilt {
          return Some(NullPointerException);
        }
        callOpen := false;
      }
      isOpen := false;
      return None;
    }
  }
}
