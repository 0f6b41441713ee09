// The protocol shared by the builtins that return exactly one item
// (translate, substring, concat, ||, exists, and): open arms hasNext, the
// first next computes and returns the item, and any later next raises an
// IteratorFlowException.

module LocalFunctionCalls {
  import opened Base
  import opened Items

  class SingleResultCall {
    /**
     * Whether next clears hasNext before computing its item. When it does,
     * a computation that raised is not repeated by a later next; when it
     * clears hasNext only once the item is built, a raised exception leaves
     * hasNext set.
     */
    const clearsFirst: bool
    var hasNext: bool
    var isOpen: bool

    constructor (clearsFirst: bool)
      ensures this.clearsFirst == clearsFirst && !hasNext && !isOpen
    {
      this.clearsFirst := clearsFirst;
      hasNext := false;
      isOpen := false;
    }

    method Open()
      modifies this
      ensures hasNext && isOpen
    {
      hasNext := true;
      isOpen := true;
    }

    /**
     * next, where computed is what evaluating the builtin over its
     * arguments in the current context gives: the item, or the exception
     * the evaluation raises.
     */
    method Next(computed: Result<Item>) returns (r: Result<Item>)
      modifies this
      ensures old(hasNext) ==> r == computed
      ensures !old(hasNext) ==> r == Err(IteratorFlowException)
      ensures hasNext <==> old(hasNext) && !clearsFirst && computed.Err?
      ensures isOpen == old(isOpen)
    {
      if !hasNext {
        return Err(IteratorFlowException);
      }
      if clearsFirst {
        hasNext := false;
      }
      r := computed;
      if r.Ok? {
        hasNext := false;
      }
    }

    method Close()
      modifies this
      ensures !isOpen && hasNext == old(hasNext)
    {
      isOpen := false;
    }
  }
}
