// Sequence and JSON builtins: exists, the and operator, flatten over
// nested arrays, and the per-item closure of remove-keys.

module SequenceFunctions {
  import opened Base
  import opened Items

  // ---------------------------------------------------------------------
  // exists

  /**
   * exists on the local path: the argument is opened and probed once for a
   * first item. On the distributed path the argument is take(1) of its
   * RDD, which gives the same answer.
   */
  function Exists(argument: seq<Item>): (r: Item)
    ensures r.BooleanItem? && (r.booleanValue <==> |argument| > 0)
  {
    BooleanItem(argument != [])
  }

  /** Only the first item decides. */
  lemma ExistsProbesFirstItemOnly(argument: seq<Item>, rest: seq<Item>)
    requires |argument| > 0
    ensures Exists(argument + rest) == Exists(argument[..1])
  {
  }

  // ---------------------------------------------------------------------
  // and

  /**
   * The and operator: the effective boolean values of both operands,
   * the left one first, and then their conjunction. Both are always
   * computed; the effective boolean value of a sequence is a rule of
   * classes outside this model and is passed in.
   */
  function And(left: seq<Item>, right: seq<Item>, sequenceEbv: seq<Item> -> Result<bool>): (r: Result<Item>)
    ensures r.Ok? <==> sequenceEbv(left).Ok? && sequenceEbv(right).Ok?
    ensures r.Ok? ==> r.value == BooleanItem(sequenceEbv(left).value && sequenceEbv(right).value)
    ensures sequenceEbv(left).Err? ==> r == Err(sequenceEbv(left).error)
    ensures sequenceEbv(left).Ok? && sequenceEbv(right).Err? ==> r == Err(sequenceEbv(right).error)
  {
    var l :- sequenceEbv(left);
    var rt :- sequenceEbv(right);
    Ok(BooleanItem(l && rt))
  }

  /** No short circuit: a false left operand does not spare the right one from failing. */
  lemma AndHasNoShortCircuit(left: seq<Item>, right: seq<Item>, sequenceEbv: seq<Item> -> Result<bool>)
    requires sequenceEbv(left) == Ok(false) && sequenceEbv(right).Err?
    ensures And(left, right, sequenceEbv) == Err(sequenceEbv(right).error)
  {
  }

  /** Where neither operand fails, the operands can be swapped. */
  lemma AndCommutes(left: seq<Item>, right: seq<Item>, sequenceEbv: seq<Item> -> Result<bool>)
    requires sequenceEbv(left).Ok? && sequenceEbv(right).Ok?
    ensures And(left, right, sequenceEbv) == And(right, left, sequenceEbv)
  {
  }

  // ---------------------------------------------------------------------
  // flatten

  /** The non-array leaves of the items, left to right, depth first. */
  function Leaves(items: seq<Item>): seq<Item>
    decreases items
  {
    if items == [] then []
    else (if items[0].ArrayValue? then Leaves(items[0].members) else [items[0]]) + Leaves(items[1..])
  }

  /** No leaf is an array. */
  lemma {:induction false} LeavesAreNotArrays(items: seq<Item>)
    ensures forall i :: 0 <= i < |Leaves(items)| ==> !Leaves(items)[i].ArrayValue?
    decreases items
  {
    if items != [] {
      if items[0].ArrayValue? {
        LeavesAreNotArrays(items[0].members);
      }
      LeavesAreNotArrays(items[1..]);
    }
  }

  /** Flattening works item by item. */
  lemma {:induction false} LeavesAppend(a: seq<Item>, b: seq<Item>)
    ensures Leaves(a + b) == Leaves(a) + Leaves(b)
    decreases |a|
  {
    if a == [] {
      assert a + b == b;
    } else {
      assert (a + b)[0] == a[0];
      assert (a + b)[1..] == a[1..] + b;
      LeavesAppend(a[1..], b);
    }
  }

  /** Items without arrays pass through unchanged. */
  lemma {:induction false} LeavesOfArrayFree(items: seq<Item>)
    requires forall i :: 0 <= i < |items| ==> !items[i].ArrayValue?
    ensures Leaves(items) == items
    decreases |items|
  {
    if items != [] {
      LeavesOfArrayFree(items[1..]);
    }
  }

  /** Flattening twice is flattening once. */
  lemma LeavesIdempotent(items: seq<Item>)
    ensures Leaves(Leaves(items)) == Leaves(items)
  {
    LeavesAreNotArrays(items);
    LeavesOfArrayFree(Leaves(items));
  }

  /** An empty array contributes nothing. */
  lemma EmptyArrayContributesNothing(a: seq<Item>, b: seq<Item>)
    ensures Leaves(a + [ArrayValue([])] + b) == Leaves(a + b)
  {
    LeavesAppend(a + [ArrayValue([])], b);
    LeavesAppend(a, [ArrayValue([])]);
    LeavesAppend(a, b);
    assert Leaves([ArrayValue([])]) == [];
  }

  class ArrayFlattenIterator {
    /** What the argument yields. */
    const input: seq<Item>
    /** How far the argument has been read, and whether it is open. */
    var inputPosition: nat
    var inputOpen: bool
    /** The queue of leaves produced by the item last read. */
    var nextResults: seq<Item>
    var hasNext: bool

    constructor (input: seq<Item>)
      ensures this.input == input && inputPosition == 0 && !inputOpen && nextResults == [] && !hasNext
      ensures Valid() && Remaining() == []
    {
      this.input := input;
      inputPosition := 0;
      inputOpen := false;
      nextResults := [];
      hasNext := false;
    }

    /** The argument stays open exactly while there are results. */
    ghost predicate Valid()
      reads this
    {
      && inputPosition <= |input|
      && (hasNext <==> nextResults != [])
      && inputOpen == hasNext
    }

    /** The items next will still return, in order. */
    ghost function Remaining(): seq<Item>
      reads this
      requires inputPosition <= |input|
    {
      nextResults + (if inputOpen then Leaves(input[inputPosition..]) else [])
    }

    /** flatten: appends the leaves of the items to the queue. */
    method FlattenInto(items: seq<Item>)
      modifies this
      ensures nextResults == old(nextResults) + Leaves(items)
      ensures inputPosition == old(inputPosition) && inputOpen == old(inputOpen)
      ensures hasNext == old(hasNext)
      decreases items
    {
      var i := 0;
      while i < |items|
        invariant 0 <= i <= |items|
        invariant nextResults == old(nextResults) + Leaves(items[..i])
        invariant inputPosition == old(inputPosition) && inputOpen == old(inputOpen) && hasNext == old(hasNext)
      {
        var item := items[i];
        assert items[..i + 1] == items[..i] + [item];
        LeavesAppend(items[..i], [item]);
        assert Leaves([item]) == (if item.ArrayValue? then Leaves(item.members) else [item]) + Leaves([]);
        if item.ArrayValue? {
          FlattenInto(item.members);
        } else {
          nextResults := nextResults + [item];
        }
        i := i + 1;
      }
      assert items[..i] == items;
    }

    /**
     * setNextResult: reads the argument until an item yields at least one
     * leaf; when none does, there is no next result and the argument is
     * closed.
     */
    method SetNextResult()
      requires inputOpen && inputPosition <= |input| && nextResults == []
      modifies this
      ensures Valid()
      ensures Remaining() == old(Leaves(input[inputPosition..]))
    {
      ghost var all := input[inputPosition..];
      while inputPosition < |input| && nextResults == []
        invariant inputPosition <= |input|
        invariant inputOpen
        invariant nextResults + Leaves(input[inputPosition..]) == Leaves(all)
      {
        ReadOne();
      }
      if nextResults == [] {
        assert input[inputPosition..] == [];
        hasNext := false;
        inputOpen := false;
      } else {
        hasNext := true;
      }
    }

    /** One turn of the refill loop: read an item and queue its leaves. */
    method ReadOne()
      requires inputPosition < |input|
      modifies this
      ensures inputPosition == old(inputPosition) + 1 && inputOpen == old(inputOpen)
      ensures nextResults + Leaves(input[inputPosition..]) == old(nextResults + Leaves(input[inputPosition..]))
    {
      var item := input[inputPosition];
      assert input[inputPosition..] == [item] + input[inputPosition + 1..];
      LeavesAppend([item], input[inputPosition + 1..]);
      inputPosition := inputPosition + 1;
      FlattenInto([item]);
    }

    /** open: opens the argument with an empty queue and fills it. */
    method Open()
      modifies this
      ensures Valid() && Remaining() == Leaves(input)
    {
      inputPosition := 0;
      inputOpen := true;
      nextResults := [];
      assert input[0..] == input;
      SetNextResult();
    }

    /** next: the head of the queue, refilling the queue once it runs empty. */
    method Next() returns (r: Result<Item>)
      requires Valid()
      modifies this
      ensures Valid()
      ensures r.Ok? <==> old(hasNext)
      ensures old(hasNext) ==> r.value == old(Remaining())[0] && Remaining() == old(Remaining())[1..]
      ensures !old(hasNext) ==> r == Err(IteratorFlowException) && Remaining() == old(Remaining())
    {
      if !hasNext {
        return Err(IteratorFlowException);
      }
      var result := nextResults[0];
      nextResults := nextResults[1..];
      if nextResults == [] {
        SetNextResult();
      }
      return Ok(result);
    }
  }

  // ---------------------------------------------------------------------
  // remove-keys

  /** The entries whose keys are not to be removed, in their original order. */
  function KeptEntries(entries: seq<Entry>, removalKeys: seq<string>): (r: seq<Entry>)
    ensures |r| <= |entries|
  {
    if entries == [] then []
    else (if entries[0].key in removalKeys then [] else [entries[0]]) + KeptEntries(entries[1..], removalKeys)
  }

  /**
   * The closure applied to each input item: an object gives the one object
   * of its kept keys and their values; any other item gives no result.
   */
  method RemoveKeysCall(item: Item, removalKeys: seq<string>) returns (results: seq<Item>)
    ensures !item.ObjectValue? ==> results == []
    ensures item.ObjectValue? ==> results == [ObjectValue(KeptEntries(item.entries, removalKeys))]
  {
    if !item.ObjectValue? {
      return [];
    }
    var kept: seq<Entry> := [];
    var i := 0;
    while i < |item.entries|
      invariant 0 <= i <= |item.entries|
      invariant kept + KeptEntries(item.entries[i..], removalKeys) == KeptEntries(item.entries, removalKeys)
    {
      assert item.entries[i..][1..] == item.entries[i + 1..];
      if item.entries[i].key !in removalKeys {
        kept := kept + [item.entries[i]];
      }
      i := i + 1;
    }
    assert item.entries[i..] == [];
    assert kept + [] == kept;
    return [ObjectValue(kept)];
  }

  /** The kept entries are exactly the entries whose keys are not removed. */
  lemma {:induction false} KeptEntriesMembers(entries: seq<Entry>, removalKeys: seq<string>)
    ensures forall i :: 0 <= i < |KeptEntries(entries, removalKeys)| ==>
              KeptEntries(entries, removalKeys)[i] in entries && KeptEntries(entries, removalKeys)[i].key !in removalKeys
    ensures forall i :: 0 <= i < |entries| && entries[i].key !in removalKeys ==> entries[i] in KeptEntries(entries, removalKeys)
    decreases |entries|
  {
    if entries != [] {
      KeptEntriesMembers(entries[1..], removalKeys);
      var head := if entries[0].key in removalKeys then [] else [entries[0]];
      var rest := KeptEntries(entries[1..], removalKeys);
      assert KeptEntries(entries, removalKeys) == head + rest;
      forall i | 0 <= i < |entries| && entries[i].key !in removalKeys
        ensures entries[i] in head + rest
      {
        if i > 0 {
          assert entries[i] == entries[1..][i - 1];
        }
      }
    }
  }

  /** Removal works entry by entry, so order is kept. */
  lemma {:induction false} KeptEntriesAppend(a: seq<Entry>, b: seq<Entry>, removalKeys: seq<string>)
    ensures KeptEntries(a + b, removalKeys) == KeptEntries(a, removalKeys) + KeptEntries(b, removalKeys)
    decreases |a|
  {
    if a == [] {
      assert a + b == b;
    } else {
      assert (a + b)[0] == a[0];
      assert (a + b)[1..] == a[1..] + b;
      KeptEntriesAppend(a[1..], b, removalKeys);
    }
  }

  /** Removing no keys keeps every entry. */
  lemma {:induction false} RemoveNoKeys(entries: seq<Entry>)
    ensures KeptEntries(entries, []) == entries
    decreases |entries|
  {
    if entries != [] {
      RemoveNoKeys(entries[1..]);
    }
  }

  /** Removing two key lists one after the other is removing both at once. */
  lemma {:induction false} RemoveKeysTwice(entries: seq<Entry>, first: seq<string>, second: seq<string>)
    ensures KeptEntries(KeptEntries(entries, first), second) == KeptEntries(entries, first + second)
    decreases |entries|
  {
    if entries != [] {
      RemoveKeysTwice(entries[1..], first, second);
      var e := entries[0];
      var rest := KeptEntries(entries[1..], first);
      assert e.key in first + second <==> e.key in first || e.key in second;
      if e.key in first {
        assert KeptEntries(entries, first) == rest;
      } else {
        assert KeptEntries(entries, first) == [e] + rest;
        assert ([e] + rest)[0] == e;
        assert ([e] + rest)[1..] == rest;
        assert KeptEntries([e] + rest, second)
               == (if e.key in second then [] else [e]) + KeptEntries(rest, second);
      }
    }
  }
}
