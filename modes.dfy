// Execution modes and the rules by which comma, conditional and switch
// expressions derive their highest execution mode from their children.

module ExecutionModes {

  import opened Base

  datatype ExecutionMode = Unset | Local | Rdd | DataFrame

  /** ExecutionMode.isRDD: the expression is evaluated on a distributed collection. */
  predicate IsRdd(m: ExecutionMode)
  {
    m == Rdd || m == DataFrame
  }

  predicate IsDataFrame(m: ExecutionMode)
  {
    m == DataFrame
  }

  predicate AllRdd(modes: seq<ExecutionMode>)
  {
    forall i :: 0 <= i < |modes| ==> IsRdd(modes[i])
  }

  // ---------------------------------------------------------------------
  // CommaExpression.initHighestExecutionMode

  /** A comma expression is RDD exactly when it has children and all of them are isRDD. */
  function CommaMode(childModes: seq<ExecutionMode>): ExecutionMode
  {
    if |childModes| > 0 && AllRdd(childModes) then Rdd else Local
  }

  /**
   * The entries of a comma expression as the loop of initHighestExecutionMode
   * meets them: the list holds a null where a parser left an expression
   * out, and the mode of each present child.
   */
  type Entries = seq<Option<ExecutionMode>>

  /** The modes of the present entries, in order. */
  function PresentModes(entries: Entries): seq<ExecutionMode>
  {
    if entries == [] then []
    else if entries[0].Some? then [entries[0].value] + PresentModes(entries[1..])
    else PresentModes(entries[1..])
  }

  /**
   * The loop of a non-empty comma expression: a null entry is dereferenced,
   * a NullPointerException; a child that is not isRDD ends it with LOCAL;
   * running off the end gives RDD.
   */
  function ScanEntries(entries: Entries): Result<ExecutionMode>
  {
    if entries == [] then Ok(Rdd)
    else if entries[0].None? then Err(NullPointerException)
    else if !IsRdd(entries[0].value) then Ok(Local)
    else ScanEntries(entries[1..])
  }

  /** initHighestExecutionMode over the raw list: LOCAL for an empty list, the loop otherwise. */
  function CommaEntriesMode(entries: Entries): Result<ExecutionMode>
  {
    if entries == [] then Ok(Local) else ScanEntries(entries)
  }

  /** The loop reaches a null entry: every entry before it is present and isRDD. */
  predicate NullReachedFirst(entries: Entries)
  {
    exists k :: 0 <= k < |entries| && entries[k].None? &&
      forall j :: 0 <= j < k ==> entries[j].Some? && IsRdd(entries[j].value)
  }

  lemma NullReachedFirstStep(entries: Entries)
    requires entries != [] && entries[0].Some?
    ensures NullReachedFirst(entries) <==> IsRdd(entries[0].value) && NullReachedFirst(entries[1..])
  {
    var rest := entries[1..];
    if NullReachedFirst(entries) {
      var k :| 0 <= k < |entries| && entries[k].None? &&
        forall j :: 0 <= j < k ==> entries[j].Some? && IsRdd(entries[j].value);
      assert k > 0;
      assert rest[k - 1].None?;
      assert forall j :: 0 <= j < k - 1 ==> rest[j] == entries[j + 1];
    }
    if IsRdd(entries[0].value) && NullReachedFirst(rest) {
      var k :| 0 <= k < |rest| && rest[k].None? &&
        forall j :: 0 <= j < k ==> rest[j].Some? && IsRdd(rest[j].value);
      assert entries[k + 1].None?;
      assert forall j :: 1 <= j < k + 1 ==> entries[j] == rest[j - 1];
    }
  }

  lemma {:induction false} ScanEntriesSpec(entries: Entries)
    ensures ScanEntries(entries).Err? <==> NullReachedFirst(entries)
    ensures ScanEntries(entries).Err? ==> ScanEntries(entries).error == NullPointerException
    ensures ScanEntries(entries).Ok? ==>
      ScanEntries(entries).value == (if AllRdd(PresentModes(entries)) then Rdd else Local)
    ensures ScanEntries(entries) == Ok(Rdd) ==> |PresentModes(entries)| == |entries|
  {
    if entries == [] {
    } else if entries[0].None? {
      assert entries[0].None?;
    } else {
      var rest := entries[1..];
      var present := PresentModes(entries);
      assert present == [entries[0].value] + PresentModes(rest);
      NullReachedFirstStep(entries);
      if IsRdd(entries[0].value) {
        ScanEntriesSpec(rest);
        assert AllRdd(present) <==> AllRdd(PresentModes(rest)) by {
          if AllRdd(PresentModes(rest)) {
            forall i | 0 <= i < |present| ensures IsRdd(present[i]) {
              if i > 0 { assert present[i] == PresentModes(rest)[i - 1]; }
            }
          }
          if AllRdd(present) {
            forall i | 0 <= i < |PresentModes(rest)| ensures IsRdd(PresentModes(rest)[i]) {
              assert present[i + 1] == PresentModes(rest)[i];
            }
          }
        }
      } else {
        assert !IsRdd(present[0]);
      }
    }
  }

  /**
   * The comma rule over the raw list: a NullPointerException exactly when a
   * null entry comes before any child that is not isRDD; otherwise the mode
   * of CommaMode over the present children.
   */
  lemma CommaEntriesModeSpec(entries: Entries)
    ensures CommaEntriesMode(entries).Err? <==> NullReachedFirst(entries)
    ensures CommaEntriesMode(entries).Err? ==> CommaEntriesMode(entries).error == NullPointerException
    ensures CommaEntriesMode(entries).Ok? ==> CommaEntriesMode(entries).value == CommaMode(PresentModes(entries))
  {
    ScanEntriesSpec(entries);
  }

  /** Without null entries the rule is CommaMode over all the children. */
  lemma CommaEntriesModeWithoutNulls(modes: seq<ExecutionMode>, entries: Entries)
    requires |entries| == |modes|
    requires forall i :: 0 <= i < |entries| ==> entries[i] == Some(modes[i])
    ensures CommaEntriesMode(entries) == Ok(CommaMode(modes))
  {
    PresentModesOfSomes(modes, entries);
    CommaEntriesModeSpec(entries);
  }

  lemma {:induction false} PresentModesOfSomes(modes: seq<ExecutionMode>, entries: Entries)
    requires |entries| == |modes|
    requires forall i :: 0 <= i < |entries| ==> entries[i] == Some(modes[i])
    ensures PresentModes(entries) == modes
    ensures !NullReachedFirst(entries)
  {
    if entries != [] {
      PresentModesOfSomes(modes[1..], entries[1..]);
    }
  }

  /**
   * The loop of initHighestExecutionMode over the raw list: LOCAL for an
   * empty list, a NullPointerException on a null entry, LOCAL as soon as a
   * child is not isRDD, RDD otherwise.
   */
  method InitCommaMode(entries: Entries) returns (r: Result<ExecutionMode>)
    ensures r == CommaEntriesMode(entries)
    ensures r.Err? <==> NullReachedFirst(entries)
    ensures r.Err? ==> r.error == NullPointerException
    ensures r.Ok? ==> r.value == CommaMode(PresentModes(entries))
  {
    CommaEntriesModeSpec(entries);
    if |entries| == 0 {
      return Ok(Local);
    }
    var i := 0;
    while i < |entries|
      invariant 0 <= i <= |entries|
      invariant ScanEntries(entries[i..]) == ScanEntries(entries)
    {
      assert entries[i..][1..] == entries[i + 1..];
      if entries[i].None? {
        return Err(NullPointerException);
      }
      if !IsRdd(entries[i].value) {
        return Ok(Local);
      }
      i := i + 1;
    }
    return Ok(Rdd);
  }

  /** One child that is not isRDD makes the whole comma expression LOCAL, wherever it sits. */
  lemma CommaModeLocalChild(before: seq<ExecutionMode>, child: ExecutionMode, after: seq<ExecutionMode>)
    requires !IsRdd(child)
    ensures CommaMode(before + [child] + after) == Local
  {
    var all := before + [child] + after;
    assert all[|before|] == child;
  }

  /** Appending an isRDD child never changes the mode of a non-empty comma expression. */
  lemma CommaModeAppendRdd(childModes: seq<ExecutionMode>, child: ExecutionMode)
    requires |childModes| > 0 && IsRdd(child)
    ensures CommaMode(childModes + [child]) == CommaMode(childModes)
  {
    var all := childModes + [child];
    if AllRdd(childModes) {
      assert AllRdd(all) by {
        forall i | 0 <= i < |all| ensures IsRdd(all[i]) {
          if i < |childModes| { assert all[i] == childModes[i]; }
        }
      }
    } else {
      var k :| 0 <= k < |childModes| && !IsRdd(childModes[k]);
      assert all[k] == childModes[k];
    }
  }

  // ---------------------------------------------------------------------
  // ConditionalExpression.initHighestExecutionMode

  /** RDD when both branches are isRDD, LOCAL otherwise; the condition takes no part. */
  function ConditionalMode(conditionMode: ExecutionMode, thenMode: ExecutionMode, elseMode: ExecutionMode): (m: ExecutionMode)
    ensures m == Local || m == Rdd
  {
    if IsRdd(thenMode) && IsRdd(elseMode) then Rdd else Local
  }

  /** A conditional is composed like a comma expression over its two branches. */
  lemma ConditionalModeIsCommaOfBranches(c: ExecutionMode, t: ExecutionMode, e: ExecutionMode)
    ensures ConditionalMode(c, t, e) == CommaMode([t, e])
    ensures forall c' :: ConditionalMode(c', t, e) == ConditionalMode(c, t, e)
  {
    var b := [t, e];
    assert b[0] == t && b[1] == e;
  }

  // ---------------------------------------------------------------------
  // SwitchExpression.initHighestExecutionMode

  /**
   * The default branch's mode, except that an RDD default (compared by
   * identity, so DATAFRAME does not qualify) falls back to LOCAL when some
   * case's return expression is not isRDD. Case tests take no part.
   */
  function SwitchMode(caseReturnModes: seq<ExecutionMode>, defaultMode: ExecutionMode): ExecutionMode
  {
    if defaultMode == Rdd && !AllRdd(caseReturnModes) then Local else defaultMode
  }

  method InitSwitchMode(caseReturnModes: seq<ExecutionMode>, defaultMode: ExecutionMode) returns (m: ExecutionMode)
    ensures m == SwitchMode(caseReturnModes, defaultMode)
  {
    m := defaultMode;
    if m == Rdd {
      var i := 0;
      while i < |caseReturnModes|
        invariant 0 <= i <= |caseReturnModes|
        invariant m == Rdd && AllRdd(caseReturnModes[..i])
      {
        if !IsRdd(caseReturnModes[i]) {
          m := Local;
          return;
        }
        i := i + 1;
      }
      assert caseReturnModes[..i] == caseReturnModes;
    }
  }

  /** With an RDD default the switch is composed like a comma expression over all its branches. */
  lemma SwitchModeRddDefaultIsComma(caseReturnModes: seq<ExecutionMode>)
    ensures SwitchMode(caseReturnModes, Rdd) == CommaMode(caseReturnModes + [Rdd])
  {
    var all := caseReturnModes + [Rdd];
    if AllRdd(caseReturnModes) {
      assert AllRdd(all) by {
        forall i | 0 <= i < |all| ensures IsRdd(all[i]) {
          if i < |caseReturnModes| { assert all[i] == caseReturnModes[i]; }
        }
      }
    } else {
      var k :| 0 <= k < |caseReturnModes| && !IsRdd(caseReturnModes[k]);
      assert all[k] == caseReturnModes[k];
    }
  }

  /** A default other than RDD is the switch's mode whatever the cases are. */
  lemma SwitchModeKeepsNonRddDefault(caseReturnModes: seq<ExecutionMode>, defaultMode: ExecutionMode)
    requires defaultMode != Rdd
    ensures SwitchMode(caseReturnModes, defaultMode) == defaultMode
    ensures SwitchMode([Local], DataFrame) == DataFrame
  {
  }
}
