// Shared vocabulary of the model: optional values, results that carry the
// engine's exceptions, and the few java.lang behaviours the core relies on
// (Integer.parseInt, String.valueOf(int), String.trim, 32-bit int arithmetic).

module Base {

  datatype Option<T> = None | Some(value: T)

  /** The exceptions the modelled code raises, one constructor per class. */
  datatype Exception =
    | OurBadException(message: string)
    | UndeclaredVariableException(variable: string)
    | VariableAlreadyExistsException(variable: string)
    | DuplicateFunctionIdentifierException
    | IteratorFlowException
    | UnexpectedTypeException(message: string)
    | JobWithinAJobException
    | FunctionsNonSerializableException
    | CliException(message: string)
    | ParsingException(message: string)
    | RuntimeException(message: string)
    | IllegalArgumentException
    | NumberFormatException
    | StringIndexOutOfBoundsException
    | IndexOutOfBoundsException
    | NullPointerException
    | ClassCastException

  datatype Result<T> = Ok(value: T) | Err(error: Exception)
  {
    predicate IsFailure() { Err? }

    function PropagateFailure<U>(): Result<U>
      requires Err?
    {
      Err(error)
    }

    function Extract(): T
      requires Ok?
    {
      value
    }
  }

  // ---------------------------------------------------------------------
  // 32-bit two's complement arithmetic (Java int)

  const INT_MIN: int := -0x8000_0000
  const INT_MAX: int := 0x7FFF_FFFF

  predicate IsInt32(i: int) { INT_MIN <= i <= INT_MAX }

  /** The Java int that an unbounded integer wraps around to. */
  function WrapInt32(i: int): (r: int)
    ensures IsInt32(r)
    ensures (r - i) % 0x1_0000_0000 == 0
    ensures IsInt32(i) ==> r == i
  {
    var m := i % 0x1_0000_0000;
    if m > INT_MAX then m - 0x1_0000_0000 else m
  }

  // ---------------------------------------------------------------------
  // Decimal digits

  predicate IsDigit(c: char) { '0' <= c <= '9' }

  predicate AllDigits(s: string) { forall i :: 0 <= i < |s| ==> IsDigit(s[i]) }

  function DigitValue(c: char): nat
    requires IsDigit(c)
  {
    (c - '0') as nat
  }

  function DigitChar(d: nat): (c: char)
    requires d < 10
    ensures IsDigit(c) && DigitValue(c) == d
  {
    (d + '0' as int) as char
  }

  /** Value of a run of decimal digits, most significant first. */
  function DigitsValue(s: string): nat
    requires AllDigits(s)
  {
    if s == [] then 0 else DigitsValue(s[..|s| - 1]) * 10 + DigitValue(s[|s| - 1])
  }

  /** Decimal digits of a natural number, as String.valueOf writes them. */
  function NatToDigits(n: nat): (s: string)
    ensures |s| > 0 && AllDigits(s)
  {
    if n < 10 then [DigitChar(n)] else NatToDigits(n / 10) + [DigitChar(n % 10)]
  }

  /** String.valueOf(int): an optional minus sign followed by the digits. */
  function IntToString(i: int): string
  {
    if i < 0 then "-" + NatToDigits(-i) else NatToDigits(i)
  }

  lemma {:induction false} DigitsValueOfNatToDigits(n: nat)
    ensures DigitsValue(NatToDigits(n)) == n
  {
    var s := NatToDigits(n);
    if n >= 10 {
      DigitsValueOfNatToDigits(n / 10);
      assert s[..|s| - 1] == NatToDigits(n / 10);
    }
  }

  /**
   * Integer.parseInt: an optional '+' or '-', then at least one decimal
   * digit, and a value inside the int range; anything else is a
   * NumberFormatException.
   */
  function ParseInt(s: string): (r: Result<int>)
    ensures r.Ok? ==> IsInt32(r.value)
    ensures r.Ok? ==> |s| > 0
  {
    if |s| == 0 then Err(NumberFormatException)
    else
      var negative := s[0] == '-';
      var digits := if s[0] == '-' || s[0] == '+' then s[1..] else s;
      if |digits| == 0 || !AllDigits(digits) then Err(NumberFormatException)
      else
        var v := if negative then -(DigitsValue(digits) as int) else DigitsValue(digits) as int;
        if IsInt32(v) then Ok(v) else Err(NumberFormatException)
  }

  /** Parsing what String.valueOf(int) writes gives the int back. */
  lemma {:induction false} ParseIntOfIntToString(i: int)
    requires IsInt32(i)
    ensures ParseInt(IntToString(i)) == Ok(i)
  {
    var s := IntToString(i);
    if i < 0 {
      var d := NatToDigits(-i);
      DigitsValueOfNatToDigits(-i);
      assert s[0] == '-' && s[1..] == d;
    } else {
      var d := NatToDigits(i);
      DigitsValueOfNatToDigits(i);
      assert IsDigit(s[0]) && s == d;
    }
  }

  // ---------------------------------------------------------------------
  // String helpers

  /** The number of leading characters up to U+0020: the first loop of String.trim. */
  function LeadingBlanks(s: string): (i: nat)
    ensures i <= |s|
    ensures forall k :: 0 <= k < i ==> s[k] <= ' '
    ensures i < |s| ==> s[i] > ' '
  {
    if s == [] || s[0] > ' ' then 0 else 1 + LeadingBlanks(s[1..])
  }

  /** The length left once the trailing characters up to U+0020 are dropped: the second loop of String.trim. */
  function LengthWithoutTrailingBlanks(s: string): (j: nat)
    ensures j <= |s|
    ensures forall k :: j <= k < |s| ==> s[k] <= ' '
    ensures j > 0 ==> s[j - 1] > ' '
  {
    if s == [] || s[|s| - 1] > ' ' then |s| else LengthWithoutTrailingBlanks(s[..|s| - 1])
  }

  /**
   * String.trim: the slice left after dropping the whole leading and the
   * whole trailing run of characters up to U+0020 (DEL and the C1 controls
   * are kept).
   */
  function Trim(s: string): (r: string)
    ensures |r| <= |s|
    ensures r == [] || (r[0] > ' ' && r[|r| - 1] > ' ')
    ensures exists i, j ::
      && 0 <= i <= j <= |s| && r == s[i..j]
      && (forall k :: 0 <= k < i ==> s[k] <= ' ')
      && (forall k :: j <= k < |s| ==> s[k] <= ' ')
  {
    var i := LeadingBlanks(s);
    var n := LengthWithoutTrailingBlanks(s[i..]);
    assert forall k :: i + n <= k < |s| ==> s[k] <= ' ' by {
      forall k | i + n <= k < |s| ensures s[k] <= ' ' { assert s[i..][k - i] == s[k]; }
    }
    s[i..i + n]
  }

  /** A string that neither starts nor ends with a character up to U+0020 is its own trim. */
  lemma TrimOfUnpadded(s: string)
    requires s == [] || (s[0] > ' ' && s[|s| - 1] > ' ')
    ensures Trim(s) == s
  {
    assert LeadingBlanks(s) == 0;
    assert s[0..] == s;
  }

  /** Trimming twice is trimming once. */
  lemma TrimIdempotent(s: string)
    ensures Trim(Trim(s)) == Trim(s)
  {
    TrimOfUnpadded(Trim(s));
  }

  predicate StartsWith(s: string, prefix: string)
  {
    |prefix| <= |s| && s[..|prefix|] == prefix
  }

  /** An occurrence of target starts in s at position k. */
  predicate OccursAt(s: string, target: string, k: int)
  {
    0 <= k && k + |target| <= |s| && s[k..k + |target|] == target
  }

  /** No occurrence of target starts in s before position n. */
  predicate NoOccurrenceBefore(s: string, target: string, n: int)
  {
    forall k :: 0 <= k < n ==> !OccursAt(s, target, k)
  }

  /**
   * String.replace(target, ""): every non-overlapping occurrence, left to
   * right, removed. RemoveAllWithoutOccurrence and RemoveAllFirstOccurrence
   * together say exactly which characters are kept.
   */
  function RemoveAll(s: string, target: string): (r: string)
    requires |target| > 0
    ensures |r| <= |s|
    decreases |s|
  {
    if |s| < |target| then s
    else if s[..|target|] == target then RemoveAll(s[|target|..], target)
    else [s[0]] + RemoveAll(s[1..], target)
  }

  /** A string in which target does not occur comes back unchanged. */
  lemma {:induction false} RemoveAllWithoutOccurrence(s: string, target: string)
    requires |target| > 0 && NoOccurrenceBefore(s, target, |s|)
    ensures RemoveAll(s, target) == s
    decreases |s|
  {
    if |s| >= |target| {
      assert !OccursAt(s, target, 0);
      RemoveAllKeepsFirst(s, target);
      NoOccurrenceShift(s, target, |s|);
      RemoveAllWithoutOccurrence(s[1..], target);
    }
  }

  /** Dropping the first character shifts every later position down by one. */
  lemma NoOccurrenceShift(s: string, target: string, n: int)
    requires |s| > 0
    ensures NoOccurrenceBefore(s, target, n) ==> NoOccurrenceBefore(s[1..], target, n - 1)
  {
    if NoOccurrenceBefore(s, target, n) {
      forall k | 0 <= k < n - 1
        ensures !OccursAt(s[1..], target, k)
      {
        assert !OccursAt(s, target, k + 1);
        if k + |target| <= |s| - 1 {
          assert s[1..][k..k + |target|] == s[k + 1..k + 1 + |target|];
        }
      }
    }
  }

  /** Without an occurrence at the start, the first character is kept. */
  lemma RemoveAllKeepsFirst(s: string, target: string)
    requires |target| > 0 && |s| > 0 && !OccursAt(s, target, 0)
    ensures RemoveAll(s, target) == [s[0]] + RemoveAll(s[1..], target)
  {
    if |s| >= |target| {
      assert s[0..0 + |target|] == s[..|target|];
    }
  }

  /** Dropping the first character of a text that does not start with target. */
  lemma FirstOccurrenceStep(p: string, target: string, rest: string)
    requires |target| > 0 && |p| > 0
    requires NoOccurrenceBefore(p + target + rest, target, |p|)
    ensures RemoveAll(p + target + rest, target) == [p[0]] + RemoveAll(p[1..] + target + rest, target)
    ensures NoOccurrenceBefore(p[1..] + target + rest, target, |p| - 1)
  {
    var s := p + target + rest;
    assert s[1..] == p[1..] + target + rest;
    assert !OccursAt(s, target, 0);
    RemoveAllKeepsFirst(s, target);
    NoOccurrenceShift(s, target, |p|);
  }

  /**
   * At the first occurrence of target, the text p before it is kept, the
   * occurrence is dropped and the removal goes on in the rest. With
   * RemoveAllWithoutOccurrence this determines RemoveAll completely: the
   * leftmost occurrences that do not overlap are removed.
   */
  lemma {:induction false} RemoveAllFirstOccurrence(p: string, target: string, rest: string)
    requires |target| > 0 && NoOccurrenceBefore(p + target + rest, target, |p|)
    ensures RemoveAll(p + target + rest, target) == p + RemoveAll(rest, target)
    decreases |p|
  {
    if p == [] {
      assert p + target + rest == target + rest;
      assert (target + rest)[..|target|] == target && (target + rest)[|target|..] == rest;
    } else {
      FirstOccurrenceStep(p, target, rest);
      RemoveAllFirstOccurrence(p[1..], target, rest);
      assert [p[0]] + (p[1..] + RemoveAll(rest, target)) == p + RemoveAll(rest, target) by {
        assert [p[0]] + p[1..] == p;
      }
    }
  }


}
