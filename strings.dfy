// The string builtins translate, substring and concat, and the string
// concatenation operator ||. Each returns one string item; the protocol of
// its next calls is LocalFunctionCalls.SingleResultCall, and what follows is
// the item (or the exception) that the one successful call computes.
//
// A string is a sequence of Dafny chars, that is of Unicode scalar values,
// where a Java string is a sequence of UTF-16 code units: the two agree on
// text inside the Basic Multilingual Plane and differ above U+FFFF. An
// argument is the first item its expression yields, None when the
// expression yields nothing.

module StringFunctions {
  import opened Base
  import opened Items

  function Min(a: int, b: int): int { if a <= b then a else b }
  function Max(a: int, b: int): int { if a <= b then b else a }

  // ---------------------------------------------------------------------
  // translate

  /** The position of the first occurrence of c in s. */
  function FirstIndex(s: string, c: char): (i: nat)
    requires c in s
    ensures i < |s| && s[i] == c
    ensures forall j :: 0 <= j < i ==> s[j] != c
  {
    if s[0] == c then 0 else 1 + FirstIndex(s[1..], c)
  }

  /**
   * The character a map character stands for: the translation character
   * at the position of its first occurrence, or the sentinel '\0' (delete)
   * when the translation string is shorter.
   */
  function Replacement(mapString: string, transString: string, c: char): char
    requires c in mapString
  {
    var i := FirstIndex(mapString, c);
    if i < |transString| then transString[i] else '\0'
  }

  /** The translation table: every map character with its replacement. */
  function TranslationTable(mapString: string, transString: string): (mp: map<char, char>)
    ensures forall c :: c in mp <==> c in mapString
  {
    map c | c in mapString :: Replacement(mapString, transString, c)
  }

  /**
   * The table-building loop of translate: a character already in the table
   * keeps the replacement of its first occurrence.
   */
  method BuildTranslationTable(mapString: string, transString: string) returns (mp: map<char, char>)
    ensures mp == TranslationTable(mapString, transString)
  {
    mp := map[];
    var i := 0;
    while i < |mapString|
      invariant 0 <= i <= |mapString|
      invariant forall c :: c in mp <==> c in mapString[..i]
      invariant forall c :: c in mp ==> c in mapString && mp[c] == Replacement(mapString, transString, c)
    {
      var c := mapString[i];
      assert mapString[..i + 1] == mapString[..i] + [c];
      if c !in mp {
        assert forall j :: 0 <= j < i ==> mapString[j] != c by {
          forall j | 0 <= j < i
            ensures mapString[j] != c
          {
            assert mapString[j] == mapString[..i][j];
          }
        }
        assert FirstIndex(mapString, c) == i;
        mp := mp[c := if i < |transString| then transString[i] else '\0'];
      }
      i := i + 1;
    }
    assert mapString[..i] == mapString;
  }

  /** What one input character becomes: deleted when it maps to '\0', replaced when mapped, else kept. */
  function TranslateChar(mp: map<char, char>, c: char): (r: string)
    ensures |r| <= 1
  {
    if c in mp then (if mp[c] == '\0' then [] else [mp[c]]) else [c]
  }

  /** The filter-then-map stream over the input characters, in order. */
  function ApplyTable(mp: map<char, char>, input: string): (r: string)
    ensures |r| <= |input|
  {
    if input == [] then [] else TranslateChar(mp, input[0]) + ApplyTable(mp, input[1..])
  }

  /** translate over strings that are present. */
  function Translation(input: string, mapString: string, transString: string): string
  {
    ApplyTable(TranslationTable(mapString, transString), input)
  }

  /**
   * translate: an empty input gives ""; a missing map or translation
   * string is then dereferenced and raises a NullPointerException.
   */
  method Translate(input: Option<string>, mapString: Option<string>, transString: Option<string>)
    returns (r: Result<Item>)
    ensures input.None? ==> r == Ok(StringItem(""))
    ensures input.Some? && (mapString.None? || transString.None?) ==> r == Err(NullPointerException)
    ensures input.Some? && mapString.Some? && transString.Some?
            ==> r == Ok(StringItem(Translation(input.value, mapString.value, transString.value)))
  {
    if input.None? {
      return Ok(StringItem(""));
    }
    if mapString.None? || transString.None? {
      return Err(NullPointerException);
    }
    var mp := BuildTranslationTable(mapString.value, transString.value);
    return Ok(StringItem(ApplyTable(mp, input.value)));
  }

  /** The translation works character by character. */
  lemma {:induction false} ApplyTableAppend(mp: map<char, char>, a: string, b: string)
    ensures ApplyTable(mp, a + b) == ApplyTable(mp, a) + ApplyTable(mp, b)
    decreases |a|
  {
    if a == [] {
      assert a + b == b;
    } else {
      assert (a + b)[1..] == a[1..] + b;
      ApplyTableAppend(mp, a[1..], b);
    }
  }

  /** Characters that are not in the map string are copied unchanged, in order. */
  lemma {:induction false} UnmappedCharactersAreKept(input: string, mapString: string, transString: string)
    requires forall i :: 0 <= i < |input| ==> input[i] !in mapString
    ensures Translation(input, mapString, transString) == input
    decreases |input|
  {
    if input != [] {
      UnmappedCharactersAreKept(input[1..], mapString, transString);
    }
  }

  /**
   * A map character decides by its first occurrence only: the translation
   * character at that position, or deletion when there is none or when it
   * is literally '\0'.
   */
  lemma FirstOccurrenceDecides(mapString: string, transString: string, i: nat)
    requires i < |mapString|
    requires forall j :: 0 <= j < i ==> mapString[j] != mapString[i]
    ensures Translation([mapString[i]], mapString, transString)
            == if i < |transString| && transString[i] != '\0' then [transString[i]] else []
  {
    assert FirstIndex(mapString, mapString[i]) == i;
    assert ApplyTable(TranslationTable(mapString, transString), [mapString[i]])
           == TranslateChar(TranslationTable(mapString, transString), mapString[i]) + ApplyTable(TranslationTable(mapString, transString), []);
  }

  /** Every character of the output is an unmapped input character or a translation character. */
  lemma {:induction false} OutputCharacters(input: string, mapString: string, transString: string)
    ensures forall c :: c in Translation(input, mapString, transString) ==>
              (c in input && c !in mapString) || (c in transString && c != '\0')
    decreases |input|
  {
    if input != [] {
      var mp := TranslationTable(mapString, transString);
      OutputCharacters(input[1..], mapString, transString);
      var c := input[0];
      if c in mp {
        var k := FirstIndex(mapString, c);
        if k < |transString| {
          assert transString[k] in transString;
        }
      }
      forall d | d in Translation(input, mapString, transString)
        ensures (d in input && d !in mapString) || (d in transString && d != '\0')
      {
        if d !in TranslateChar(mp, c) {
          assert d in ApplyTable(mp, input[1..]);
          assert forall e :: e in input[1..] ==> e in input;
        }
      }
    }
  }

  // ---------------------------------------------------------------------
  // substring

  const StartMessage: string := "Type error; Start index parameter can't be empty sequence "
  const EndMessage: string := "Type error; End index parameter can't be empty sequence "

  /**
   * The zero-based start: Math.round(start - 1) cast to int. For an
   * integer-valued start the rounding is exact; the cast keeps the low 32
   * bits.
   */
  function StartIndex(start: int): int
  {
    WrapInt32(start - 1)
  }

  /** String.substring(begin, end): it raises unless 0 <= begin <= end <= length. */
  function JavaSubstring(s: string, begin: int, end: int): (r: Result<string>)
    ensures r.Ok? <==> 0 <= begin <= end <= |s|
    ensures r.Err? ==> r.error == StringIndexOutOfBoundsException
    ensures r.Ok? ==> |r.value| == end - begin && forall i :: 0 <= i < |r.value| ==> r.value[i] == s[begin + i]
  {
    if 0 <= begin <= end <= |s| then Ok(s[begin..end]) else Err(StringIndexOutOfBoundsException)
  }

  /** The two-argument substring as written: the suffix from the start index, which is not clamped at 0. */
  function Substring2AsWritten(s: Option<string>, start: Option<int>): (r: Result<string>)
    ensures s.None? ==> r == Ok("")
    ensures s.Some? && start.None? ==> r == Err(UnexpectedTypeException(StartMessage))
    ensures r == Err(StringIndexOutOfBoundsException) <==> s.Some? && start.Some? && StartIndex(start.value) < 0
  {
    if s.None? then Ok("")
    else if start.None? then Err(UnexpectedTypeException(StartMessage))
    else
      var index := StartIndex(start.value);
      if index >= |s.value| then Ok("") else JavaSubstring(s.value, index, |s.value|)
  }

  /**
   * The three-argument substring as written: end = min(length, index + len);
   * an end before the index gives "", otherwise the characters from
   * max(index, 0) to end, which raises when the end is negative.
   */
  function Substring3AsWritten(s: Option<string>, start: Option<int>, length: Option<int>): (r: Result<string>)
    ensures s.None? ==> r == Ok("")
    ensures s.Some? && start.None? ==> r == Err(UnexpectedTypeException(StartMessage))
    ensures s.Some? && start.Some? && StartIndex(start.value) < |s.value| && length.None?
            ==> r == Err(UnexpectedTypeException(EndMessage))
    ensures r == Err(StringIndexOutOfBoundsException)
            <==> s.Some? && start.Some? && length.Some? && StartIndex(start.value) <= StartIndex(start.value) + length.value < 0
  {
    if s.None? then Ok("")
    else if start.None? then Err(UnexpectedTypeException(StartMessage))
    else
      var index := StartIndex(start.value);
      if index >= |s.value| then Ok("")
      else if length.None? then Err(UnexpectedTypeException(EndMessage))
      else
        var endIndex := Min(|s.value|, index + length.value);
        if endIndex < index then Ok("") else JavaSubstring(s.value, Max(index, 0), endIndex)
  }

  /** substring("abc", 0) raises instead of giving "abc". */
  lemma Substring2ZeroStartFailsAsWritten()
    ensures Substring2AsWritten(Some("abc"), Some(0)) == Err(StringIndexOutOfBoundsException)
    ensures Substring2(Some("abc"), Some(0)) == Ok("abc")
  {
    assert StartIndex(0) == -1;
    assert "abc"[0..3] == "abc";
  }

  /** substring("abc", -5, 2) raises instead of giving "". */
  lemma Substring3BeforeStartFailsAsWritten()
    ensures Substring3AsWritten(Some("abc"), Some(-5), Some(2)) == Err(StringIndexOutOfBoundsException)
    ensures Substring3(Some("abc"), Some(-5), Some(2)) == Ok("")
  {
    assert StartIndex(-5) == -6;
  }

  /** The two-argument substring with the start clamped at 0. */
  function Substring2(s: Option<string>, start: Option<int>): (r: Result<string>)
    ensures s.None? ==> r == Ok("")
    ensures r.Err? <==> s.Some? && start.None?
    ensures r.Err? ==> r.error == UnexpectedTypeException(StartMessage)
    ensures r.Ok? && s.Some? ==> |r.value| <= |s.value|
  {
    if s.None? then Ok("")
    else if start.None? then Err(UnexpectedTypeException(StartMessage))
    else
      var index := StartIndex(start.value);
      if index >= |s.value| then Ok("") else JavaSubstring(s.value, Max(index, 0), |s.value|)
  }

  /** The three-argument substring with the end clamped at 0 as well. */
  function Substring3(s: Option<string>, start: Option<int>, length: Option<int>): (r: Result<string>)
    ensures s.None? ==> r == Ok("")
    ensures r.Err? <==> s.Some? && (start.None? || (StartIndex(start.value) < |s.value| && length.None?))
    ensures r.Err? ==> r.error.UnexpectedTypeException?
    ensures r.Ok? && s.Some? ==> |r.value| <= |s.value|
  {
    if s.None? then Ok("")
    else if start.None? then Err(UnexpectedTypeException(StartMessage))
    else
      var index := StartIndex(start.value);
      if index >= |s.value| then Ok("")
      else if length.None? then Err(UnexpectedTypeException(EndMessage))
      else
        var endIndex := Min(|s.value|, index + length.value);
        if endIndex < index then Ok("") else JavaSubstring(s.value, Max(index, 0), Max(endIndex, 0))
  }

  /** Where the code as written succeeds, the clamped versions give the same string. */
  lemma SubstringAsWrittenAgreesWhenOk(s: Option<string>, start: Option<int>, length: Option<int>)
    ensures Substring2AsWritten(s, start).Ok? ==> Substring2(s, start) == Substring2AsWritten(s, start)
    ensures Substring3AsWritten(s, start, length).Ok?
            ==> Substring3(s, start, length) == Substring3AsWritten(s, start, length)
  {
  }

  /**
   * The characters whose one-based positions p satisfy lo <= p and, when
   * there is an upper bound, p < hi; first is the position of s[0].
   */
  function Window(s: string, first: int, lo: int, hi: Option<int>): string
    decreases |s|
  {
    if s == [] then []
    else (if lo <= first && (hi.None? || first < hi.value) then [s[0]] else [])
         + Window(s[1..], first + 1, lo, hi)
  }

  function Clamp(x: int, n: nat): (r: nat)
    ensures r <= n
  {
    if x < 0 then 0 else if x > n then n else x
  }

  /** Where the window of a string of length n starts. */
  function WindowStart(first: int, lo: int, n: nat): nat
  {
    Clamp(lo - first, n)
  }

  /** Where the window of a string of length n ends. */
  function WindowEnd(first: int, lo: int, hi: Option<int>, n: nat): nat
  {
    if hi.None? then n else Max(WindowStart(first, lo, n), Clamp(hi.value - first, n))
  }

  /** How the bounds of the window move when the first character is dropped. */
  lemma WindowBoundsStep(first: int, lo: int, hi: Option<int>, n: nat)
    requires n > 0
    ensures lo > first ==> WindowStart(first, lo, n) == WindowStart(first + 1, lo, n - 1) + 1
                           && WindowEnd(first, lo, hi, n) == WindowEnd(first + 1, lo, hi, n - 1) + 1
    ensures lo <= first && (hi.None? || first < hi.value) ==>
              WindowStart(first, lo, n) == 0 && WindowStart(first + 1, lo, n - 1) == 0
              && WindowEnd(first, lo, hi, n) == WindowEnd(first + 1, lo, hi, n - 1) + 1
    ensures lo <= first && hi.Some? && hi.value <= first ==>
              WindowStart(first, lo, n) == 0 && WindowEnd(first, lo, hi, n) == 0
              && WindowStart(first + 1, lo, n - 1) == 0 && WindowEnd(first + 1, lo, hi, n - 1) == 0
  {
  }

  /** A window is one slice of the string. */
  lemma {:induction false} WindowIsSlice(s: string, first: int, lo: int, hi: Option<int>)
    ensures WindowStart(first, lo, |s|) <= WindowEnd(first, lo, hi, |s|) <= |s|
    ensures Window(s, first, lo, hi) == s[WindowStart(first, lo, |s|)..WindowEnd(first, lo, hi, |s|)]
    decreases |s|
  {
    if s != [] {
      WindowIsSlice(s[1..], first + 1, lo, hi);
      WindowBoundsStep(first, lo, hi, |s|);
      var b' := WindowStart(first + 1, lo, |s| - 1);
      var e' := WindowEnd(first + 1, lo, hi, |s| - 1);
      var rest := Window(s[1..], first + 1, lo, hi);
      SliceOfTail(s, b', e');
      if lo <= first && (hi.None? || first < hi.value) {
        assert Window(s, first, lo, hi) == [s[0]] + rest;
        assert s[0..e' + 1] == [s[0]] + s[1..e' + 1];
      } else if lo > first {
        assert Window(s, first, lo, hi) == [] + rest;
        assert [] + rest == rest;
      } else {
        assert rest == [];
        assert Window(s, first, lo, hi) == [] + rest;
      }
    } else {
      assert WindowStart(first, lo, 0) == 0 && WindowEnd(first, lo, hi, 0) == 0;
    }
  }

  lemma SliceOfTail(s: string, b: nat, e: nat)
    requires 0 < |s| && b <= e <= |s| - 1
    ensures s[1..][b..e] == s[b + 1..e + 1]
  {
  }

  /**
   * The clamped two-argument substring is the characters at positions
   * start and after, as in section 5.4.3 of XPath and XQuery Functions and
   * Operators 3.1 for integer arguments.
   */
  lemma Substring2MatchesPositions(s: string, start: int)
    requires IsInt32(start - 1)
    ensures Substring2(Some(s), Some(start)) == Ok(Window(s, 1, start, None))
  {
    WindowIsSlice(s, 1, start, None);
  }

  /** The clamped three-argument substring is the characters at positions start to start + length - 1. */
  lemma Substring3MatchesPositions(s: string, start: int, length: int)
    requires IsInt32(start - 1)
    ensures Substring3(Some(s), Some(start), Some(length)) == Ok(Window(s, 1, start, Some(start + length)))
  {
    WindowIsSlice(s, 1, start, Some(start + length));
  }

  // ---------------------------------------------------------------------
  // concat

  /** The string one argument contributes: its first item serialized, nothing when it is empty. */
  function ArgumentString(argument: seq<Item>): (r: Result<string>)
    ensures argument == [] ==> r == Ok("")
    ensures argument != [] ==> r == Serialize(argument[0])
  {
    if argument == [] then Ok("") else Serialize(argument[0])
  }

  /** Two partial results joined: the first failure, or the two strings one after the other. */
  function Join(x: Result<string>, y: Result<string>): (r: Result<string>)
    ensures r.Ok? <==> x.Ok? && y.Ok?
    ensures r.Ok? ==> r.value == x.value + y.value
    ensures x.Err? ==> r == x
    ensures x.Ok? && y.Err? ==> r == y
  {
    if x.Err? then x else if y.Err? then y else Ok(x.value + y.value)
  }

  /** The contributions of the arguments, concatenated in argument order. */
  function ConcatStrings(arguments: seq<seq<Item>>): (r: Result<string>)
    ensures r.Err? ==> r.error == FunctionsNonSerializableException
  {
    if arguments == [] then Ok("") else Join(ArgumentString(arguments[0]), ConcatStrings(arguments[1..]))
  }

  /** concat: the builder loop over the arguments. */
  method Concat(arguments: seq<seq<Item>>) returns (r: Result<Item>)
    ensures r.Ok? <==> ConcatStrings(arguments).Ok?
    ensures r.Ok? ==> r.value == StringItem(ConcatStrings(arguments).value)
    ensures r.Err? ==> r.error == FunctionsNonSerializableException
  {
    var builder := "";
    var i := 0;
    assert arguments[i..] == arguments;
    assert Join(Ok(builder), ConcatStrings(arguments[i..])) == ConcatStrings(arguments) by {
      var c := ConcatStrings(arguments);
      if c.Ok? {
        assert builder + c.value == c.value;
      }
    }
    while i < |arguments|
      invariant 0 <= i <= |arguments|
      invariant Join(Ok(builder), ConcatStrings(arguments[i..])) == ConcatStrings(arguments)
    {
      assert arguments[i..][1..] == arguments[i + 1..];
      ghost var rest := ConcatStrings(arguments[i + 1..]);
      assert ConcatStrings(arguments[i..]) == Join(ArgumentString(arguments[i]), rest);
      if arguments[i] != [] {
        var stringValue := Serialize(arguments[i][0]);
        if stringValue.Err? {
          return Err(stringValue.error);
        }
        if stringValue.value != "" {
          if rest.Ok? {
            assert (builder + stringValue.value) + rest.value == builder + (stringValue.value + rest.value);
          }
          builder := builder + stringValue.value;
        } else if rest.Ok? {
          assert stringValue.value + rest.value == rest.value;
        }
      } else if rest.Ok? {
        assert "" + rest.value == rest.value;
      }
      i := i + 1;
    }
    assert arguments[i..] == [];
    assert builder + "" == builder;
    return Ok(StringItem(builder));
  }

  /** concat distributes over a split of its arguments. */
  lemma {:induction false} ConcatStringsAppend(a: seq<seq<Item>>, b: seq<seq<Item>>)
    ensures ConcatStrings(a + b) == Join(ConcatStrings(a), ConcatStrings(b))
    decreases |a|
  {
    if a == [] {
      assert a + b == b;
      var y := ConcatStrings(b);
      if y.Ok? {
        assert "" + y.value == y.value;
      }
    } else {
      assert (a + b)[0] == a[0];
      assert (a + b)[1..] == a[1..] + b;
      ConcatStringsAppend(a[1..], b);
      var first := ArgumentString(a[0]);
      var x := ConcatStrings(a[1..]);
      var y := ConcatStrings(b);
      if first.Ok? && x.Ok? && y.Ok? {
        assert first.value + (x.value + y.value) == (first.value + x.value) + y.value;
      }
    }
  }

  /** An argument that yields nothing contributes nothing. */
  lemma EmptyArgumentContributesNothing(a: seq<seq<Item>>, b: seq<seq<Item>>)
    ensures ConcatStrings(a + [[]] + b) == ConcatStrings(a + b)
  {
    var empty: seq<seq<Item>> := [[]];
    assert empty[1..] == [];
    assert ConcatStrings(empty) == Join(Ok(""), Ok(""));
    assert "" + "" == "";
    ConcatStringsAppend(a + empty, b);
    ConcatStringsAppend(a, empty);
    ConcatStringsAppend(a, b);
    var x := ConcatStrings(a);
    if x.Ok? {
      assert x.value + "" == x.value;
    }
  }

  /** Only the first item of each argument is read. */
  lemma {:induction false} OnlyFirstItemsCount(arguments: seq<seq<Item>>, others: seq<seq<Item>>)
    requires |others| == |arguments|
    requires forall i :: 0 <= i < |arguments| ==>
               (arguments[i] == [] <==> others[i] == []) && (arguments[i] != [] ==> arguments[i][0] == others[i][0])
    ensures ConcatStrings(arguments) == ConcatStrings(others)
    decreases |arguments|
  {
    if arguments != [] {
      OnlyFirstItemsCount(arguments[1..], others[1..]);
    }
  }

  /** concat of string arguments is the concatenation of their first strings. */
  lemma {:induction false} ConcatOfStrings(arguments: seq<seq<Item>>)
    requires forall i :: 0 <= i < |arguments| ==> |arguments[i]| > 0 && arguments[i][0].StringItem?
    ensures ConcatStrings(arguments) == Ok(FirstStrings(arguments))
    decreases |arguments|
  {
    if arguments != [] {
      ConcatOfStrings(arguments[1..]);
    }
  }

  /** The string values of the first items, concatenated. */
  function FirstStrings(arguments: seq<seq<Item>>): string
    requires forall i :: 0 <= i < |arguments| ==> |arguments[i]| > 0 && arguments[i][0].StringItem?
  {
    if arguments == [] then "" else arguments[0][0].stringValue + FirstStrings(arguments[1..])
  }

  // ---------------------------------------------------------------------
  // ||

  const StringConcatMessage: string := "String concat expression has arguments that can't be converted to a string "

  /** An operand is its first item, or "" when it yields nothing. */
  function Operand(items: seq<Item>): (r: Item)
    ensures r == if items == [] then StringItem("") else items[0]
  {
    if items == [] then StringItem("") else items[0]
  }

  /**
   * The string concatenation operator: the serializations of the two
   * operands, joined. A non-atomic operand is a type error whose message
   * holds both serializations, so a function-item operand raises the
   * serialization failure instead.
   */
  function StringConcat(left: seq<Item>, right: seq<Item>): (r: Result<string>)
    ensures r.Ok? <==> IsAtomic(Operand(left)) && IsAtomic(Operand(right))
    ensures r.Ok? ==> r.value == Serialize(Operand(left)).value + Serialize(Operand(right)).value
    ensures r.Err? && (Operand(left).FunctionValue? || Operand(right).FunctionValue?)
            ==> r.error == FunctionsNonSerializableException
    ensures r.Err? && !ContainsFunction(Operand(left)) && !ContainsFunction(Operand(right))
            ==> r.error.UnexpectedTypeException?
  {
    var l := Operand(left);
    var rt := Operand(right);
    if !IsAtomic(l) || !IsAtomic(rt) then
      SerializeFailsIffFunction(l);
      SerializeFailsIffFunction(rt);
      var ls :- Serialize(l);
      var rs :- Serialize(rt);
      Err(UnexpectedTypeException(StringConcatMessage + ls + ", " + rs))
    else
      Ok(Serialize(l).value + Serialize(rt).value)
  }

  /** On atomic operands, || and two-argument concat agree. */
  lemma StringConcatIsConcat(left: seq<Item>, right: seq<Item>)
    requires IsAtomic(Operand(left)) && IsAtomic(Operand(right))
    ensures StringConcat(left, right) == ConcatStrings([left, right])
  {
    assert [left, right][1..] == [right];
    assert [right][1..] == [];
    var l := Serialize(Operand(left));
    var r := Serialize(Operand(right));
    assert l.Ok? && r.Ok?;
    assert ArgumentString(left) == l && ArgumentString(right) == r;
    assert ConcatStrings([right]) == Join(r, Ok(""));
    assert r.value + "" == r.value;
  }

  /** An operand that yields nothing acts as the empty string. */
  lemma EmptyOperandIsEmptyString(items: seq<Item>)
    ensures StringConcat([], items) == StringConcat([StringItem("")], items)
    ensures StringConcat(items, []) == StringConcat(items, [StringItem("")])
  {
  }
}
