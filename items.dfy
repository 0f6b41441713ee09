// Items: the values a JSONiq query manipulates. Atomic values, arrays and
// objects are values; a function item is an object whose closure the
// runtime fills in place.

module Items {
  import opened Base
  import opened Names

  // ---------------------------------------------------------------------
  // Handles on what lives outside the model

  /** A distributed collection of items; only its identity matters here. */
  datatype RddHandle = RddHandle(id: nat)

  /** A Spark DataFrame; only its identity matters here. */
  datatype DataFrameHandle = DataFrameHandle(id: nat)

  /** The runtime iterator of a function body. */
  datatype IteratorHandle = IteratorHandle(id: nat)

  /** A time zone: UTC, the JVM's default zone, or another fixed zone. */
  datatype Zone = Utc | DefaultZone | OtherZone(offsetMinutes: int)

  /**
   * A date-time value: its instant on the time line, its zone, and the
   * text its toString writes (the library's ISO format).
   */
  datatype DateTime = DateTime(instant: int, zone: Zone, text: DateTimeText)

  /** The library's text of a date-time is never empty. */
  type DateTimeText = s: string | |s| > 0 witness "Z"

  /** The parameter types and return type of a function. */
  datatype FunctionSignature = FunctionSignature(parameterTypes: seq<SequenceType>, returnType: SequenceType)

  // ---------------------------------------------------------------------
  // Items

  datatype Entry = Entry(key: string, value: Item)

  datatype Item =
    | StringItem(stringValue: string)
    | IntegerItem(integerValue: int)
      /** Decimals and doubles keep the lexeme they were read from. */
    | DecimalItem(decimalLexeme: string)
    | DoubleItem(doubleLexeme: string)
    | BooleanItem(booleanValue: bool)
    | NullItem
    | ArrayValue(members: seq<Item>)
    | ObjectValue(entries: seq<Entry>)
    | DateTimeValue(dateTime: DateTime)
    | FunctionValue(fn: FunctionItem)

  predicate IsAtomic(item: Item)
  {
    !(item.ArrayValue? || item.ObjectValue? || item.FunctionValue?)
  }

  /** getDynamicType: the item type of the item's own class. */
  function DynamicType(item: Item): ItemType
  {
    match item
    case StringItem(_) => ItemType.StringItem
    case IntegerItem(_) => ItemType.IntegerItem
    case DecimalItem(_) => ItemType.DecimalItem
    case DoubleItem(_) => ItemType.DoubleItem
    case BooleanItem(_) => ItemType.BooleanItem
    case NullItem => ItemType.NullItem
    case ArrayValue(_) => ItemType.ArrayItem
    case ObjectValue(_) => ItemType.ObjectItem
    case DateTimeValue(_) => ItemType.DateTimeItem
    case FunctionValue(_) => ItemType.FunctionItem
  }

  /** isTypeOf: the item's own type, the atomic type for atomic items, and item. */
  predicate IsTypeOf(item: Item, t: ItemType)
  {
    t == DynamicType(item) || t == ItemItem || (IsAtomic(item) && t == AtomicItem)
  }

  /** A function item has exactly the types function and item. */
  lemma FunctionIsTypeOf(f: FunctionItem, t: ItemType)
    ensures IsTypeOf(FunctionValue(f), t) <==> t == ItemType.FunctionItem || t == ItemItem
  {
  }

  /** An array item has exactly the types array and item. */
  lemma ArrayIsTypeOf(members: seq<Item>, t: ItemType)
    ensures IsTypeOf(ArrayValue(members), t) <==> t == ItemType.ArrayItem || t == ItemItem
  {
  }

  /**
   * getEffectiveBooleanValue. A function item and a dateTime are false;
   * the rule of the other kinds lives in classes outside this model and is
   * passed in.
   */
  function EffectiveBooleanValue(item: Item, otherEbv: Item -> bool): (r: bool)
    ensures item.FunctionValue? || item.DateTimeValue? ==> !r
  {
    if item.FunctionValue? || item.DateTimeValue? then false else otherEbv(item)
  }

  predicate ContainsFunction(item: Item)
  {
    match item
    case FunctionValue(_) => true
    case ArrayValue(members) => exists i :: 0 <= i < |members| && ContainsFunction(members[i])
    case ObjectValue(entries) => exists i :: 0 <= i < |entries| && ContainsFunction(entries[i].value)
    case _ => false
  }

  // ---------------------------------------------------------------------
  // Equality

  /**
   * equals. Function items equal nothing, not even themselves; a dateTime
   * equals a dateTime at the same instant; an array equals an array of the
   * same size whose members are equal one by one; an object equals an
   * object with the same keys in order and equal values; the other atomic
   * kinds compare their values.
   */
  function ItemEquals(a: Item, b: Item): bool
  {
    match a
    case FunctionValue(_) => false
    case DateTimeValue(d) => b.DateTimeValue? && d.instant == b.dateTime.instant
    case ArrayValue(ms) => b.ArrayValue? && |ms| == |b.members| && MembersEqual(ms, b.members)
    case ObjectValue(es) => b.ObjectValue? && |es| == |b.entries| && EntriesEqual(es, b.entries)
    case _ => a == b
  }

  predicate MembersEqual(xs: seq<Item>, ys: seq<Item>)
    requires |xs| == |ys|
  {
    forall i :: 0 <= i < |xs| ==> ItemEquals(xs[i], ys[i])
  }

  predicate EntriesEqual(xs: seq<Entry>, ys: seq<Entry>)
    requires |xs| == |ys|
  {
    forall i :: 0 <= i < |xs| ==> xs[i].key == ys[i].key && ItemEquals(xs[i].value, ys[i].value)
  }

  /** An item equals itself exactly when no function item hides inside it. */
  lemma {:induction false} ItemEqualsReflexive(item: Item)
    ensures ItemEquals(item, item) <==> !ContainsFunction(item)
  {
    match item
    case ArrayValue(ms) =>
      forall i | 0 <= i < |ms| { ItemEqualsReflexive(ms[i]); }
    case ObjectValue(es) =>
      forall i | 0 <= i < |es| { ItemEqualsReflexive(es[i].value); }
    case _ =>
  }

  /** Equality is symmetric. */
  lemma {:induction false} ItemEqualsSymmetric(a: Item, b: Item)
    ensures ItemEquals(a, b) ==> ItemEquals(b, a)
  {
    if ItemEquals(a, b) {
      match a
      case ArrayValue(ms) =>
        assert b.ArrayValue? && |ms| == |b.members| && MembersEqual(ms, b.members);
        forall i | 0 <= i < |ms| ensures ItemEquals(b.members[i], ms[i]) {
          assert ItemEquals(ms[i], b.members[i]);
          ItemEqualsSymmetric(ms[i], b.members[i]);
        }
      case ObjectValue(es) =>
        assert b.ObjectValue? && |es| == |b.entries| && EntriesEqual(es, b.entries);
        forall i | 0 <= i < |es| ensures ItemEquals(b.entries[i].value, es[i].value) {
          assert ItemEquals(es[i].value, b.entries[i].value);
          ItemEqualsSymmetric(es[i].value, b.entries[i].value);
        }
      case _ =>
    }
  }

  // ---------------------------------------------------------------------
  // Hash codes

  /**
   * hashCode. An array's is its size plus the sum of its members' hash
   * codes, in 32-bit arithmetic; the hash codes of the other kinds live in
   * classes outside this model and are passed in.
   */
  function HashCode(item: Item, otherHash: Item -> int): (h: int)
    ensures IsInt32(h)
  {
    match item
    case ArrayValue(ms) => WrapInt32(|ms| + MemberHashSum(ms, otherHash))
    case _ => WrapInt32(otherHash(item))
  }

  function MemberHashSum(ms: seq<Item>, otherHash: Item -> int): int
  {
    if ms == [] then 0 else MemberHashSum(ms[..|ms| - 1], otherHash) + HashCode(ms[|ms| - 1], otherHash)
  }

  /**
   * Equal arrays have equal hash codes, provided the hash codes of the
   * other kinds agree with their equality.
   */
  lemma {:induction false} EqualItemsHaveEqualHashCodes(a: Item, b: Item, otherHash: Item -> int)
    requires forall x: Item, y: Item :: !x.ArrayValue? && ItemEquals(x, y) ==> otherHash(x) == otherHash(y)
    ensures ItemEquals(a, b) ==> HashCode(a, otherHash) == HashCode(b, otherHash)
  {
    if ItemEquals(a, b) && a.ArrayValue? {
      MemberHashSumsAgree(a.members, b.members, otherHash);
    }
  }

  lemma {:induction false} MemberHashSumsAgree(xs: seq<Item>, ys: seq<Item>, otherHash: Item -> int)
    requires forall x: Item, y: Item :: !x.ArrayValue? && ItemEquals(x, y) ==> otherHash(x) == otherHash(y)
    requires |xs| == |ys| && MembersEqual(xs, ys)
    ensures MemberHashSum(xs, otherHash) == MemberHashSum(ys, otherHash)
    decreases xs
  {
    if xs != [] {
      var n := |xs| - 1;
      assert xs[n] in xs;
      MemberHashSumsAgree(xs[..n], ys[..n], otherHash);
      EqualItemsHaveEqualHashCodes(xs[n], ys[n], otherHash);
    }
  }

  // ---------------------------------------------------------------------
  // Serialization

  /**
   * serialize. A string serializes to its value, an array to
   * "[ m1, m2 ]" ("[ ]" when empty), string members quoted and escaped;
   * a function item cannot be serialized.
   */
  function Serialize(item: Item): (r: Result<string>)
    ensures item.FunctionValue? ==> r == Err(FunctionsNonSerializableException)
    ensures r.Err? ==> r.error == FunctionsNonSerializableException
    ensures item.StringItem? ==> r == Ok(item.stringValue)
    decreases item, 1
  {
    match item
    case StringItem(s) => Ok(s)
    case IntegerItem(i) => Ok(IntToString(i))
    case DecimalItem(lexeme) => Ok(lexeme)
    case DoubleItem(lexeme) => Ok(lexeme)
    case BooleanItem(b) => Ok(if b then "true" else "false")
    case NullItem => Ok("null")
    case ArrayValue(ms) =>
      var body :- SerializeMembers(item, ms, " ");
      Ok("[" + body + " ]")
    case ObjectValue(es) =>
      var body :- SerializeEntries(item, es, " ");
      Ok("{" + body + " }")
    case DateTimeValue(d) => SerializeDateTime(d)
    case FunctionValue(_) => Err(FunctionsNonSerializableException)
  }

  /** A member inside an array or object: strings quoted and escaped, everything else as it serializes. */
  function SerializeMember(parent: Item, m: Item): (r: Result<string>)
    requires m < parent
    ensures r.Err? ==> r.error == FunctionsNonSerializableException
    decreases parent, 0, 0
  {
    if m.StringItem? then Ok("\"" + EscapeJson(m.stringValue) + "\"") else Serialize(m)
  }

  /** The members after the opening bracket: the separator, then ", " between members. */
  function SerializeMembers(parent: Item, ms: seq<Item>, separator: string): (r: Result<string>)
    requires forall i :: 0 <= i < |ms| ==> ms[i] < parent
    ensures r.Err? ==> r.error == FunctionsNonSerializableException
    decreases parent, 0, |ms|
  {
    if ms == [] then Ok("")
    else
      var first :- SerializeMember(parent, ms[0]);
      var rest :- SerializeMembers(parent, ms[1..], ", ");
      Ok(separator + first + rest)
  }

  function SerializeEntries(parent: Item, es: seq<Entry>, separator: string): (r: Result<string>)
    requires forall i :: 0 <= i < |es| ==> es[i].value < parent
    ensures r.Err? ==> r.error == FunctionsNonSerializableException
    decreases parent, 0, |es|
  {
    if es == [] then Ok("")
    else
      var value :- SerializeMember(parent, es[0].value);
      var rest :- SerializeEntries(parent, es[1..], ", ");
      Ok(separator + "\"" + EscapeJson(es[0].key) + "\" : " + value + rest)
  }

  /** A dateTime serializes to its text, without the trailing 'Z' when its zone is UTC. */
  function SerializeDateTime(d: DateTime): (r: Result<string>)
    ensures r.Ok?
    ensures d.zone != Utc ==> r.value == d.text
    ensures d.zone == Utc ==> r.value + [d.text[|d.text| - 1]] == d.text
  {
    if d.zone == Utc then Ok(d.text[..|d.text| - 1]) else Ok(d.text)
  }

  /** Serialization fails exactly when a function item hides inside the item. */
  lemma {:induction false} SerializeFailsIffFunction(item: Item)
    ensures Serialize(item).Err? <==> ContainsFunction(item)
    decreases item, 1
  {
    match item
    case ArrayValue(ms) => SerializeMembersFailsIffFunction(item, ms, " ");
    case ObjectValue(es) => SerializeEntriesFailsIffFunction(item, es, " ");
    case _ =>
  }

  lemma {:induction false} SerializeMembersFailsIffFunction(parent: Item, ms: seq<Item>, separator: string)
    requires forall i :: 0 <= i < |ms| ==> ms[i] < parent
    ensures SerializeMembers(parent, ms, separator).Err? <==> exists i :: 0 <= i < |ms| && ContainsFunction(ms[i])
    decreases parent, 0, |ms|
  {
    if ms != [] {
      SerializeFailsIffFunction(ms[0]);
      SerializeMembersFailsIffFunction(parent, ms[1..], ", ");
      if exists i :: 0 <= i < |ms| && ContainsFunction(ms[i]) {
        var i :| 0 <= i < |ms| && ContainsFunction(ms[i]);
        if i > 0 { assert ms[1..][i - 1] == ms[i]; }
      }
    }
  }

  lemma {:induction false} SerializeEntriesFailsIffFunction(parent: Item, es: seq<Entry>, separator: string)
    requires forall i :: 0 <= i < |es| ==> es[i].value < parent
    ensures SerializeEntries(parent, es, separator).Err? <==> exists i :: 0 <= i < |es| && ContainsFunction(es[i].value)
    decreases parent, 0, |es|
  {
    if es != [] {
      SerializeFailsIffFunction(es[0].value);
      SerializeEntriesFailsIffFunction(parent, es[1..], ", ");
      if exists i :: 0 <= i < |es| && ContainsFunction(es[i].value) {
        var i :| 0 <= i < |es| && ContainsFunction(es[i].value);
        if i > 0 { assert es[1..][i - 1] == es[i]; }
      }
    }
  }

  lemma SerializeEmptyArray()
    ensures Serialize(ArrayValue([])) == Ok("[ ]")
  {
    assert SerializeMembers(ArrayValue([]), [], " ") == Ok("");
    assert "[" + "" + " ]" == "[ ]";
  }

  // ---------------------------------------------------------------------
  // JSON string escaping (commons-text escapeJson)

  function HexDigit(d: nat): (c: char)
    requires d < 16
    ensures HexValue(c) == Some(d)
  {
    if d < 10 then (d + '0' as int) as char else (d - 10 + 'A' as int) as char
  }

  /** Two upper-case hexadecimal digits, most significant first. */
  function Hex2(n: nat): (s: string)
    requires n < 0x100
    ensures |s| == 2 && ParseHex2(s) == Some(n)
  {
    [HexDigit(n / 16), HexDigit(n % 16)]
  }

  /** Four upper-case hexadecimal digits, most significant first. */
  function Hex4(n: nat): (s: string)
    requires n < 0x1_0000
    ensures |s| == 4
  {
    Hex2(n / 0x100) + Hex2(n % 0x100)
  }

  function UnicodeEscape(n: nat): (s: string)
    requires n < 0x1_0000
    ensures |s| == 6
  {
    "\\u" + Hex4(n)
  }

  /**
   * One character escaped: quote, backslash and slash get a backslash; the
   * five control characters with a short form use it; any other character
   * below 32 or above 127 becomes \uXXXX, as a surrogate pair above U+FFFF.
   */
  function EscapeChar(c: char): string
  {
    if c in ShortEscapeOf() then ['\\', ShortEscapeOf()[c]]
    else if c as int < 32 || (0x7F < c as int < 0x1_0000) then UnicodeEscape(c as int)
    else if c as int >= 0x1_0000 then UnicodeEscape(HighSurrogate(c)) + UnicodeEscape(LowSurrogate(c))
    else [c]
  }

  /** The UTF-16 surrogate pair of a character above U+FFFF. */
  function HighSurrogate(c: char): (n: nat)
    requires c as int >= 0x1_0000
    ensures 0xD800 <= n < 0xDC00
  {
    0xD800 + (c as int - 0x1_0000) / 0x400
  }

  function LowSurrogate(c: char): (n: nat)
    requires c as int >= 0x1_0000
    ensures 0xDC00 <= n < 0xE000
  {
    0xDC00 + (c as int - 0x1_0000) % 0x400
  }

  /** The characters with a two-character escape, and the letter that follows the backslash. */
  function ShortEscapeOf(): map<char, char>
  {
    map['"' := '"', '\\' := '\\', '/' := '/', '\U{8}' := 'b', '\n' := 'n', '\t' := 't', '\U{C}' := 'f', '\r' := 'r']
  }

  function EscapeJson(s: string): string
  {
    if s == [] then [] else EscapeChar(s[0]) + EscapeJson(s[1..])
  }

  function HexValue(c: char): (r: Option<nat>)
    ensures r.Some? ==> r.value < 16
  {
    if '0' <= c <= '9' then Some((c - '0') as nat)
    else if 'A' <= c <= 'F' then Some((c - 'A') as nat + 10)
    else None
  }

  function ParseHex2(s: string): (r: Option<nat>)
    requires |s| == 2
    ensures r.Some? ==> r.value < 0x100
  {
    var a := HexValue(s[0]);
    var b := HexValue(s[1]);
    if a.None? || b.None? then None else Some(a.value * 16 + b.value)
  }

  function ParseHex4(s: string): (r: Option<nat>)
    requires |s| == 4
    ensures r.Some? ==> r.value < 0x1_0000
  {
    var a := ParseHex2(s[..2]);
    var b := ParseHex2(s[2..]);
    if a.None? || b.None? then None else Some(a.value * 0x100 + b.value)
  }

  lemma ParseHex4OfHex4(n: nat)
    requires n < 0x1_0000
    ensures ParseHex4(Hex4(n)) == Some(n)
  {
    var s := Hex4(n);
    assert s[..2] == Hex2(n / 0x100) && s[2..] == Hex2(n % 0x100);
  }

  /** The reading a JSON parser gives an escaped string: the inverse of EscapeJson. */
  function UnescapeJson(s: string): Option<string>
    decreases |s|
  {
    if s == [] then Some([])
    else if s[0] != '\\' then
      var rest := UnescapeJson(s[1..]);
      if rest.None? then None else Some([s[0]] + rest.value)
    else if |s| < 2 then None
    else if s[1] in ShortEscapes() then
      var rest := UnescapeJson(s[2..]);
      if rest.None? then None else Some([ShortEscapes()[s[1]]] + rest.value)
    else if s[1] != 'u' || |s| < 6 then None
    else
      var high := ParseHex4(s[2..6]);
      if high.None? then None
      else if 0xD800 <= high.value < 0xDC00 then
        if |s| < 12 || s[6..8] != "\\u" then None
        else
          var low := ParseHex4(s[8..12]);
          if low.None? || !(0xDC00 <= low.value < 0xE000) then None
          else
            var rest := UnescapeJson(s[12..]);
            if rest.None? then None
            else Some([(0x1_0000 + (high.value - 0xD800) * 0x400 + (low.value - 0xDC00)) as char] + rest.value)
      else if 0xDC00 <= high.value < 0xE000 then None
      else
        var rest := UnescapeJson(s[6..]);
        if rest.None? then None else Some([high.value as char] + rest.value)
  }

  /** The letter after a backslash, and the character it stands for. */
  function ShortEscapes(): (m: map<char, char>)
    ensures forall c :: c in ShortEscapeOf() ==> ShortEscapeOf()[c] in m && m[ShortEscapeOf()[c]] == c
    ensures 'u' !in m
  {
    map['"' := '"', '\\' := '\\', '/' := '/', 'b' := '\U{8}', 'n' := '\n', 't' := '\t', 'f' := '\U{C}', 'r' := '\r']
  }

  /** What reading a character's escape followed by more text gives. */
  function AfterChar(c: char, rest: Option<string>): Option<string>
  {
    if rest.None? then None else Some([c] + rest.value)
  }

  lemma UnescapeShortEscape(c: char, rest: string)
    requires c in ShortEscapeOf()
    ensures UnescapeJson(EscapeChar(c) + rest) == AfterChar(c, UnescapeJson(rest))
  {
    var s := EscapeChar(c) + rest;
    assert s[0] == '\\' && s[1] == ShortEscapeOf()[c] && s[2..] == rest;
  }

  lemma UnescapeBmpEscape(c: char, rest: string)
    requires c !in ShortEscapeOf() && (c as int < 32 || 0x7F < c as int < 0x1_0000)
    ensures UnescapeJson(EscapeChar(c) + rest) == AfterChar(c, UnescapeJson(rest))
  {
    var s := EscapeChar(c) + rest;
    ParseHex4OfHex4(c as int);
    assert s[0] == '\\' && s[1] == 'u' && s[2..6] == Hex4(c as int) && s[6..] == rest;
  }

  lemma UnescapeSurrogateEscape(c: char, rest: string)
    requires c as int >= 0x1_0000
    ensures UnescapeJson(EscapeChar(c) + rest) == AfterChar(c, UnescapeJson(rest))
  {
    var high := HighSurrogate(c);
    var low := LowSurrogate(c);
    assert c !in ShortEscapeOf();
    assert EscapeChar(c) == UnicodeEscape(high) + UnicodeEscape(low);
    assert 0x1_0000 + (high - 0xD800) * 0x400 + (low - 0xDC00) == c as int;
    UnescapeSurrogatePair(high, low, rest);
  }

  /** Two \\uXXXX escapes forming a surrogate pair read back as the one character they encode. */
  lemma UnescapeSurrogatePair(high: nat, low: nat, rest: string)
    requires 0xD800 <= high < 0xDC00 && 0xDC00 <= low < 0xE000
    requires 0x1_0000 + (high - 0xD800) * 0x400 + (low - 0xDC00) < 0x11_0000
    ensures UnescapeJson(UnicodeEscape(high) + UnicodeEscape(low) + rest)
            == AfterChar((0x1_0000 + (high - 0xD800) * 0x400 + (low - 0xDC00)) as char, UnescapeJson(rest))
  {
    var s := UnicodeEscape(high) + UnicodeEscape(low) + rest;
    ParseHex4OfHex4(high);
    ParseHex4OfHex4(low);
    assert s[0] == '\\' && s[1] == 'u' && s[2..6] == Hex4(high);
    assert s[6..8] == "\\u" && s[8..12] == Hex4(low) && s[12..] == rest;
  }

  lemma UnescapeEscapeChar(c: char, rest: string)
    ensures UnescapeJson(EscapeChar(c) + rest) == AfterChar(c, UnescapeJson(rest))
  {
    if c in ShortEscapeOf() {
      UnescapeShortEscape(c, rest);
    } else if c as int < 32 || (0x7F < c as int < 0x1_0000) {
      UnescapeBmpEscape(c, rest);
    } else if c as int >= 0x1_0000 {
      UnescapeSurrogateEscape(c, rest);
    } else {
      var s := EscapeChar(c) + rest;
      assert s[0] == c && s[1..] == rest;
    }
  }

  /** Escaping is lossless: reading the escaped text back gives the original string. */
  lemma {:induction false} UnescapeEscapeJson(s: string)
    ensures UnescapeJson(EscapeJson(s)) == Some(s)
  {
    if s != [] {
      UnescapeEscapeJson(s[1..]);
      UnescapeEscapeChar(s[0], EscapeJson(s[1..]));
      assert [s[0]] + s[1..] == s;
    }
  }

  /** Escaped text lies in ASCII 32 to 127: no control character below the space, DEL left as it is. */
  lemma {:induction false} EscapeJsonIsAscii(s: string)
    ensures forall i :: 0 <= i < |EscapeJson(s)| ==> 32 <= EscapeJson(s)[i] as int <= 0x7F
  {
    if s != [] {
      EscapeJsonIsAscii(s[1..]);
      var e := EscapeChar(s[0]);
      var rest := EscapeJson(s[1..]);
      EscapeCharIsAscii(s[0]);
      assert EscapeJson(s) == e + rest;
      forall i | 0 <= i < |e + rest|
        ensures 32 <= (e + rest)[i] as int <= 0x7F
      {
        if i >= |e| {
          assert (e + rest)[i] == rest[i - |e|];
        }
      }
    }
  }

  /** The escape of one character lies in ASCII 32 to 127 too. */
  lemma EscapeCharIsAscii(c: char)
    ensures forall i :: 0 <= i < |EscapeChar(c)| ==> 32 <= EscapeChar(c)[i] as int <= 0x7F
  {
    if c in ShortEscapeOf() {
      ShortEscapesArePrintable(c);
      assert EscapeChar(c) == ['\\', ShortEscapeOf()[c]];
    } else if c as int < 32 || (0x7F < c as int < 0x1_0000) {
      UnicodeEscapeIsPrintable(c as int);
      assert EscapeChar(c) == UnicodeEscape(c as int);
    } else if c as int >= 0x1_0000 {
      var high := HighSurrogate(c);
      var low := LowSurrogate(c);
      var a := UnicodeEscape(high);
      var b := UnicodeEscape(low);
      UnicodeEscapeIsPrintable(high);
      UnicodeEscapeIsPrintable(low);
      forall i | 0 <= i < |a + b|
        ensures 32 <= (a + b)[i] as int <= 0x7F
      {
        if i >= |a| {
          assert (a + b)[i] == b[i - |a|];
        }
      }
      assert EscapeChar(c) == a + b;
    } else {
      assert EscapeChar(c) == [c];
    }
  }

  lemma ShortEscapesArePrintable(c: char)
    requires c in ShortEscapeOf()
    ensures 32 <= ShortEscapeOf()[c] as int <= 0x7F
  {
    assert c in {'"', '\\', '/', '\U{8}', '\n', '\t', '\U{C}', '\r'};
  }

  lemma UnicodeEscapeIsPrintable(n: nat)
    requires n < 0x1_0000
    ensures forall i :: 0 <= i < |UnicodeEscape(n)| ==> 32 <= UnicodeEscape(n)[i] as int <= 0x7F
  {
    var h := Hex4(n);
    assert h == [HexDigit(n / 0x100 / 16), HexDigit(n / 0x100 % 16), HexDigit(n % 0x100 / 16), HexDigit(n % 0x100 % 16)];
    assert UnicodeEscape(n) == ['\\', 'u'] + h;
  }

  // ---------------------------------------------------------------------
  // Function items

  /** The variables of a dynamic context, by where their values live. */
  datatype DynamicContext = DynamicContext(
    localVariables: map<Name, seq<Item>>,
    rddVariables: map<Name, RddHandle>,
    dataFrameVariables: map<Name, DataFrameHandle>)

  /** A function value: its identifier, parameters, signature, body and closure. */
  class FunctionItem {
    var identifier: FunctionIdentifier
    var parameterNames: seq<Name>
    var signature: FunctionSignature
    var bodyIterator: IteratorHandle
    var localVariablesInClosure: map<Name, seq<Item>>
    var rddVariablesInClosure: map<Name, RddHandle>
    var dataFrameVariablesInClosure: map<Name, DataFrameHandle>

    /** A new function item captures nothing yet. */
    constructor (identifier: FunctionIdentifier, parameterNames: seq<Name>, signature: FunctionSignature, bodyIterator: IteratorHandle)
      ensures this.identifier == identifier && this.parameterNames == parameterNames
      ensures this.signature == signature && this.bodyIterator == bodyIterator
      ensures localVariablesInClosure == map[] && rddVariablesInClosure == map[] && dataFrameVariablesInClosure == map[]
    {
      this.identifier := identifier;
      this.parameterNames := parameterNames;
      this.signature := signature;
      this.bodyIterator := bodyIterator;
      localVariablesInClosure := map[];
      rddVariablesInClosure := map[];
      dataFrameVariablesInClosure := map[];
    }

    /** A function item built with its closure. */
    constructor WithClosure(identifier: FunctionIdentifier, parameterNames: seq<Name>, signature: FunctionSignature,
                            bodyIterator: IteratorHandle, localVariables: map<Name, seq<Item>>,
                            rddVariables: map<Name, RddHandle>, dataFrameVariables: map<Name, DataFrameHandle>)
      ensures this.identifier == identifier && this.parameterNames == parameterNames
      ensures this.signature == signature && this.bodyIterator == bodyIterator
      ensures localVariablesInClosure == localVariables && rddVariablesInClosure == rddVariables
      ensures dataFrameVariablesInClosure == dataFrameVariables
    {
      this.identifier := identifier;
      this.parameterNames := parameterNames;
      this.signature := signature;
      this.bodyIterator := bodyIterator;
      localVariablesInClosure := localVariables;
      rddVariablesInClosure := rddVariables;
      dataFrameVariablesInClosure := dataFrameVariables;
    }

    /**
     * The constructor from a name and the parameters in declaration order:
     * the arity is the number of parameters, and names and types keep
     * their order.
     */
    constructor FromParameters(name: Name, params: seq<(Name, SequenceType)>, returnType: SequenceType, bodyIterator: IteratorHandle)
      ensures identifier == FunctionIdentifier(Some(name), |params|)
      ensures |parameterNames| == |params| && |signature.parameterTypes| == |params|
      ensures forall i :: 0 <= i < |params| ==> parameterNames[i] == params[i].0 && signature.parameterTypes[i] == params[i].1
      ensures signature.returnType == returnType && this.bodyIterator == bodyIterator
      ensures localVariablesInClosure == map[] && rddVariablesInClosure == map[] && dataFrameVariablesInClosure == map[]
    {
      var names: seq<Name> := [];
      var types: seq<SequenceType> := [];
      var i := 0;
      while i < |params|
        invariant 0 <= i <= |params|
        invariant |names| == i && |types| == i
        invariant forall k :: 0 <= k < i ==> names[k] == params[k].0 && types[k] == params[k].1
      {
        names := names + [params[i].0];
        types := types + [params[i].1];
        i := i + 1;
      }
      identifier := FunctionIdentifier(Some(name), |names|);
      parameterNames := names;
      signature := FunctionSignature(types, returnType);
      this.bodyIterator := bodyIterator;
      localVariablesInClosure := map[];
      rddVariablesInClosure := map[];
      dataFrameVariablesInClosure := map[];
    }

    /** equals: functions cannot be compared, so nothing equals a function item. */
    function Equals(other: Item): (r: bool)
      ensures !r
      ensures r == ItemEquals(FunctionValue(this), other)
    {
      false
    }

    /**
     * hashCode: the identifier's, the parameter-name list's and the
     * signature's hash codes added in 32-bit arithmetic. The three hash
     * functions belong to classes outside this model.
     */
    function HashCode(identifierHash: FunctionIdentifier -> int, namesHash: seq<Name> -> int,
                      signatureHash: FunctionSignature -> int): (h: int)
      reads this
      ensures IsInt32(h)
    {
      WrapInt32(identifierHash(identifier) + namesHash(parameterNames) + signatureHash(signature))
    }

    /**
     * populateClosureFromDynamicContext: every variable of the dynamic
     * context is put into the closure map of its kind, replacing a
     * captured variable of the same name and keeping the others.
     */
    method PopulateClosureFromDynamicContext(context: DynamicContext)
      modifies this
      ensures localVariablesInClosure == old(localVariablesInClosure) + context.localVariables
      ensures rddVariablesInClosure == old(rddVariablesInClosure) + context.rddVariables
      ensures dataFrameVariablesInClosure == old(dataFrameVariablesInClosure) + context.dataFrameVariables
      ensures identifier == old(identifier) && parameterNames == old(parameterNames)
      ensures signature == old(signature) && bodyIterator == old(bodyIterator)
    {
      localVariablesInClosure := PutAll(localVariablesInClosure, context.localVariables);
      rddVariablesInClosure := PutAll(rddVariablesInClosure, context.rddVariables);
      dataFrameVariablesInClosure := PutAll(dataFrameVariablesInClosure, context.dataFrameVariables);
    }
  }

  /** The put loop over a map's entries: each key of source replaces or joins the target's. */
  method PutAll<V>(target: map<Name, V>, source: map<Name, V>) returns (result: map<Name, V>)
    ensures result == target + source
  {
    result := target;
    var remaining := source.Keys;
    while remaining != {}
      invariant remaining <= source.Keys
      invariant result.Keys == target.Keys + (source.Keys - remaining)
      invariant forall k :: k in source.Keys - remaining ==> result[k] == source[k]
      invariant forall k :: k in target.Keys && k !in source.Keys - remaining ==> result[k] == target[k]
      decreases remaining
    {
      var k :| k in remaining;
      result := result[k := source[k]];
      remaining := remaining - {k};
    }
  }

  /** Two function items with the same identifier, parameter names and signature hash alike, whatever their closures. */
  lemma FunctionHashIgnoresClosure(f: FunctionItem, g: FunctionItem, identifierHash: FunctionIdentifier -> int,
                                   namesHash: seq<Name> -> int, signatureHash: FunctionSignature -> int)
    requires f.identifier == g.identifier && f.parameterNames == g.parameterNames && f.signature == g.signature
    ensures f.HashCode(identifierHash, namesHash, signatureHash) == g.HashCode(identifierHash, namesHash, signatureHash)
  {
  }
}
