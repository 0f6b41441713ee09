// The readers that turn input data into items: a JSON value as the jsoniter
// reader presents it, and a row of a Spark DataFrame together with its
// schema.

module JsonItemParser {
  import opened Base
  import opened Items

  // ---------------------------------------------------------------------
  // JSON values

  /**
   * What the reader finds next: a value of one of the JSON kinds (a number
   * as its lexeme), a value of no kind (invalid input), or a value whose
   * reading fails with an I/O error.
   */
  datatype JsonValue =
    | JsonString(text: string)
    | JsonNumber(lexeme: string)
    | JsonBoolean(truth: bool)
    | JsonArray(members: seq<JsonValue>)
    | JsonObject(pairs: seq<JsonPair>)
    | JsonNull
    | JsonInvalid
    | JsonUnreadable

  datatype JsonPair = JsonPair(key: string, value: JsonValue)

  const NotWellFormedMessage: string := "Invalid value found while parsing. JSON is not well-formed!"
  const IoErrorMessage: string := "IO error while parsing. JSON is not well-formed!"

  /**
   * A number: a lexeme with an exponent becomes a double, else one with a
   * decimal point a decimal, else an int parsed as Integer.parseInt does.
   */
  function NumberItem(lexeme: string): (r: Result<Item>)
    ensures ('E' in lexeme || 'e' in lexeme) ==> r == Ok(DoubleItem(lexeme))
    ensures !('E' in lexeme || 'e' in lexeme) && '.' in lexeme ==> r == Ok(DecimalItem(lexeme))
    ensures !('E' in lexeme || 'e' in lexeme || '.' in lexeme)
            ==> (r.Ok? <==> ParseInt(lexeme).Ok?) && (r.Ok? ==> r.value == IntegerItem(ParseInt(lexeme).value))
    ensures r.Err? ==> r.error == NumberFormatException
  {
    if 'E' in lexeme || 'e' in lexeme then Ok(DoubleItem(lexeme))
    else if '.' in lexeme then Ok(DecimalItem(lexeme))
    else
      var i :- ParseInt(lexeme);
      Ok(IntegerItem(i))
  }

  /** The item of a JSON value: members and pairs in reading order. */
  function ItemFromJson(v: JsonValue): (r: Result<Item>)
    decreases v, 1
  {
    match v
    case JsonString(s) => Ok(StringItem(s))
    case JsonNumber(lexeme) => NumberItem(lexeme)
    case JsonBoolean(b) => Ok(BooleanItem(b))
    case JsonArray(members) =>
      var items :- ItemsFromJson(v, members);
      Ok(ArrayValue(items))
    case JsonObject(pairs) =>
      var entries :- EntriesFromJson(v, pairs);
      Ok(ObjectValue(entries))
    case JsonNull => Ok(NullItem)
    case JsonInvalid => Err(RuntimeException(NotWellFormedMessage))
    case JsonUnreadable => Err(RuntimeException(IoErrorMessage))
  }

  function ItemsFromJson(parent: JsonValue, members: seq<JsonValue>): (r: Result<seq<Item>>)
    requires forall i :: 0 <= i < |members| ==> members[i] < parent
    ensures r.Ok? ==> |r.value| == |members|
    decreases parent, 0, |members|
  {
    if members == [] then Ok([])
    else
      var first :- ItemFromJson(members[0]);
      var rest :- ItemsFromJson(parent, members[1..]);
      Ok([first] + rest)
  }

  function EntriesFromJson(parent: JsonValue, pairs: seq<JsonPair>): (r: Result<seq<Entry>>)
    requires forall i :: 0 <= i < |pairs| ==> pairs[i].value < parent
    ensures r.Ok? ==> |r.value| == |pairs|
    decreases parent, 0, |pairs|
  {
    if pairs == [] then Ok([])
    else
      var value :- ItemFromJson(pairs[0].value);
      var rest :- EntriesFromJson(parent, pairs[1..]);
      Ok([Entry(pairs[0].key, value)] + rest)
  }

  /** A list read so far, followed by what the rest of the input gives. */
  function Prefixed<T>(done: seq<T>, rest: Result<seq<T>>): (r: Result<seq<T>>)
    ensures done == [] ==> r == rest
  {
    if rest.Err? then rest
    else
      assert done == [] ==> done + rest.value == rest.value;
      Ok(done + rest.value)
  }

  /** getItemFromObject: the reader's loops over array members and object pairs. */
  method GetItemFromObject(v: JsonValue) returns (r: Result<Item>)
    ensures r == ItemFromJson(v)
    decreases v
  {
    match v {
      case JsonArray(members) =>
        var values: seq<Item> := [];
        var i := 0;
        assert members[i..] == members;
        while i < |members|
          invariant 0 <= i <= |members|
          invariant Prefixed(values, ItemsFromJson(v, members[i..])) == ItemsFromJson(v, members)
        {
          assert members[i..][1..] == members[i + 1..];
          var item := GetItemFromObject(members[i]);
          if item.Err? {
            return Err(item.error);
          }
          ghost var rest := ItemsFromJson(v, members[i + 1..]);
          if rest.Ok? {
            assert (values + [item.value]) + rest.value == values + ([item.value] + rest.value);
          }
          values := values + [item.value];
          i := i + 1;
        }
        assert members[i..] == [];
        assert values + [] == values;
        return Ok(ArrayValue(values));
      case JsonObject(pairs) =>
        var entries: seq<Entry> := [];
        var i := 0;
        assert pairs[i..] == pairs;
        while i < |pairs|
          invariant 0 <= i <= |pairs|
          invariant Prefixed(entries, EntriesFromJson(v, pairs[i..])) == EntriesFromJson(v, pairs)
        {
          assert pairs[i..][1..] == pairs[i + 1..];
          var value := GetItemFromObject(pairs[i].value);
          if value.Err? {
            return Err(value.error);
          }
          ghost var rest := EntriesFromJson(v, pairs[i + 1..]);
          var entry := Entry(pairs[i].key, value.value);
          if rest.Ok? {
            assert (entries + [entry]) + rest.value == entries + ([entry] + rest.value);
          }
          entries := entries + [entry];
          i := i + 1;
        }
        assert pairs[i..] == [];
        assert entries + [] == entries;
        return Ok(ObjectValue(entries));
      case _ =>
        return ItemFromJson(v);
    }
  }

  /** Array members keep their order: the i-th member gives the i-th item. */
  lemma {:induction false} ArrayMembersInOrder(parent: JsonValue, members: seq<JsonValue>, i: nat)
    requires forall j :: 0 <= j < |members| ==> members[j] < parent
    requires ItemsFromJson(parent, members).Ok? && i < |members|
    ensures ItemFromJson(members[i]) == Ok(ItemsFromJson(parent, members).value[i])
    decreases |members|
  {
    if i > 0 {
      ArrayMembersInOrder(parent, members[1..], i - 1);
    }
  }

  /** Object pairs keep their order, keys and values. */
  lemma {:induction false} ObjectPairsInOrder(parent: JsonValue, pairs: seq<JsonPair>, i: nat)
    requires forall j :: 0 <= j < |pairs| ==> pairs[j].value < parent
    requires EntriesFromJson(parent, pairs).Ok? && i < |pairs|
    ensures EntriesFromJson(parent, pairs).value[i].key == pairs[i].key
    ensures ItemFromJson(pairs[i].value) == Ok(EntriesFromJson(parent, pairs).value[i].value)
    decreases |pairs|
  {
    if i > 0 {
      ObjectPairsInOrder(parent, pairs[1..], i - 1);
    }
  }

  /** An integer lexeme beyond the int range is a NumberFormatException. */
  lemma IntegerBeyondIntRangeFails(lexeme: string)
    requires |lexeme| > 0 && AllDigits(lexeme) && DigitsValue(lexeme) > INT_MAX
    ensures NumberItem(lexeme) == Err(NumberFormatException)
  {
    assert !IsDigit('E') && !IsDigit('e') && !IsDigit('.') && !IsDigit('-') && !IsDigit('+');
  }

  // ---------------------------------------------------------------------
  // The inverse: items written as JSON values

  /** The characters String.valueOf(int) writes are digits and a leading minus. */
  lemma IntToStringCharacters(i: int)
    ensures forall k :: 0 <= k < |IntToString(i)| ==> IsDigit(IntToString(i)[k]) || IntToString(i)[k] == '-'
  {
    if i < 0 {
      var d := NatToDigits(-i);
      assert forall k :: 1 <= k < |IntToString(i)| ==> IntToString(i)[k] == d[k - 1];
    }
  }

  /** Items a JSON text can hold, with numbers written as the reader classifies them. */
  predicate JsonRepresentable(item: Item)
  {
    match item
    case StringItem(_) => true
    case IntegerItem(i) => IsInt32(i)
    case DecimalItem(lexeme) => '.' in lexeme && 'E' !in lexeme && 'e' !in lexeme
    case DoubleItem(lexeme) => 'E' in lexeme || 'e' in lexeme
    case BooleanItem(_) => true
    case NullItem => true
    case ArrayValue(members) => forall i :: 0 <= i < |members| ==> JsonRepresentable(members[i])
    case ObjectValue(entries) => forall i :: 0 <= i < |entries| ==> JsonRepresentable(entries[i].value)
    case DateTimeValue(_) => false
    case FunctionValue(_) => false
  }

  /** The JSON value an item is written as. */
  function JsonOf(item: Item): JsonValue
    requires JsonRepresentable(item)
    decreases item, 1
  {
    match item
    case StringItem(s) => JsonString(s)
    case IntegerItem(i) => JsonNumber(IntToString(i))
    case DecimalItem(lexeme) => JsonNumber(lexeme)
    case DoubleItem(lexeme) => JsonNumber(lexeme)
    case BooleanItem(b) => JsonBoolean(b)
    case NullItem => JsonNull
    case ArrayValue(members) => JsonArray(JsonOfMembers(item, members))
    case ObjectValue(entries) => JsonObject(JsonOfEntries(item, entries))
  }

  function JsonOfMembers(parent: Item, members: seq<Item>): (r: seq<JsonValue>)
    requires forall i :: 0 <= i < |members| ==> members[i] < parent && JsonRepresentable(members[i])
    ensures |r| == |members|
    ensures forall i :: 0 <= i < |r| ==> r[i] == JsonOf(members[i])
    decreases parent, 0, |members|
  {
    if members == [] then [] else [JsonOf(members[0])] + JsonOfMembers(parent, members[1..])
  }

  function JsonOfEntries(parent: Item, entries: seq<Entry>): (r: seq<JsonPair>)
    requires forall i :: 0 <= i < |entries| ==> entries[i].value < parent && JsonRepresentable(entries[i].value)
    ensures |r| == |entries|
    ensures forall i :: 0 <= i < |r| ==> r[i] == JsonPair(entries[i].key, JsonOf(entries[i].value))
    decreases parent, 0, |entries|
  {
    if entries == [] then [] else [JsonPair(entries[0].key, JsonOf(entries[0].value))] + JsonOfEntries(parent, entries[1..])
  }

  /** Reading back what an item is written as gives the item. */
  lemma {:induction false} ReadWrittenItem(item: Item)
    requires JsonRepresentable(item)
    ensures ItemFromJson(JsonOf(item)) == Ok(item)
    decreases item, 1
  {
    match item
    case IntegerItem(i) =>
      IntToStringCharacters(i);
      assert !IsDigit('E') && !IsDigit('e') && !IsDigit('.');
      ParseIntOfIntToString(i);
    case ArrayValue(members) =>
      ReadWrittenMembers(item, members, JsonOf(item));
    case ObjectValue(entries) =>
      ReadWrittenEntries(item, entries, JsonOf(item));
    case _ =>
  }

  lemma {:induction false} ReadWrittenMembers(parent: Item, members: seq<Item>, written: JsonValue)
    requires forall i :: 0 <= i < |members| ==> members[i] < parent && JsonRepresentable(members[i])
    requires forall i :: 0 <= i < |members| ==> JsonOf(members[i]) < written
    ensures ItemsFromJson(written, JsonOfMembers(parent, members)) == Ok(members)
    decreases parent, 0, |members|
  {
    if members != [] {
      var js := JsonOfMembers(parent, members);
      ReadWrittenItem(members[0]);
      ReadWrittenMembers(parent, members[1..], written);
      assert js[1..] == JsonOfMembers(parent, members[1..]);
      assert [members[0]] + members[1..] == members;
    }
  }

  lemma {:induction false} ReadWrittenEntries(parent: Item, entries: seq<Entry>, written: JsonValue)
    requires forall i :: 0 <= i < |entries| ==> entries[i].value < parent && JsonRepresentable(entries[i].value)
    requires forall i :: 0 <= i < |entries| ==> JsonOf(entries[i].value) < written
    ensures EntriesFromJson(written, JsonOfEntries(parent, entries)) == Ok(entries)
    decreases parent, 0, |entries|
  {
    if entries != [] {
      var js := JsonOfEntries(parent, entries);
      ReadWrittenItem(entries[0].value);
      ReadWrittenEntries(parent, entries[1..], written);
      assert js[1..] == JsonOfEntries(parent, entries[1..]);
      assert [entries[0]] + entries[1..] == entries;
    }
  }

  // ---------------------------------------------------------------------
  // Rows

  /** The column types the reader knows, and any other type with its JSON text. */
  datatype DataType =
    | StringType
    | BooleanType
    | DoubleType
    | IntegerType
    | FloatType
    | LongType
    | NullType
    | ShortType
    | TimestampType
    | StructType
    | ArrayType(elementType: DataType)
    | UnsupportedType(json: string)

  datatype StructField = StructField(name: string, dataType: DataType)

  /**
   * A stored value: null, a value of a column type (doubles and floats as
   * the lexeme of their double value), a nested row, or a list.
   */
  datatype Cell =
    | NullCell
    | StringCell(stringValue: string)
    | BooleanCell(booleanValue: bool)
    | DoubleCell(doubleLexeme: string)
    | IntegerCell(intValue: int)
    | FloatCell(floatLexeme: string)
    | LongCell(longValue: int)
    | ShortCell(shortValue: int)
    | TimestampCell(timestamp: DateTime)
    | StructCell(row: Row)
    | ListCell(elements: seq<Cell>)

  /** A row with its own schema. */
  datatype Row = Row(fields: seq<StructField>, cells: seq<Cell>)

  const UnsupportedTypeMessage: string := "DataFrame type unsupported: "

  /** A value read as the wrong type: a null is unboxed, anything else is cast. */
  function Mismatch(cell: Cell): Exception
  {
    if cell.NullCell? then NullPointerException else ClassCastException
  }

  /**
   * addValue: the item of a cell of the given type. A null cell of a row is
   * the null item whatever its type; a list element is not checked for
   * null, so a null element of most types is dereferenced.
   */
  function CellItem(cell: Cell, t: DataType, inRow: bool): (r: Result<Item>)
    decreases cell, 1
  {
    if inRow && cell.NullCell? then Ok(NullItem)
    else
      match t
      case StringType => if cell.StringCell? then Ok(StringItem(cell.stringValue)) else Err(Mismatch(cell))
      case BooleanType => if cell.BooleanCell? then Ok(BooleanItem(cell.booleanValue)) else Err(Mismatch(cell))
      case DoubleType => if cell.DoubleCell? then Ok(DoubleItem(cell.doubleLexeme)) else Err(Mismatch(cell))
      case IntegerType => if cell.IntegerCell? then Ok(IntegerItem(cell.intValue)) else Err(Mismatch(cell))
      case FloatType => if cell.FloatCell? then Ok(DoubleItem(cell.floatLexeme)) else Err(Mismatch(cell))
      case LongType => if cell.LongCell? then Ok(DecimalItem(IntToString(cell.longValue))) else Err(Mismatch(cell))
      case NullType => Ok(NullItem)
      case ShortType => if cell.ShortCell? then Ok(IntegerItem(cell.shortValue)) else Err(Mismatch(cell))
      case TimestampType => if cell.TimestampCell? then Ok(DateTimeValue(cell.timestamp)) else Err(Mismatch(cell))
      case StructType => if cell.StructCell? then RowItem(cell.row) else Err(Mismatch(cell))
      case ArrayType(elementType) =>
        if cell.ListCell? then
          var members :- ElementItems(cell, cell.elements, elementType);
          Ok(ArrayValue(members))
        else Err(Mismatch(cell))
      case UnsupportedType(json) => Err(RuntimeException(UnsupportedTypeMessage + json))
  }

  function ElementItems(parent: Cell, elements: seq<Cell>, elementType: DataType): (r: Result<seq<Item>>)
    requires forall i :: 0 <= i < |elements| ==> elements[i] < parent
    ensures r.Ok? ==> |r.value| == |elements|
    decreases parent, 0, |elements|
  {
    if elements == [] then Ok([])
    else
      var first :- CellItem(elements[0], elementType, false);
      var rest :- ElementItems(parent, elements[1..], elementType);
      Ok([first] + rest)
  }

  /** getItemFromRow: an object keyed by the schema's field names, in schema order. */
  function RowItem(row: Row): (r: Result<Item>)
    decreases row, 1
  {
    var entries :- RowEntries(row, 0);
    Ok(ObjectValue(entries))
  }

  /** The entries of the fields from the i-th on; a missing cell is out of bounds. */
  function RowEntries(row: Row, i: nat): (r: Result<seq<Entry>>)
    ensures r.Ok? ==> |r.value| == |row.fields| - i || (i > |row.fields| && r.value == [])
    decreases row, 0, |row.fields| - i
  {
    if i >= |row.fields| then Ok([])
    else if i >= |row.cells| then Err(IndexOutOfBoundsException)
    else
      var value :- CellItem(row.cells[i], row.fields[i].dataType, true);
      var rest :- RowEntries(row, i + 1);
      Ok([Entry(row.fields[i].name, value)] + rest)
  }

  /** getItemFromRow's loop over the fields. */
  method GetItemFromRow(row: Row) returns (r: Result<Item>)
    ensures r == RowItem(row)
    decreases row, 2
  {
    var entries: seq<Entry> := [];
    var i := 0;
    while i < |row.fields|
      invariant 0 <= i <= |row.fields|
      invariant Prefixed(entries, RowEntries(row, i)) == RowEntries(row, 0)
    {
      if i >= |row.cells| {
        return Err(IndexOutOfBoundsException);
      }
      var value := AddValue(row.cells[i], row.fields[i].dataType, true);
      if value.Err? {
        return Err(value.error);
      }
      ghost var rest := RowEntries(row, i + 1);
      var entry := Entry(row.fields[i].name, value.value);
      if rest.Ok? {
        assert (entries + [entry]) + rest.value == entries + ([entry] + rest.value);
      }
      entries := entries + [entry];
      i := i + 1;
    }
    assert entries + [] == entries;
    return Ok(ObjectValue(entries));
  }

  /** addValue: a list is read element by element. */
  method AddValue(cell: Cell, t: DataType, inRow: bool) returns (r: Result<Item>)
    ensures r == CellItem(cell, t, inRow)
    decreases cell, 1
  {
    if inRow && cell.NullCell? {
      return Ok(NullItem);
    }
    match t {
      case StructType =>
        if !cell.StructCell? {
          return Err(Mismatch(cell));
        }
        r := GetItemFromRow(cell.row);
      case ArrayType(elementType) =>
        if !cell.ListCell? {
          return Err(Mismatch(cell));
        }
        var members := AddElements(cell, cell.elements, elementType);
        if members.Err? {
          return Err(members.error);
        }
        return Ok(ArrayValue(members.value));
      case _ =>
        return CellItem(cell, t, inRow);
    }
  }

  /** addValue's loop over the elements of a list, read without the row's null check. */
  method AddElements(parent: Cell, elements: seq<Cell>, elementType: DataType) returns (r: Result<seq<Item>>)
    requires forall i :: 0 <= i < |elements| ==> elements[i] < parent
    ensures r == ElementItems(parent, elements, elementType)
    decreases parent, 0
  {
    var members: seq<Item> := [];
    var j := 0;
    assert elements[j..] == elements;
    while j < |elements|
      invariant 0 <= j <= |elements|
      invariant Prefixed(members, ElementItems(parent, elements[j..], elementType))
                == ElementItems(parent, elements, elementType)
    {
      var member := AddValue(elements[j], elementType, false);
      ElementItemsStep(parent, elements, elementType, j, members);
      if member.Err? {
        return Err(member.error);
      }
      members := members + [member.value];
      j := j + 1;
    }
    assert elements[j..] == [];
    assert members + [] == members;
    return Ok(members);
  }

  /** One element read: its item is appended, or its error is the list's. */
  lemma ElementItemsStep(parent: Cell, elements: seq<Cell>, elementType: DataType, j: nat, members: seq<Item>)
    requires forall i :: 0 <= i < |elements| ==> elements[i] < parent
    requires j < |elements|
    ensures CellItem(elements[j], elementType, false).Err? ==>
              Prefixed(members, ElementItems(parent, elements[j..], elementType)) == Err(CellItem(elements[j], elementType, false).error)
    ensures CellItem(elements[j], elementType, false).Ok? ==>
              Prefixed(members, ElementItems(parent, elements[j..], elementType))
              == Prefixed(members + [CellItem(elements[j], elementType, false).value], ElementItems(parent, elements[j + 1..], elementType))
  {
    assert elements[j..][0] == elements[j];
    assert elements[j..][1..] == elements[j + 1..];
    var rest := ElementItems(parent, elements[j + 1..], elementType);
    if CellItem(elements[j], elementType, false).Ok? && rest.Ok? {
      var m := CellItem(elements[j], elementType, false).value;
      assert (members + [m]) + rest.value == members + ([m] + rest.value);
    }
  }

  /** The keys of a row's object are its field names, in schema order. */
  lemma {:induction false} RowKeysAreFieldNames(row: Row, i: nat)
    requires RowEntries(row, i).Ok? && i <= |row.fields|
    ensures forall k :: 0 <= k < |RowEntries(row, i).value| ==> RowEntries(row, i).value[k].key == row.fields[i + k].name
    decreases |row.fields| - i
  {
    if i < |row.fields| {
      RowKeysAreFieldNames(row, i + 1);
    }
  }

  /** A null cell of a row is the null item, whatever the declared type. */
  lemma NullCellIsNull(t: DataType)
    ensures CellItem(NullCell, t, true) == Ok(NullItem)
  {
  }

  /** A null list element is the null item only when the element type is the null type. */
  lemma NullElementIsDereferenced(t: DataType)
    requires !t.NullType? && !t.UnsupportedType?
    ensures CellItem(NullCell, t, false) == Err(NullPointerException)
  {
  }

  /** A present value of an unknown type is a RuntimeException naming the type. */
  lemma UnsupportedTypeFails(cell: Cell, json: string, inRow: bool)
    requires !(inRow && cell.NullCell?)
    ensures CellItem(cell, UnsupportedType(json), inRow) == Err(RuntimeException(UnsupportedTypeMessage + json))
  {
  }

  /** Longs become decimals, floats doubles, shorts integers. */
  lemma ColumnKinds(v: int, lexeme: string)
    ensures CellItem(LongCell(v), LongType, true) == Ok(DecimalItem(IntToString(v)))
    ensures CellItem(FloatCell(lexeme), FloatType, true) == Ok(DoubleItem(lexeme))
    ensures CellItem(ShortCell(v), ShortType, true) == Ok(IntegerItem(v))
  {
  }
}
