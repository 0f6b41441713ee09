# A verified model of the core of Rumble

Rumble is a JSONiq engine that runs queries over large JSON collections,
either locally or on Apache Spark. This project models its core in Dafny
and proves properties of the model:

- **Static scope resolution** (`StaticContexts`, `StaticContextVisitor`, `NodeVisitor`, `Expressions`).
  The compiler pass checks that every variable reference is declared. It
  gives each variable its type and storage mode, and it records the
  execution modes of user-defined function calls.
- **Execution-mode composition** (`ExecutionModes`). This covers the
  highest execution mode of comma, conditional and switch expressions.
- **The local for-clause tuple iterator** (`ForClauses`). The model covers
  the tuples the clause outputs, its open, next, reset and close, and its
  bound variables, dependencies and projection. It also covers the choice
  of distributed plan, with the "job within a job" refusals.
- **Function items and dynamic function calls** (`Items`, `DynamicFunctionCalls`).
- **The builtin function catalogue** (`BuiltinFunctionCatalogue`). Every
  builtin function has a definition, and a table is keyed by name and
  arity.
- **Array items** (`ArrayItems`): append, lookup, equality, hash code and serialization.
- **String, sequence and object builtins** (`StringFunctions`, `SequenceFunctions`, `LocalFunctionCalls`).
  These are translate, substring, concat, `||`, `and`, exists, flatten
  and remove-keys, together with the single-result iterator protocol they
  share.
- **The command-line configuration** (`RuntimeConfiguration`). Arguments
  are read as `--key value` pairs, and typed getters supply defaults.
- **The JSON and Spark-row item decoder** (`JsonItemParser`).
- **The dateTime lexical validator and dateTime items** (`DateTimeItems`).
  The validator follows the dateTime lexical space of section 3.3.7 of W3C
  XML Schema Definition Language 1.1 Part 2.

`Base` holds the Option and Result types, the exceptions, and Java's int
arithmetic and parsing. `Names` holds names, function identifiers and
sequence types.

The modelling follows a few rules:

- Code that mutates objects is modelled as classes: array items, iterators,
  the catalogue and the configuration. Each method's contract states the new
  state, usually through a specification function: the table a group of puts
  leaves, the items an iterator has still to return, the list of an array.
- Pure code is modelled as datatypes and functions with lemmas.
- Java `null` is modelled as `None`.
- Thrown exceptions are modelled as `Err` values that carry the exception
  kind and message.
- Java int arithmetic wraps modulo 2^32, and the model states this
  explicitly.

## Model

| member | source | states |
|---|---|---|
| ArrayItems.ArrayItem.Empty | src/main/java/org/rumbledb/items/ArrayItem.java:38-41 | a new array item has no members |
| ArrayItems.ArrayItem.constructor | src/main/java/org/rumbledb/items/ArrayItem.java:43-46 | the array item holds exactly the given members |
| ArrayItems.ArrayItem.Append | src/main/java/org/rumbledb/items/ArrayItem.java:48-50 | append adds the item at the end and leaves the earlier members unchanged |
| ArrayItems.ArrayItem.PutItem | src/main/java/org/rumbledb/items/ArrayItem.java:62-65 | putItem adds the value at the end; the size grows by one and the new last member is the value |
| ArrayItems.ArrayItem.GetItemAt | src/main/java/org/rumbledb/items/ArrayItem.java:57-60 | member i exists exactly when 0 <= i < size; an index outside that range is an IndexOutOfBoundsException |
| ArrayItems.ArrayItem.GetSize | src/main/java/org/rumbledb/items/ArrayItem.java:72-75 | the size is the number of members |
| ArrayItems.ArrayItem.Equals | src/main/java/org/rumbledb/items/ArrayItem.java:116-133 | the loop answers true exactly when the other item is an array of the same size whose members are pairwise equal (item equality) |
| ArrayItems.ArrayItem.HashCode | src/main/java/org/rumbledb/items/ArrayItem.java:135-142 | the loop's 32-bit sum (size plus each member's hash code) equals the item-level hash code and is a Java int |
| ArrayItems.ArrayItem.Serialize | src/main/java/org/rumbledb/items/ArrayItem.java:82-103 | the loop's text equals the item-level serialization: "[", each member after " " then ", ", strings quoted and escaped, then " ]"; a function member makes it fail |
| ArrayItems.HashStep | src/main/java/org/rumbledb/items/ArrayItem.java:138-140 | adding one member's hash code in 32-bit arithmetic extends the hash sum by exactly that member |
| ArrayItems.WrapInt32Add | src/main/java/org/rumbledb/items/ArrayItem.java:136-141 | wrapping after each addition gives the same int as one addition wrapped at the end |
| ArrayItems.SerializeArray | src/main/java/org/rumbledb/items/ArrayItem.java:84-102 | an array's text is "[" + its members' text + " ]", and it fails exactly when its members' text fails |
| ArrayItems.MemberText | src/main/java/org/rumbledb/items/ArrayItem.java:91-98 | one member contributes its escaped text between quotes when it is a string and its serialization otherwise |
| ArrayItems.SerializeStep | src/main/java/org/rumbledb/items/ArrayItem.java:88-99 | one more loop iteration extends the text built so far by the member's separator and text |
| ArrayItems.SerializeMembersExtend | src/main/java/org/rumbledb/items/ArrayItem.java:88-99 | serializing one more member appends " " (first member) or ", " and the member's text |
| ArrayItems.SerializeMembersPrefixFails | src/main/java/org/rumbledb/items/ArrayItem.java:88-99 | a member that cannot be serialized makes the whole array fail with that member's error |
| Items.FunctionIsTypeOf | src/main/java/org/rumbledb/items/FunctionItem.java:170-173 | a function item is of type t exactly when t is function or item |
| Items.ArrayIsTypeOf | src/main/java/org/rumbledb/items/ArrayItem.java:77-80 | an array item is of type t exactly when t is array or item |
| Items.EffectiveBooleanValue | src/main/java/org/rumbledb/items/FunctionItem.java:160-163 | the effective boolean value of a function item or a dateTime item is false |
| Items.ItemEqualsReflexive | src/main/java/org/rumbledb/items/FunctionItem.java:154-158 | because a function item equals nothing, an item equals itself exactly when no function item is inside it |
| Items.ItemEqualsSymmetric | src/main/java/org/rumbledb/items/ArrayItem.java:116-133 | array equality (same size, pairwise equal members) is symmetric |
| Items.HashCode | src/main/java/org/rumbledb/items/ArrayItem.java:135-142 | an item's hash code is always a Java int |
| Items.EqualItemsHaveEqualHashCodes | src/main/java/org/rumbledb/items/ArrayItem.java:116-142 | equal arrays have equal hash codes, given that equal non-array items do |
| Items.MemberHashSumsAgree | src/main/java/org/rumbledb/items/ArrayItem.java:137-140 | pairwise equal member lists give the same hash sum |
| Items.Serialize | src/main/java/org/rumbledb/items/FunctionItem.java:180-183 | serializing a function item is a FunctionsNonSerializableException, which is the only error; a string item serializes to its value |
| Items.SerializeMember | src/main/java/org/rumbledb/items/ArrayItem.java:91-98 | a member's text fails only with FunctionsNonSerializableException |
| Items.SerializeMembers | src/main/java/org/rumbledb/items/ArrayItem.java:88-99 | the members' text fails only with FunctionsNonSerializableException |
| Items.SerializeEntries | src/main/java/org/rumbledb/items/ArrayItem.java:88-99 | the entries' text fails only with FunctionsNonSerializableException |
| Items.SerializeDateTime | src/main/java/sparksoniq/jsoniq/item/DateTimeItem.java:109-114 | a dateTime serializes to its text, minus its last character ('Z') when its zone is UTC |
| Items.SerializeFailsIffFunction | src/main/java/org/rumbledb/items/FunctionItem.java:180-183 | serialization fails exactly when a function item is inside the item |
| Items.SerializeMembersFailsIffFunction | src/main/java/org/rumbledb/items/ArrayItem.java:88-99 | an array's members fail to serialize exactly when one of them holds a function item |
| Items.SerializeEntriesFailsIffFunction | src/main/java/org/rumbledb/items/ArrayItem.java:88-99 | an object's entries fail to serialize exactly when one of their values holds a function item |
| Items.SerializeEmptyArray | src/main/java/org/rumbledb/items/ArrayItem.java:84-102 | the empty array serializes as "[ ]" |
| Items.HighSurrogate | src/main/java/org/rumbledb/items/ArrayItem.java:94-95 | the first UTF-16 unit of a character above U+FFFF is a high surrogate (D800-DBFF) |
| Items.LowSurrogate | src/main/java/org/rumbledb/items/ArrayItem.java:94-95 | the second UTF-16 unit of a character above U+FFFF is a low surrogate (DC00-DFFF) |
| Items.ParseHex4OfHex4 | src/main/java/org/rumbledb/items/ArrayItem.java:94-95 | four hexadecimal digits read back as the number they encode |
| Items.ShortEscapes | src/main/java/org/rumbledb/items/ArrayItem.java:94-95 | each two-character escape has a letter after the backslash that maps back to the escaped character, and 'u' is not one of them |
| Items.UnescapeSurrogatePair | src/main/java/org/rumbledb/items/ArrayItem.java:94-95 | two \\uXXXX escapes forming a surrogate pair read back as the one character they encode |
| Items.UnescapeEscapeChar | src/main/java/org/rumbledb/items/ArrayItem.java:94-95 | reading one escaped character followed by more text gives that character, then the reading of the rest |
| Items.UnescapeEscapeJson | src/main/java/org/rumbledb/items/ArrayItem.java:94-95 | JSON escaping of a string member is lossless: reading the escaped text back gives the original string |
| Items.EscapeJsonIsAscii | src/main/java/org/rumbledb/items/ArrayItem.java:94-95 | escaped text lies in ASCII 32 to 127: every character below the space is escaped, DEL (127) is left as it is, as commons-text's outsideOf(32, 0x7f) |
| Items.EscapeCharIsAscii | src/main/java/org/rumbledb/items/ArrayItem.java:94-95 | the escape of a single character lies in ASCII 32 to 127, DEL included |
| Items.FunctionItem.constructor | src/main/java/org/rumbledb/items/FunctionItem.java:68-81 | the item holds the given identifier, parameter names, signature and body, and empty closures |
| Items.FunctionItem.WithClosure | src/main/java/org/rumbledb/items/FunctionItem.java:83-99 | the item holds the given fields and the three given closure maps |
| Items.FunctionItem.FromParameters | src/main/java/org/rumbledb/items/FunctionItem.java:101-121 | the identifier has the name and the parameter count as arity; the parameter names and types appear in parameter order; the closures start empty |
| Items.FunctionItem.Equals | src/main/java/org/rumbledb/items/FunctionItem.java:154-158 | a function item equals no item, which agrees with item equality |
| Items.FunctionItem.HashCode | src/main/java/org/rumbledb/items/FunctionItem.java:215-220 | the sum of the identifier's, parameter names' and signature's hash codes is a Java int |
| Items.FunctionItem.PopulateClosureFromDynamicContext | src/main/java/org/rumbledb/items/FunctionItem.java:295-309 | every variable of the dynamic context is put into the closure of its kind, replacing a captured value of the same name; the other fields do not change |
| Items.PutAll | src/main/java/org/rumbledb/items/FunctionItem.java:296-298 | the put loop gives the target map overridden by the source map |
| Items.FunctionHashIgnoresClosure | src/main/java/org/rumbledb/items/FunctionItem.java:215-220 | two function items with the same identifier, parameter names and signature hash alike, whatever their closures hold |
| JsonItemParser.NumberItem | src/main/java/sparksoniq/io/json/JiqsItemParser.java:58-70 | a number lexeme with 'E' or 'e' is a double; otherwise one with '.' is a decimal; otherwise Integer.parseInt decides: an integer item of its value, or a NumberFormatException, which is the only error |
| JsonItemParser.ItemsFromJson | src/main/java/sparksoniq/io/json/JiqsItemParser.java:73-80 | when the members read, there is exactly one item per array member |
| JsonItemParser.EntriesFromJson | src/main/java/sparksoniq/io/json/JiqsItemParser.java:81-91 | when the pairs read, there is exactly one entry per object pair |
| JsonItemParser.GetItemFromObject | src/main/java/sparksoniq/io/json/JiqsItemParser.java:54-101 | the reader's loops over array members and object pairs give the item of the JSON value: strings, numbers, booleans, arrays, objects and null as read; any other value "Invalid value found while parsing. JSON is not well-formed!", and a failed read "IO error while parsing. JSON is not well-formed!" |
| JsonItemParser.ArrayMembersInOrder | src/main/java/sparksoniq/io/json/JiqsItemParser.java:73-80 | the i-th array member gives the i-th member item |
| JsonItemParser.ObjectPairsInOrder | src/main/java/sparksoniq/io/json/JiqsItemParser.java:81-91 | the i-th pair gives the i-th entry, with the same key and the item of the pair's value |
| JsonItemParser.IntegerBeyondIntRangeFails | src/main/java/sparksoniq/io/json/JiqsItemParser.java:69 | an integer lexeme without '.', 'E' or 'e' whose value exceeds the int range is a NumberFormatException |
| JsonItemParser.JsonOfMembers | src/main/java/sparksoniq/io/json/JiqsItemParser.java:73-80 | the written members are one JSON value per member item, in order |
| JsonItemParser.JsonOfEntries | src/main/java/sparksoniq/io/json/JiqsItemParser.java:81-91 | the written pairs are one pair per entry, with its key and its value written, in order |
| JsonItemParser.ReadWrittenItem | src/main/java/sparksoniq/io/json/JiqsItemParser.java:54-101 | reading back the JSON an item is written as gives the item (for items JSON can hold) |
| JsonItemParser.ReadWrittenMembers | src/main/java/sparksoniq/io/json/JiqsItemParser.java:73-80 | reading back written array members gives the members |
| JsonItemParser.ReadWrittenEntries | src/main/java/sparksoniq/io/json/JiqsItemParser.java:81-91 | reading back written object entries gives the entries |
| JsonItemParser.ElementItems | src/main/java/sparksoniq/io/json/JiqsItemParser.java:189-202 | when the elements read, there is one item per list element |
| JsonItemParser.RowEntries | src/main/java/sparksoniq/io/json/JiqsItemParser.java:103-116 | when the fields read, there is one entry per remaining schema field |
| JsonItemParser.GetItemFromRow | src/main/java/sparksoniq/io/json/JiqsItemParser.java:103-116 | the loop over the schema's fields gives the object of the row: one entry per field, keyed by the field name, valued by its cell read as the field's type |
| JsonItemParser.AddValue | src/main/java/sparksoniq/io/json/JiqsItemParser.java:118-207 | a cell read as its declared type gives the item addValue appends: null cells of a row are null; strings, booleans, doubles, integers as themselves; floats as doubles; longs as decimals; shorts as integers; timestamps as dateTimes; structs as objects; lists as arrays; another type is "DataFrame type unsupported: " and the type's JSON |
| JsonItemParser.AddElements | src/main/java/sparksoniq/io/json/JiqsItemParser.java:198-201 | the loop over a list's elements gives the element items in order, or the first element's error |
| JsonItemParser.ElementItemsStep | src/main/java/sparksoniq/io/json/JiqsItemParser.java:198-201 | one element read either appends its item or makes the list fail with its error |
| JsonItemParser.RowKeysAreFieldNames | src/main/java/sparksoniq/io/json/JiqsItemParser.java:109-115 | the keys of a row's object are its schema's field names, in schema order |
| JsonItemParser.NullCellIsNull | src/main/java/sparksoniq/io/json/JiqsItemParser.java:120-121 | a null cell of a row is the null item, whatever the declared type |
| JsonItemParser.NullElementIsDereferenced | src/main/java/sparksoniq/io/json/JiqsItemParser.java:129-181 | a null list element of a non-null type is dereferenced: a NullPointerException |
| JsonItemParser.UnsupportedTypeFails | src/main/java/sparksoniq/io/json/JiqsItemParser.java:203-206 | a present value of a type the reader does not know is a RuntimeException with "DataFrame type unsupported: " and the type's JSON |
| JsonItemParser.ColumnKinds | src/main/java/sparksoniq/io/json/JiqsItemParser.java:150-172 | longs become decimals of the same value, floats doubles, shorts integers |
| DateTimeItems.LeadingDigits | src/main/java/sparksoniq/jsoniq/item/DateTimeItem.java:25 | the year's greedy digit count: every counted character is a digit and the next one is not |
| DateTimeItems.LeadingDigitsUnique | src/main/java/sparksoniq/jsoniq/item/DateTimeItem.java:25 | digits followed by a non-digit are exactly the leading digits |
| DateTimeItems.FractionLength | src/main/java/sparksoniq/jsoniq/item/DateTimeItem.java:30 | the seconds fraction the recognizer takes is a valid fraction (nothing, or a dot and digits) |
| DateTimeItems.ZeroFractionLength | src/main/java/sparksoniq/jsoniq/item/DateTimeItem.java:31 | the end-of-day fraction the recognizer takes is a valid all-zero fraction |
| DateTimeItems.TimezoneStart | src/main/java/sparksoniq/jsoniq/item/DateTimeItem.java:32 | a time zone starts with neither a digit nor a dot, so it cannot extend a fraction |
| DateTimeItems.PlainTimeSplit | src/main/java/sparksoniq/jsoniq/item/DateTimeItem.java:30-35 | when a zone follows, a plain time's fraction ends exactly where the recognizer ends it |
| DateTimeItems.EndOfDaySplit | src/main/java/sparksoniq/jsoniq/item/DateTimeItem.java:31-35 | when a zone follows, an end-of-day fraction ends exactly where the recognizer ends it |
| DateTimeItems.EndOfDayIsNotPlain | src/main/java/sparksoniq/jsoniq/item/DateTimeItem.java:28-31 | "24" is not an hour of a plain time, so the two time forms never overlap |
| DateTimeItems.RecognizeTimeAndZoneCorrect | src/main/java/sparksoniq/jsoniq/item/DateTimeItem.java:35 | the left-to-right recognizer accepts a time and zone exactly when some split of it matches time then optional zone |
| DateTimeItems.RecognizeAfterYearCorrect | src/main/java/sparksoniq/jsoniq/item/DateTimeItem.java:34-35 | the recognizer accepts what follows the year exactly when it matches "-" month "-" day "T" time zone |
| DateTimeItems.YearSplit | src/main/java/sparksoniq/jsoniq/item/DateTimeItem.java:25 | a year followed by '-' ends exactly where the recognizer ends it |
| DateTimeItems.RecognizeDateTimeCorrect | src/main/java/sparksoniq/jsoniq/item/DateTimeItem.java:126-128 | the recognizer accepts a string exactly when the dateTime lexical pattern matches the whole string |
| DateTimeItems.RecognizeDateTime | src/main/java/sparksoniq/jsoniq/item/DateTimeItem.java:25-35 | the left-to-right reading of the pattern accepts only strings of at least 19 characters, with the 'T' six characters after the year; RecognizeDateTimeCorrect proves it accepts exactly the lexical pattern |
| DateTimeItems.TimeAndZoneOfParts | src/main/java/sparksoniq/jsoniq/item/DateTimeItem.java:35 | a valid time followed by a valid zone is a valid time-and-zone part |
| DateTimeItems.DateTimeOfParts | src/main/java/sparksoniq/jsoniq/item/DateTimeItem.java:34-35 | a string made of year digits and a '-'-led rest matches exactly when the year and the rest match their fragments |
| DateTimeItems.DateTimeOfValidParts | src/main/java/sparksoniq/jsoniq/item/DateTimeItem.java:34-35 | a valid year, month, day, time and zone make a valid dateTime |
| DateTimeItems.AcceptsFractionAndUtc | src/main/java/sparksoniq/jsoniq/item/DateTimeItem.java:34-35 | "2019-03-01T10:20:30.5Z" matches the pattern |
| DateTimeItems.AcceptsEndOfDay | src/main/java/sparksoniq/jsoniq/item/DateTimeItem.java:25-35 | "-0001-12-31T24:00:00.000+14:00" matches the pattern: negative year, end of day, zero fraction, largest offset |
| DateTimeItems.RefusesMonth13 | src/main/java/sparksoniq/jsoniq/item/DateTimeItem.java:26 | month 13 is refused |
| DateTimeItems.RefusesLateEndOfDay | src/main/java/sparksoniq/jsoniq/item/DateTimeItem.java:31 | the end of the day with a non-zero fraction is refused |
| DateTimeItems.RefusesShortYear | src/main/java/sparksoniq/jsoniq/item/DateTimeItem.java:25 | a three-digit year is refused |
| DateTimeItems.GetDateTimeFromString | src/main/java/sparksoniq/jsoniq/item/DateTimeItem.java:130-137 | an error exactly when the whole string does not match the pattern or the library parser fails on it: an IllegalArgumentException for the first, the parser's own exception for the second; otherwise the parsed value, moved to UTC with its fields kept when it parsed into the default zone |
| DateTimeItems.DateTimeEqualsOnlyDateTimes | src/main/java/sparksoniq/jsoniq/item/DateTimeItem.java:86-97 | a dateTime equals exactly the dateTime items at the same instant |
| DateTimeItems.IsCastableAs | src/main/java/sparksoniq/jsoniq/item/DateTimeItem.java:62-64 | a dateTime is castable to dateTime and to string, and to no other type |
| DateTimeItems.CompareTo | src/main/java/sparksoniq/jsoniq/item/DateTimeItem.java:160-168 | comparing with a non-dateTime is an IteratorFlowException; otherwise -1, 0 or 1, 0 exactly when the items are equal and negative exactly when this instant is earlier |
| DateTimeItems.CompareToAntisymmetric | src/main/java/sparksoniq/jsoniq/item/DateTimeItem.java:160-168 | comparing two dateTimes one way is the negation of comparing them the other way |
| DateTimeItems.CompareItem | src/main/java/sparksoniq/jsoniq/item/DateTimeItem.java:170-178 | comparing with a non-dateTime is an UnexpectedTypeException; otherwise the operator applied to the two items |
| StringFunctions.FirstIndex | src/main/java/org/rumbledb/runtime/functions/strings/TranslateFunctionIterator.java:67-71 | the first position of a map character: it holds the character and no earlier position does |
| StringFunctions.TranslationTable | src/main/java/org/rumbledb/runtime/functions/strings/TranslateFunctionIterator.java:66-72 | the table has exactly the characters of the map string as keys |
| StringFunctions.BuildTranslationTable | src/main/java/org/rumbledb/runtime/functions/strings/TranslateFunctionIterator.java:66-72 | the loop that puts each map character once (first occurrence wins, '\\0' past the end of the translation string) builds the translation table |
| StringFunctions.TranslateChar | src/main/java/org/rumbledb/runtime/functions/strings/TranslateFunctionIterator.java:77-83 | one input character becomes at most one output character |
| StringFunctions.ApplyTable | src/main/java/org/rumbledb/runtime/functions/strings/TranslateFunctionIterator.java:74-85 | the output is never longer than the input |
| StringFunctions.Translate | src/main/java/org/rumbledb/runtime/functions/strings/TranslateFunctionIterator.java:48-88 | an absent input gives ""; an absent map or translation string is a NullPointerException; otherwise the translated string |
| StringFunctions.ApplyTableAppend | src/main/java/org/rumbledb/runtime/functions/strings/TranslateFunctionIterator.java:74-85 | translation works character by character: translating a concatenation concatenates the translations |
| StringFunctions.UnmappedCharactersAreKept | src/main/java/org/rumbledb/runtime/functions/strings/TranslateFunctionIterator.java:78-83 | characters absent from the map string are copied unchanged, in order |
| StringFunctions.FirstOccurrenceDecides | src/main/java/org/rumbledb/runtime/functions/strings/TranslateFunctionIterator.java:69-71 | a map character's first occurrence decides its replacement: the translation character at that position, or deletion past the end of the translation string |
| StringFunctions.OutputCharacters | src/main/java/org/rumbledb/runtime/functions/strings/TranslateFunctionIterator.java:74-85 | every output character is an unmapped input character or a non-'\\0' translation character |
| StringFunctions.JavaSubstring | src/main/java/org/rumbledb/runtime/functions/strings/SubstringFunctionIterator.java:81-83 | String.substring succeeds exactly when 0 <= begin <= end <= length, with the characters begin to end - 1; otherwise StringIndexOutOfBoundsException |
| StringFunctions.Substring2AsWritten | src/main/java/org/rumbledb/runtime/functions/strings/SubstringFunctionIterator.java:47-86 | as written: an absent string gives "", an absent start "Type error; Start index parameter can't be empty sequence ", and a start index below 0 a StringIndexOutOfBoundsException |
| StringFunctions.Substring3AsWritten | src/main/java/org/rumbledb/runtime/functions/strings/SubstringFunctionIterator.java:47-98 | as written: an absent string gives "", an absent start or length a type error, and an end below 0 after a start below 0 a StringIndexOutOfBoundsException |
| StringFunctions.Substring2ZeroStartFailsAsWritten | src/main/java/org/rumbledb/runtime/functions/strings/SubstringFunctionIterator.java:64-83 | substring("abc", 0) raises as written but gives "abc" with the start clamped at 0 |
| StringFunctions.Substring3BeforeStartFailsAsWritten | src/main/java/org/rumbledb/runtime/functions/strings/SubstringFunctionIterator.java:77-81 | substring("abc", -5, 2) raises as written but gives "" with the end clamped |
| StringFunctions.Substring2 | src/main/java/org/rumbledb/runtime/functions/strings/SubstringFunctionIterator.java:47-86 | with the start clamped at 0: the only error is the type error of an absent start, and the result is never longer than the string |
| StringFunctions.Substring3 | src/main/java/org/rumbledb/runtime/functions/strings/SubstringFunctionIterator.java:47-98 | with both ends clamped: the only errors are the type errors of an absent start or length, and the result is never longer than the string |
| StringFunctions.SubstringAsWrittenAgreesWhenOk | src/main/java/org/rumbledb/runtime/functions/strings/SubstringFunctionIterator.java:64-83 | wherever the code as written succeeds, the clamped versions give the same string |
| StringFunctions.WindowIsSlice | src/main/java/org/rumbledb/runtime/functions/strings/SubstringFunctionIterator.java:64-83 | the characters whose positions lie in a window form one contiguous slice of the string |
| StringFunctions.Substring2MatchesPositions | src/main/java/org/rumbledb/runtime/functions/strings/SubstringFunctionIterator.java:64-83 | the clamped two-argument substring is the characters at positions start and after (positions count from 1) |
| StringFunctions.Substring3MatchesPositions | src/main/java/org/rumbledb/runtime/functions/strings/SubstringFunctionIterator.java:64-98 | the clamped three-argument substring is the characters at positions start to start + length - 1 |
| StringFunctions.ArgumentString | src/main/java/org/rumbledb/runtime/functions/strings/ConcatFunctionIterator.java:50-57 | an argument contributes its first item serialized, or nothing when it yields no item |
| StringFunctions.Join | src/main/java/org/rumbledb/runtime/functions/strings/ConcatFunctionIterator.java:48-58 | joining two results gives the first failure, or the two strings one after the other |
| StringFunctions.ConcatStrings | src/main/java/org/rumbledb/runtime/functions/strings/ConcatFunctionIterator.java:48-58 | the only error of concat is FunctionsNonSerializableException |
| StringFunctions.Concat | src/main/java/org/rumbledb/runtime/functions/strings/ConcatFunctionIterator.java:46-67 | the builder loop gives the string item of the arguments' contributions in argument order, and fails exactly when the contributions fail |
| StringFunctions.ConcatStringsAppend | src/main/java/org/rumbledb/runtime/functions/strings/ConcatFunctionIterator.java:49-58 | concat distributes over a split of its arguments |
| StringFunctions.EmptyArgumentContributesNothing | src/main/java/org/rumbledb/runtime/functions/strings/ConcatFunctionIterator.java:50-52 | an argument that yields nothing contributes nothing |
| StringFunctions.OnlyFirstItemsCount | src/main/java/org/rumbledb/runtime/functions/strings/ConcatFunctionIterator.java:50 | only the first item of each argument is read |
| StringFunctions.ConcatOfStrings | src/main/java/org/rumbledb/runtime/functions/strings/ConcatFunctionIterator.java:49-58 | concat of string arguments is the concatenation of their first strings |
| StringFunctions.Operand | src/main/java/org/rumbledb/runtime/operational/StringConcatIterator.java:59-68 | an operand is its first item, or the string "" when it yields nothing |
| StringFunctions.StringConcat | src/main/java/org/rumbledb/runtime/operational/StringConcatIterator.java:52-86 | the result exists exactly when both operands are atomic and is their serializations joined; a function operand fails with FunctionsNonSerializableException, another non-atomic operand with UnexpectedTypeException |
| StringFunctions.StringConcatIsConcat | src/main/java/org/rumbledb/runtime/operational/StringConcatIterator.java:52-86 | on atomic operands, the \|\| operator and two-argument concat agree |
| StringFunctions.EmptyOperandIsEmptyString | src/main/java/org/rumbledb/runtime/operational/StringConcatIterator.java:58-68 | an operand that yields nothing acts as the empty string |
| SequenceFunctions.Exists | src/main/java/org/rumbledb/runtime/functions/sequences/general/ExistsFunctionIterator.java:48-68 | exists gives a boolean item that is true exactly when the argument yields at least one item |
| SequenceFunctions.ExistsProbesFirstItemOnly | src/main/java/org/rumbledb/runtime/functions/sequences/general/ExistsFunctionIterator.java:58-63 | only the first item is probed: whatever follows it does not change the answer |
| SequenceFunctions.And | src/main/java/org/rumbledb/runtime/operational/AndOperationIterator.java:51-67 | the result is the conjunction of both effective boolean values; the left error comes first, then the right one |
| SequenceFunctions.AndHasNoShortCircuit | src/main/java/org/rumbledb/runtime/operational/AndOperationIterator.java:56-57 | a false left operand does not spare the right operand from being evaluated and failing |
| SequenceFunctions.AndCommutes | src/main/java/org/rumbledb/runtime/operational/AndOperationIterator.java:56-63 | where neither operand fails, swapping them gives the same item |
| SequenceFunctions.LeavesAreNotArrays | src/main/java/org/rumbledb/runtime/functions/arrays/ArrayFlattenFunctionIterator.java:94-102 | flattening produces no array |
| SequenceFunctions.LeavesAppend | src/main/java/org/rumbledb/runtime/functions/arrays/ArrayFlattenFunctionIterator.java:94-102 | flattening works item by item: the leaves of a concatenation are the concatenated leaves |
| SequenceFunctions.LeavesOfArrayFree | src/main/java/org/rumbledb/runtime/functions/arrays/ArrayFlattenFunctionIterator.java:94-102 | items that are not arrays pass through unchanged and in order |
| SequenceFunctions.LeavesIdempotent | src/main/java/org/rumbledb/runtime/functions/arrays/ArrayFlattenFunctionIterator.java:94-102 | flattening twice is flattening once |
| SequenceFunctions.EmptyArrayContributesNothing | src/main/java/org/rumbledb/runtime/functions/arrays/ArrayFlattenFunctionIterator.java:94-102 | an empty array contributes nothing to the flattened sequence |
| SequenceFunctions.ArrayFlattenIterator.constructor | src/main/java/org/rumbledb/runtime/functions/arrays/ArrayFlattenFunctionIterator.java:43-49 | a new iterator has read nothing and has no queued results |
| SequenceFunctions.ArrayFlattenIterator.FlattenInto | src/main/java/org/rumbledb/runtime/functions/arrays/ArrayFlattenFunctionIterator.java:94-102 | flatten appends the items' leaves to the queue, depth first, and changes nothing else |
| SequenceFunctions.ArrayFlattenIterator.SetNextResult | src/main/java/org/rumbledb/runtime/functions/arrays/ArrayFlattenFunctionIterator.java:78-92 | the refill loop reads until some leaf is queued; what remains to be returned is the leaves of the unread argument, and the argument is closed exactly when nothing remains |
| SequenceFunctions.ArrayFlattenIterator.ReadOne | src/main/java/org/rumbledb/runtime/functions/arrays/ArrayFlattenFunctionIterator.java:79-81 | reading one argument item moves its leaves from the unread part to the queue |
| SequenceFunctions.ArrayFlattenIterator.Open | src/main/java/org/rumbledb/runtime/functions/arrays/ArrayFlattenFunctionIterator.java:67-76 | after open, what remains to be returned is the leaves of the whole argument |
| SequenceFunctions.ArrayFlattenIterator.Next | src/main/java/org/rumbledb/runtime/functions/arrays/ArrayFlattenFunctionIterator.java:51-65 | next returns the first remaining leaf and drops it; with no result left it raises an IteratorFlowException |
| SequenceFunctions.KeptEntries | src/main/java/org/rumbledb/runtime/functions/object/ObjectRemoveKeysClosure.java:31-36 | removal never adds entries |
| SequenceFunctions.RemoveKeysCall | src/main/java/org/rumbledb/runtime/functions/object/ObjectRemoveKeysClosure.java:23-40 | a non-object gives no result; an object gives one object with the kept entries |
| SequenceFunctions.KeptEntriesMembers | src/main/java/org/rumbledb/runtime/functions/object/ObjectRemoveKeysClosure.java:31-36 | the kept entries are exactly the entries whose keys are not in the removal list |
| SequenceFunctions.KeptEntriesAppend | src/main/java/org/rumbledb/runtime/functions/object/ObjectRemoveKeysClosure.java:31-36 | removal works entry by entry, so the original order is kept |
| SequenceFunctions.RemoveNoKeys | src/main/java/org/rumbledb/runtime/functions/object/ObjectRemoveKeysClosure.java:31-36 | removing no keys keeps every entry |
| SequenceFunctions.RemoveKeysTwice | src/main/java/org/rumbledb/runtime/functions/object/ObjectRemoveKeysClosure.java:31-36 | removing two key lists one after the other is removing both at once |
| LocalFunctionCalls.SingleResultCall.constructor | src/main/java/org/rumbledb/runtime/functions/strings/TranslateFunctionIterator.java:39-45 | a new call is neither open nor has a result pending |
| LocalFunctionCalls.SingleResultCall.Next | src/main/java/org/rumbledb/runtime/functions/strings/TranslateFunctionIterator.java:48-93 | the first next returns what the builtin computes; a later one raises an IteratorFlowException; a failed computation leaves hasNext set only in the builtins that clear it after computing |
| LocalFunctionCalls.SingleResultCall.Open | src/main/java/org/rumbledb/runtime/functions/strings/TranslateFunctionIterator.java:48-50 | open marks the call open with its one result pending |
| LocalFunctionCalls.SingleResultCall.Close | src/main/java/org/rumbledb/runtime/functions/strings/TranslateFunctionIterator.java:35 | close, inherited from the base iterator, clears the open flag and leaves hasNext as it was |
| Base.WrapInt32 | src/main/java/org/rumbledb/items/ArrayItem.java:135-142 | Java int addition: the result is an int congruent to the exact sum modulo 2^32, and equal to it when the sum is an int |
| Base.ParseInt | src/main/java/org/rumbledb/config/RumbleRuntimeConfiguration.java:84-90 | Integer.parseInt succeeds only on non-empty text, and only with an int |
| Base.ParseIntOfIntToString | src/main/java/sparksoniq/io/json/JiqsItemParser.java:69 | parsing the decimal text of an int gives the int back |
| Base.NatToDigits | src/main/java/sparksoniq/io/json/JiqsItemParser.java:160-163 | the decimal text of a natural number is a non-empty run of digits |
| Base.DigitsValueOfNatToDigits | src/main/java/sparksoniq/io/json/JiqsItemParser.java:160-163 | the digits written for a number have that number as their value |
| Base.LeadingBlanks | src/main/java/org/rumbledb/config/RumbleRuntimeConfiguration.java:55 | the first loop of String.trim: every character before the returned position is at most U+0020, and the one at it is above |
| Base.LengthWithoutTrailingBlanks | src/main/java/org/rumbledb/config/RumbleRuntimeConfiguration.java:55 | the second loop of String.trim: every character from the returned length on is at most U+0020, and the one before it is above |
| Base.Trim | src/main/java/org/rumbledb/config/RumbleRuntimeConfiguration.java:55 | String.trim gives the slice left after dropping the whole leading and the whole trailing run of characters at most U+0020, so no character at most U+0020 is left at either end (DEL and the C1 controls are kept) |
| Base.TrimOfUnpadded | src/main/java/org/rumbledb/config/RumbleRuntimeConfiguration.java:55 | a string that neither starts nor ends with a character at most U+0020 is its own trim |
| Base.TrimIdempotent | src/main/java/org/rumbledb/config/RumbleRuntimeConfiguration.java:55 | trimming twice is trimming once |
| Base.RemoveAll | src/main/java/org/rumbledb/config/RumbleRuntimeConfiguration.java:55 | String.replace with "" never makes the string longer |
| Base.RemoveAllWithoutOccurrence | src/main/java/org/rumbledb/config/RumbleRuntimeConfiguration.java:55 | String.replace with "" leaves a string without an occurrence of the target unchanged |
| Base.RemoveAllFirstOccurrence | src/main/java/org/rumbledb/config/RumbleRuntimeConfiguration.java:55 | in p + target + rest, with no occurrence of target starting inside p, the result is p followed by the removal from rest: the text before the first occurrence is kept and the occurrence dropped; with RemoveAllWithoutOccurrence this fixes the result, the leftmost non-overlapping occurrences removed and nothing else |
| RuntimeConfiguration.RemoveAllDashesLeavesNone | src/main/java/org/rumbledb/config/RumbleRuntimeConfiguration.java:55 | removing every "--" left to right leaves no "--" behind and keeps a first character that is not '-' |
| RuntimeConfiguration.ArgumentNameHasNoDoubleDash | src/main/java/org/rumbledb/config/RumbleRuntimeConfiguration.java:55 | an argument key never holds "--" |
| RuntimeConfiguration.ParseArguments | src/main/java/org/rumbledb/config/RumbleRuntimeConfiguration.java:49-62 | the only error of parsing the command line is a CliException |
| RuntimeConfiguration.OddArgumentCountFails | src/main/java/org/rumbledb/config/RumbleRuntimeConfiguration.java:56-58 | an odd number of arguments always leaves a key without its value, which is an error |
| RuntimeConfiguration.ParseCommandLine | src/main/java/org/rumbledb/config/RumbleRuntimeConfiguration.java:49-62 | the constructor's loop over the arguments, two at a time, gives exactly the parsed argument map or the first error: a key without "--" is "Invalid argument format. Required format: --property value", a missing value or one starting with "--" is "Missing argument value for a provided argument: " and the key |
| RuntimeConfiguration.ParseArgumentsAppend | src/main/java/org/rumbledb/config/RumbleRuntimeConfiguration.java:51-61 | parsing more pairs after some pairs lets the later pairs override the earlier ones, and an error in either part is an error of the whole |
| RuntimeConfiguration.LastValueWins | src/main/java/org/rumbledb/config/RumbleRuntimeConfiguration.java:60 | a key given again takes its last value |
| RuntimeConfiguration.PairParses | src/main/java/org/rumbledb/config/RumbleRuntimeConfiguration.java:52-60 | one well-formed pair gives the map of its key to its value |
| RuntimeConfiguration.ParsedKeys | src/main/java/org/rumbledb/config/RumbleRuntimeConfiguration.java:55-60 | the parsed keys are exactly the names of the arguments at even positions |
| RuntimeConfiguration.PortArgumentName | src/main/java/org/rumbledb/config/RumbleRuntimeConfiguration.java:55 | "--port" names the key "port" |
| RuntimeConfiguration.RumbleRuntimeConfiguration.constructor | src/main/java/org/rumbledb/config/RumbleRuntimeConfiguration.java:45-47 | the configuration without arguments has none |
| RuntimeConfiguration.RumbleRuntimeConfiguration.FromCommandLine | src/main/java/org/rumbledb/config/RumbleRuntimeConfiguration.java:49-62 | the String[] constructor holds the parsed arguments, or raises the CliException the parsing gives |
| RuntimeConfiguration.RumbleRuntimeConfiguration.WithArguments | src/main/java/org/rumbledb/config/RumbleRuntimeConfiguration.java:49-62 | the configuration holds exactly the given argument map, as the String[] constructor leaves it |
| RuntimeConfiguration.RumbleRuntimeConfiguration.GetConfigurationArgument | src/main/java/org/rumbledb/config/RumbleRuntimeConfiguration.java:68-74 | the value of the key when present and null otherwise |
| RuntimeConfiguration.RumbleRuntimeConfiguration.GetOutputPath | src/main/java/org/rumbledb/config/RumbleRuntimeConfiguration.java:76-82 | the value under "output-path", or null when absent |
| RuntimeConfiguration.RumbleRuntimeConfiguration.GetLogPath | src/main/java/org/rumbledb/config/RumbleRuntimeConfiguration.java:108-114 | the value under "log-path", or null when absent |
| RuntimeConfiguration.RumbleRuntimeConfiguration.GetQueryPath | src/main/java/org/rumbledb/config/RumbleRuntimeConfiguration.java:116-122 | the value under "query-path", or null when absent |
| RuntimeConfiguration.RumbleRuntimeConfiguration.IntegerSetting | src/main/java/org/rumbledb/config/RumbleRuntimeConfiguration.java:84-90 | an integer setting is its default when the key is absent, and the parsed value (or the NumberFormatException) otherwise |
| RuntimeConfiguration.RumbleRuntimeConfiguration.GetPort | src/main/java/org/rumbledb/config/RumbleRuntimeConfiguration.java:84-90 | the parsed value under "port", with Integer.parseInt's NumberFormatException, or 8001 when absent |
| RuntimeConfiguration.RumbleRuntimeConfiguration.GetResultSizeCap | src/main/java/org/rumbledb/config/RumbleRuntimeConfiguration.java:124-130 | the parsed value under "result-size", with Integer.parseInt's NumberFormatException, or 200 when absent |
| RuntimeConfiguration.RumbleRuntimeConfiguration.Flag | src/main/java/org/rumbledb/config/RumbleRuntimeConfiguration.java:92-163 | a flag holds exactly when getConfigurationArgument gives "yes"; an absent key is false |
| RuntimeConfiguration.RumbleRuntimeConfiguration.GetOverwrite | src/main/java/org/rumbledb/config/RumbleRuntimeConfiguration.java:92-98 | false when "overwrite" is absent, otherwise whether its value is exactly "yes" |
| RuntimeConfiguration.RumbleRuntimeConfiguration.GetShowErrorInfo | src/main/java/org/rumbledb/config/RumbleRuntimeConfiguration.java:100-106 | false when "show-error-info" is absent, otherwise whether its value is exactly "yes" |
| RuntimeConfiguration.RumbleRuntimeConfiguration.IsShell | src/main/java/org/rumbledb/config/RumbleRuntimeConfiguration.java:141-147 | false when "shell" is absent, otherwise whether its value is exactly "yes" |
| RuntimeConfiguration.RumbleRuntimeConfiguration.IsServer | src/main/java/org/rumbledb/config/RumbleRuntimeConfiguration.java:149-155 | false when "server" is absent, otherwise whether its value is exactly "yes" |
| RuntimeConfiguration.RumbleRuntimeConfiguration.IsPrintIteratorTree | src/main/java/org/rumbledb/config/RumbleRuntimeConfiguration.java:157-163 | false when "print-iterator-tree" is absent, otherwise whether its value is exactly "yes" |
| RuntimeConfiguration.RumbleRuntimeConfiguration.GetExternalVariableValue | src/main/java/org/rumbledb/config/RumbleRuntimeConfiguration.java:132-139 | the loop over the keys finds the value of "variable:" followed by the name, or null |
| RuntimeConfiguration.EmptyConfigurationDefaults | src/main/java/org/rumbledb/config/RumbleRuntimeConfiguration.java:76-163 | without arguments the port is 8001, the result size cap 200, the paths are null, every flag is false and every key is absent |
| RuntimeConfiguration.PortFromCommandLine | src/main/java/org/rumbledb/config/RumbleRuntimeConfiguration.java:84-90 | a port given on the command line is read back by getPort |
| ExecutionModes.InitCommaMode | src/main/java/org/rumbledb/expressions/CommaExpression.java:63-78 | the loop runs over the raw list, nulls included: a NullPointerException exactly when a null entry comes before any child that is not isRDD; otherwise RDD exactly when there are children and every present child is isRDD, and LOCAL otherwise |
| ExecutionModes.CommaModeLocalChild | src/main/java/org/rumbledb/expressions/CommaExpression.java:70-75 | one child that is not isRDD makes the comma expression LOCAL, wherever it sits |
| ExecutionModes.CommaModeAppendRdd | src/main/java/org/rumbledb/expressions/CommaExpression.java:70-77 | appending an isRDD child never changes the mode of a non-empty comma expression |
| ExecutionModes.ScanEntriesSpec | src/main/java/org/rumbledb/expressions/CommaExpression.java:70-77 | the loop over a non-empty list fails exactly when it reaches a null entry, with a NullPointerException; otherwise it gives RDD exactly when every present child is isRDD, and RDD only when no entry is null |
| ExecutionModes.NullReachedFirstStep | src/main/java/org/rumbledb/expressions/CommaExpression.java:70-75 | a present isRDD first entry passes the question of reaching a null on to the rest of the list; a first entry that is not isRDD ends the loop before any null |
| ExecutionModes.CommaEntriesModeSpec | src/main/java/org/rumbledb/expressions/CommaExpression.java:63-78 | over the raw list: a NullPointerException exactly when a null entry comes before any child that is not isRDD; otherwise the comma rule over the present children |
| ExecutionModes.CommaEntriesModeWithoutNulls | src/main/java/org/rumbledb/expressions/CommaExpression.java:63-78 | without null entries the loop gives the comma rule over all the children and never fails |
| ExecutionModes.PresentModesOfSomes | src/main/java/org/rumbledb/expressions/CommaExpression.java:70-77 | a list without nulls has every entry present and never reaches a null |
| ExecutionModes.ConditionalMode | src/main/java/org/rumbledb/expressions/control/ConditionalExpression.java:75-85 | a conditional is only ever LOCAL or RDD |
| ExecutionModes.ConditionalModeIsCommaOfBranches | src/main/java/org/rumbledb/expressions/control/ConditionalExpression.java:75-85 | a conditional's mode is that of a comma expression over its two branches, and the condition's mode takes no part |
| ExecutionModes.InitSwitchMode | src/main/java/org/rumbledb/expressions/control/SwitchExpression.java:76-88 | the loop starts from the default's mode and, when that is RDD, drops to LOCAL at the first case whose return expression is not isRDD |
| ExecutionModes.SwitchModeRddDefaultIsComma | src/main/java/org/rumbledb/expressions/control/SwitchExpression.java:78-87 | with an RDD default, the switch's mode is that of a comma expression over the case returns and the default |
| ExecutionModes.SwitchModeKeepsNonRddDefault | src/main/java/org/rumbledb/expressions/control/SwitchExpression.java:78-80 | a default mode other than RDD (DATAFRAME included) is the switch's mode whatever the cases are |
| NodeVisitor.VisitDescendantsAppend | src/main/java/org/rumbledb/expressions/AbstractNodeVisitor.java:80-86 | visiting a + b threads the result of a's children into b's |
| NodeVisitor.VisitDescendantsResult | src/main/java/org/rumbledb/expressions/AbstractNodeVisitor.java:80-86 | with no children the argument comes back unchanged; otherwise the result is the last child's visit of what the others gave |
| NodeVisitor.VisitDescendantsLoop | src/main/java/org/rumbledb/expressions/AbstractNodeVisitor.java:80-86 | the loop gives the descendants traversal: each child visited with the previous child's result |
| NodeVisitor.BaseVisit | src/main/java/org/rumbledb/expressions/AbstractNodeVisitor.java:88-94 | every visit method of the base visitor is the default action: the argument when there are no children, else the last child's visit |
| NodeVisitor.VisitDescendants | src/main/java/org/rumbledb/expressions/AbstractNodeVisitor.java:80-86 | with no children the argument comes back; with one child, that child's visit of the argument |
| NodeVisitor.DefaultAction | src/main/java/org/rumbledb/expressions/AbstractNodeVisitor.java:88-90 | the default action is the descendants traversal: the argument when there are no children, else the last child's visit of what the others produced |
| Expressions.DeclaredFunction | src/main/java/org/rumbledb/expressions/primary/InlineFunctionExpression.java:46-59 | a function declaration holds a named inline function with the declaration's name |
| Expressions.CommaChildrenKeepPresentInOrder | src/main/java/org/rumbledb/expressions/CommaExpression.java:50-61 | getChildren keeps exactly the present sub-expressions, in order, and never more than there are |
| Expressions.ConditionalChildren | src/main/java/org/rumbledb/expressions/control/ConditionalExpression.java:66-73 | a conditional's children are the condition, the then branch and the else branch, in that order |
| Expressions.SwitchChildren | src/main/java/org/rumbledb/expressions/control/SwitchExpression.java:65-74 | a switch's children start with the test and end with the default |
| Expressions.CaseReturnsAreChildren | src/main/java/org/rumbledb/expressions/control/SwitchExpression.java:69-71 | every case's tests and return expression are among the switch's children |
| Expressions.CaseExpressionsSplit | src/main/java/org/rumbledb/expressions/control/SwitchExpression.java:69-71 | the cases' expressions are those of the cases before k, then case k's tests and return expression, then those of the later cases |
| Expressions.CaseReturnOffset | src/main/java/org/rumbledb/expressions/control/SwitchExpression.java:69-71 | case k's return expression sits inside the list of all the cases' expressions |
| Expressions.CaseReturnAtOffset | src/main/java/org/rumbledb/expressions/control/SwitchExpression.java:65-74 | the expression at CaseReturnOffset is case k's return expression, and so is the switch child one place further on, after the test |
| Expressions.Children | src/main/java/org/rumbledb/expressions/primary/InlineFunctionExpression.java:81-84 | an inline function and a variable reference have no children |
| Expressions.InlineFunctionIdentifier | src/main/java/org/rumbledb/expressions/primary/InlineFunctionExpression.java:58 | an inline function's identifier is its name with the number of its parameters as arity |
| StaticContexts.LookupFramesFindsAnyFrame | src/main/java/org/rumbledb/compiler/StaticContextVisitor.java:98 | a name resolves in a chain of frames exactly when some frame of the chain binds it |
| StaticContexts.InScopeIffSomeFrame | src/main/java/org/rumbledb/compiler/StaticContextVisitor.java:98 | isInScope holds exactly when the context's own frame or one of its ancestors binds the name |
| StaticContexts.ChildWithVariable | src/main/java/org/rumbledb/compiler/StaticContextVisitor.java:228-234 | a child context with one variable added resolves that name to the new binding and every other name as the parent does |
| StaticContexts.AddVariableLookup | src/main/java/org/rumbledb/compiler/StaticContextVisitor.java:128-133 | after addVariable the name resolves to the new binding, every other name as before |
| StaticContexts.ChildContext | src/main/java/org/rumbledb/compiler/StaticContextVisitor.java:146 | a new context has an empty frame of its own, resolves every name as its parent does and keeps the parent's imports |
| StaticContexts.AddVariable | src/main/java/org/rumbledb/compiler/StaticContextVisitor.java:228-234 | addVariable binds the name in the context's own frame and leaves that frame's other names, the ancestors and the imports as they were |
| StaticContexts.HasVariable | src/main/java/org/rumbledb/compiler/StaticContextVisitor.java:373 | hasVariable looks at the own frame only, and a name it finds resolves to the own frame's binding |
| StaticContexts.Lookup | src/main/java/org/rumbledb/compiler/StaticContextVisitor.java:104-105 | the own frame shadows the ancestors: a name it binds resolves there, any other name is looked up in the ancestors |
| StaticContexts.IsInScope | src/main/java/org/rumbledb/compiler/StaticContextVisitor.java:98 | a name bound in the own frame is in scope; with no ancestors, exactly those names are |
| StaticContexts.ImportModuleContext | src/main/java/org/rumbledb/compiler/StaticContextVisitor.java:389-393 | importing a module records its context under its namespace and leaves the variables alone |
| StaticContexts.Register | src/main/java/org/rumbledb/compiler/StaticContextVisitor.java:196-201 | a registration is appended: the earlier ones are kept in order and the new one comes last |
| StaticContextVisitor.VisitNode | src/main/java/org/rumbledb/compiler/StaticContextVisitor.java:83-92 | a missing context is the internal error "No static context provided!"; otherwise the node's own visit |
| StaticContextVisitor.Visit | src/main/java/org/rumbledb/expressions/AbstractNodeVisitor.java:76-78 | accept dispatches on the node: a variable reference fails exactly when its variable is not in scope, and an empty comma expression is LOCAL and hands its argument on |
| StaticContextVisitor.DefaultAction | src/main/java/org/rumbledb/compiler/StaticContextVisitor.java:75-81 | a child's failure is passed on; otherwise the node has the context and registrations its children left, and its only own failure is the NullPointerException of a comma expression, whose mode is otherwise the comma rule over the children's modes |
| StaticContextVisitor.DefaultMode | src/main/java/org/rumbledb/expressions/CommaExpression.java:63-78 | only a comma expression can fail, with a NullPointerException exactly when a null entry comes before any child that is not isRDD; otherwise a comma expression gets the comma rule over its children's modes, a conditional the rule over its branches, and a switch SwitchMode over the mode of each case's return expression, in case order, and the default's mode |
| StaticContextVisitor.EntryModes | src/main/java/org/rumbledb/expressions/CommaExpression.java:51-61 | the children are the non-null entries in order: putting their modes back in place keeps the nulls where they were and gives back the children's modes in order |
| StaticContextVisitor.NullEntryIsDereferenced | src/main/java/org/rumbledb/expressions/CommaExpression.java:51-78 | a comma expression whose only entry is null visits no child and then fails with a NullPointerException |
| StaticContextVisitor.CaseReturnModes | src/main/java/org/rumbledb/expressions/control/SwitchExpression.java:65-88 | out of the modes of all the cases' expressions, the k-th mode picked is the one at case k's return expression, one per case, in case order: the modes the switch's loop reads |
| StaticContextVisitor.VisitClause | src/main/java/org/rumbledb/compiler/StaticContextVisitor.java:222-299 | a for, let, group-by or count clause pushes one frame onto its argument, and a count clause never fails |
| StaticContextVisitor.VisitDeclaration | src/main/java/org/rumbledb/expressions/AbstractNodeVisitor.java:306-312 | a function declaration hands its argument on, a variable declaration brings its variable into scope, and neither takes a name out of scope |
| StaticContextVisitor.VisitProlog | src/main/java/org/rumbledb/expressions/AbstractNodeVisitor.java:105-107 | the declarations are visited in order, one mode each; afterwards every variable the prolog declares is in scope, and so is every name that was before |
| StaticContextVisitor.VisitMainModule | src/main/java/org/rumbledb/expressions/AbstractNodeVisitor.java:97-99 | the query body is visited in the context the prolog built and hands it on, so every variable the prolog declares is in scope there |
| StaticContextVisitor.VisitAll | src/main/java/org/rumbledb/compiler/StaticContextVisitor.java:75-81 | when the children visit without error there is one mode per child |
| StaticContextVisitor.VisitVariableReference | src/main/java/org/rumbledb/compiler/StaticContextVisitor.java:95-112 | an undeclared variable is an UndeclaredVariableException; otherwise the context is handed on unchanged and the reference takes the innermost binding's storage mode, UNSET read as LOCAL when so configured |
| StaticContextVisitor.ReferenceType | src/main/java/org/rumbledb/compiler/StaticContextVisitor.java:104 | the reference's type is the declared type of the innermost binding |
| StaticContextVisitor.RegisterUserDefinedFunctionExecutionMode | src/main/java/org/rumbledb/expressions/primary/InlineFunctionExpression.java:86-99 | only a named function reports its body's mode to the catalogue, under its name and parameter count |
| StaticContextVisitor.VisitInlineFunctionExpr | src/main/java/org/rumbledb/compiler/StaticContextVisitor.java:158-178 | a function literal hands its argument on, so its parameters stay inside it (corrected; see Findings) |
| StaticContextVisitor.CallSiteModes | src/main/java/org/rumbledb/compiler/StaticContextVisitor.java:185-195 | a partial application reports LOCAL for every argument; any other call reports each argument's mode |
| StaticContextVisitor.VisitFunctionCall | src/main/java/org/rumbledb/compiler/StaticContextVisitor.java:180-205 | a function call hands its argument on unchanged |
| StaticContextVisitor.FunctionCallRegistersCallSite | src/main/java/org/rumbledb/compiler/StaticContextVisitor.java:180-205 | a call of a non-builtin function records exactly one storage-mode registration with the call site's modes; a builtin call records nothing |
| StaticContextVisitor.ClauseChain | src/main/java/org/rumbledb/compiler/StaticContextVisitor.java:211-216 | a FLWOR expression's clause chain is its clauses followed by its return clause |
| StaticContextVisitor.VisitFlworExpression | src/main/java/org/rumbledb/compiler/StaticContextVisitor.java:209-219 | a FLWOR expression hands its argument on, so clause variables do not escape it |
| StaticContextVisitor.VisitClauses | src/main/java/org/rumbledb/compiler/StaticContextVisitor.java:213-216 | when the clauses visit without error there is one mode per clause |
| StaticContextVisitor.VisitForClause | src/main/java/org/rumbledb/compiler/StaticContextVisitor.java:222-245 | the for clause succeeds exactly when its expression does; one new frame binds the variable with its type and, when present, the positional variable as one LOCAL integer; every other name resolves as before |
| StaticContextVisitor.VisitLetClause | src/main/java/org/rumbledb/compiler/StaticContextVisitor.java:247-261 | the let clause succeeds exactly when its expression does; one new frame binds exactly the variable with its type; every other name resolves as before |
| StaticContextVisitor.VisitGroupByClause | src/main/java/org/rumbledb/compiler/StaticContextVisitor.java:263-285 | one new frame binds exactly the grouping variables that have an expression, each LOCAL |
| StaticContextVisitor.VisitGroupVariables | src/main/java/org/rumbledb/compiler/StaticContextVisitor.java:266-282 | a grouping variable without an expression must already be in scope of the argument, else UndeclaredVariableException; one with an expression is added LOCAL |
| StaticContextVisitor.VisitCountClause | src/main/java/org/rumbledb/compiler/StaticContextVisitor.java:287-299 | the count clause always succeeds with a new frame binding the count variable as one LOCAL integer |
| StaticContextVisitor.VisitQuantifiedExpression | src/main/java/org/rumbledb/compiler/StaticContextVisitor.java:304-326 | a quantified expression hands its argument on, so its variables go out of scope |
| StaticContextVisitor.VisitBindings | src/main/java/org/rumbledb/compiler/StaticContextVisitor.java:307-320 | the bindings build one frame per variable, each visited in the chain built so far |
| StaticContextVisitor.QuantifiedConditionSeesBindings | src/main/java/org/rumbledb/compiler/StaticContextVisitor.java:321-322 | the condition is resolved where every bound variable and every outer variable is in scope |
| StaticContextVisitor.BindingChainScope | src/main/java/org/rumbledb/compiler/StaticContextVisitor.java:307-320 | the chain keeps outer variables in scope, brings every bound variable into scope, and is one frame deeper per binding |
| StaticContextVisitor.VisitTypeSwitchExpression | src/main/java/org/rumbledb/compiler/StaticContextVisitor.java:330-364 | a typeswitch hands its argument on, so case variables go out of scope |
| StaticContextVisitor.VisitTypeSwitchCases | src/main/java/org/rumbledb/compiler/StaticContextVisitor.java:333-345 | each case is visited in its own child frame and the argument is handed on |
| StaticContextVisitor.PopulateFunctionDeclarationStaticContext | src/main/java/org/rumbledb/compiler/StaticContextVisitor.java:114-136 | the population fails with IndexOutOfBoundsException exactly when the catalogue reported fewer modes than there are parameters; it adds to the given frame only |
| StaticContextVisitor.VisitFunctionDeclaration | src/main/java/org/rumbledb/compiler/StaticContextVisitor.java:138-156 | a function declaration hands its argument on (corrected; see Findings) and succeeds only when the catalogue reported a mode for every parameter |
| StaticContextVisitor.VisitVariableDeclaration | src/main/java/org/rumbledb/compiler/StaticContextVisitor.java:367-387 | a variable already bound in the argument's own frame is a VariableAlreadyExistsException; otherwise one new frame binds exactly the variable with its declared type |
| StaticContextVisitor.DeclaredVariableScope | src/main/java/org/rumbledb/compiler/StaticContextVisitor.java:367-387 | a declared variable is in scope after its declaration, and declaring it twice raises VariableAlreadyExistsException |
| StaticContextVisitor.ProcessImportedModule | src/main/java/org/rumbledb/compiler/StaticContextVisitor.java:389-393 | importing a module records it and resolves every name as before |
| StaticContextVisitor.VisitKeepsContext | src/main/java/org/rumbledb/compiler/StaticContextVisitor.java:63-393 | every expression visit hands its argument on: no binding escapes an expression (with the corrected function visits; see Findings) |
| StaticContextVisitor.VisitAllKeepsContext | src/main/java/org/rumbledb/compiler/StaticContextVisitor.java:75-81 | visiting a list of expressions hands the argument on |
| StaticContextVisitor.PushedFrameKeepsScope | src/main/java/org/rumbledb/compiler/StaticContextVisitor.java:228 | a context one frame deeper sees everything the outer one sees |
| StaticContextVisitor.ClauseKeepsScope | src/main/java/org/rumbledb/compiler/StaticContextVisitor.java:222-299 | no clause takes a variable out of scope |
| StaticContextVisitor.ClausesKeepScope | src/main/java/org/rumbledb/compiler/StaticContextVisitor.java:213-216 | later clauses see every variable earlier clauses saw |
| StaticContextVisitor.InlineFunctionContextBindsParams | src/main/java/org/rumbledb/compiler/StaticContextVisitor.java:161-170 | the function's frame binds every parameter LOCAL and resolves every other name as the argument |
| StaticContextVisitor.VisitDescendantsKeepsFailure | src/main/java/org/rumbledb/compiler/StaticContextVisitor.java:75-81 | once a child has failed, the traversal keeps that failure |
| StaticContextVisitor.VisitAllIsVisitDescendants | src/main/java/org/rumbledb/compiler/StaticContextVisitor.java:75-81 | the visitor's traversal of children is the base visitor's visitDescendants with the visit as its step |
| StaticContextVisitor.InlineFunctionContextAsWritten | src/main/java/org/rumbledb/compiler/StaticContextVisitor.java:158-178 | as written, the returned context has every parameter in scope |
| StaticContextVisitor.ParameterLeaksToSiblingAsWritten | src/main/java/org/rumbledb/compiler/StaticContextVisitor.java:158-178 | as written, the parameter of (function($x) { $x }, $x) is in scope of the second item; with the argument handed on that $x is undeclared |
| StaticContextVisitor.FunctionDeclarationContextAsWritten | src/main/java/org/rumbledb/compiler/StaticContextVisitor.java:138-156 | as written, the returned context is the frame one deeper than the argument, holding the parameters |
| StaticContextVisitor.ParameterClashesWithLaterDeclarationAsWritten | src/main/java/org/rumbledb/compiler/StaticContextVisitor.java:138-156 | as written, "declare function f($x) { $x }; declare variable $x;" fails with VariableAlreadyExistsException; with the argument handed on it is accepted |
| ForClauses.TuplesForContents | src/main/java/org/rumbledb/runtime/flwor/clauses/ForClauseSparkIterator.java:183-205 | each item of the expression gives one tuple: the input tuple with the variable bound to that item and the positional variable, if any, to its 1-based position; other variables are kept |
| ForClauses.TuplesForEmpty | src/main/java/org/rumbledb/runtime/flwor/clauses/ForClauseSparkIterator.java:208-233 | an empty expression gives one tuple, binding the empty sequence at position 0, exactly when the clause allows empty, and no tuple otherwise |
| ForClauses.ForOutputAppend | src/main/java/org/rumbledb/runtime/flwor/clauses/ForClauseSparkIterator.java:154-176 | the output over consecutive input tuples is the concatenation of their outputs |
| ForClauses.ForOutputUnfold | src/main/java/org/rumbledb/runtime/flwor/clauses/ForClauseSparkIterator.java:161-171 | the output from one input tuple on is that tuple's expansion followed by the output of the rest |
| ForClauses.ForOutputLength | src/main/java/org/rumbledb/runtime/flwor/clauses/ForClauseSparkIterator.java:154-233 | the clause outputs, per input tuple, as many tuples as the expression has items, or one for an allowed empty |
| ForClauses.BindIgnoresPosition | src/main/java/org/rumbledb/runtime/flwor/clauses/ForClauseSparkIterator.java:195-201 | without a positional variable the position counter does not reach the tuple |
| ForClauses.ContinuationIsSuffix | src/main/java/org/rumbledb/runtime/flwor/clauses/ForClauseSparkIterator.java:183-205 | reading on from the k-th item with the position counter at k + 1 gives exactly the rest of that tuple's expansion |
| ForClauses.FreshContinuation | src/main/java/org/rumbledb/runtime/flwor/clauses/ForClauseSparkIterator.java:165-168 | an expression opened with position 1 and the first-item flag set gives exactly the input tuple's expansion |
| ForClauses.ForClauseIterator.constructor | src/main/java/org/rumbledb/runtime/flwor/clauses/ForClauseSparkIterator.java:85-101 | the iterator keeps the clause and starts closed, with nothing to return |
| ForClauses.ForClauseIterator.SetResultFromExpression | src/main/java/org/rumbledb/runtime/flwor/clauses/ForClauseSparkIterator.java:183-234 | the next tuple of the current expression, if any, becomes the next result, and the tuples still to come from the expression shrink by it; otherwise there is no next result and the expression is closed |
| ForClauses.ForClauseIterator.OpenOnNextInput | src/main/java/org/rumbledb/runtime/flwor/clauses/ForClauseSparkIterator.java:162-167 | taking the next input tuple moves its expansion from the child's pending output to the expression's |
| ForClauses.ForClauseIterator.ReadNextInput | src/main/java/org/rumbledb/runtime/flwor/clauses/ForClauseSparkIterator.java:161-170 | one turn of the loop: the next input's first tuple becomes the next result, or the input gives nothing and the pending output is unchanged |
| ForClauses.ForClauseIterator.SetNextLocalTupleResult | src/main/java/org/rumbledb/runtime/flwor/clauses/ForClauseSparkIterator.java:154-176 | the pending tuples are preserved: the next result and the rest are what was pending; when nothing is left the previous clause is closed |
| ForClauses.ForClauseIterator.StartOnChild | src/main/java/org/rumbledb/runtime/flwor/clauses/ForClauseSparkIterator.java:107-112 | a clause after another one will return exactly its output over the child's tuples |
| ForClauses.ForClauseIterator.StartOnExpression | src/main/java/org/rumbledb/runtime/flwor/clauses/ForClauseSparkIterator.java:113-118 | a starting clause will return exactly the expansion of the empty tuple |
| ForClauses.ForClauseIterator.Open | src/main/java/org/rumbledb/runtime/flwor/clauses/ForClauseSparkIterator.java:104-119 | after open the iterator will return exactly the clause's output, in order |
| ForClauses.ForClauseIterator.Next | src/main/java/org/rumbledb/runtime/flwor/clauses/ForClauseSparkIterator.java:140-152 | next returns the first pending tuple and drops it; with nothing pending it raises IteratorFlowException and changes nothing |
| ForClauses.ForClauseIterator.Close | src/main/java/org/rumbledb/runtime/flwor/clauses/ForClauseSparkIterator.java:237-243 | close closes the iterator, the previous clause and the expression |
| ForClauses.ForClauseIterator.ResetAsWritten | src/main/java/org/rumbledb/runtime/flwor/clauses/ForClauseSparkIterator.java:122-137 | as written, reset of a non-starting clause returns first the unread tuples of an expression left open, then the whole output |
| ForClauses.ForClauseIterator.Reset | src/main/java/org/rumbledb/runtime/flwor/clauses/ForClauseSparkIterator.java:122-137 | with the expression closed first, reset returns exactly the clause's whole output again, as open does (corrected; see Findings) |
| ForClauses.ResetReplaysStaleItemsAsWritten | src/main/java/org/rumbledb/runtime/flwor/clauses/ForClauseSparkIterator.java:122-137 | for $x in (1, 2) over one input, read once and reset as written, returns more than the clause's output |
| ForClauses.VariablesBound | src/main/java/org/rumbledb/runtime/flwor/clauses/ForClauseSparkIterator.java:883-893 | the bound variables are the variable, the positional variable if any, and those of the previous clause, and nothing else |
| ForClauses.VariableDependencies | src/main/java/org/rumbledb/runtime/flwor/clauses/ForClauseSparkIterator.java:870-880 | the dependencies are the expression's, without the variables the previous clause binds, overridden by the previous clause's own |
| ForClauses.Projection | src/main/java/org/rumbledb/runtime/flwor/clauses/ForClauseSparkIterator.java:912-946 | a starting clause has no projection; otherwise it holds exactly the expression's dependencies and the parent's variables other than the clause's own |
| ForClauses.ProjectionValues | src/main/java/org/rumbledb/runtime/flwor/clauses/ForClauseSparkIterator.java:934-944 | a variable both need in different ways is asked for in full; otherwise with the kind its only or both consumers need |
| ForClauses.ProjectionDropsOwnVariables | src/main/java/org/rumbledb/runtime/flwor/clauses/ForClauseSparkIterator.java:925-944 | the clause's variable reaches the previous clause only if the expression needs it, with the expression's kind |
| ForClauses.JoinPlanFor | src/main/java/org/rumbledb/runtime/flwor/clauses/ForClauseSparkIterator.java:359-466 | a join is refused with JobWithinAJobException unless the expression is a predicate whose sequence part uses no variable of the FLWOR expression and there is no positional variable |
| ForClauses.ChoosePlan | src/main/java/org/rumbledb/runtime/flwor/clauses/ForClauseSparkIterator.java:246-291 | the plan is the starting-clause plan, a union after a local clause, a parallel evaluation of a local expression, a cartesian product, or a join; it fails exactly when the expression is distributed, uses variables of the FLWOR expression and the join is refused |
| DynamicFunctionCalls.Results | src/main/java/org/rumbledb/runtime/functions/DynamicFunctionCallIterator.java:93-105 | the results are the call's items up to, not including, the first null, which ends the stream |
| DynamicFunctionCalls.ResultsStopAtNull | src/main/java/org/rumbledb/runtime/functions/DynamicFunctionCallIterator.java:99-101 | nothing after a null item is ever delivered, and a stream without nulls is delivered whole |
| DynamicFunctionCalls.SelectedFunctionItem | src/main/java/org/rumbledb/runtime/functions/DynamicFunctionCallIterator.java:110-112 | the first item of the function expression becomes the function item; with no item the previous one is kept |
| DynamicFunctionCalls.FunctionItemError | src/main/java/org/rumbledb/runtime/functions/DynamicFunctionCallIterator.java:107-131 | a non-function item is UnexpectedTypeException "only be performed on functions", a second item UnexpectedTypeException "on a sequence", no item and no earlier function item a NullPointerException; otherwise a function item is selected |
| DynamicFunctionCalls.NonNull | src/main/java/org/rumbledb/runtime/functions/DynamicFunctionCallIterator.java:57-61 | the children hold exactly the non-null arguments |
| DynamicFunctionCalls.BuildChildren | src/main/java/org/rumbledb/runtime/functions/DynamicFunctionCallIterator.java:57-64 | the children are the non-null arguments followed by the function expression unless it is already one of them |
| DynamicFunctionCalls.DynamicFunctionCallIterator.constructor | src/main/java/org/rumbledb/runtime/functions/DynamicFunctionCallIterator.java:50-67 | the children are the non-null arguments followed by the function expression unless already among them; the iterator starts closed with nothing selected or pending |
| DynamicFunctionCalls.DynamicFunctionCallIterator.SetNextResult | src/main/java/org/rumbledb/runtime/functions/DynamicFunctionCallIterator.java:93-105 | there is a next result exactly when the call has one left, and the pending results are kept; at the end the call is closed |
| DynamicFunctionCalls.DynamicFunctionCallIterator.Open | src/main/java/org/rumbledb/runtime/functions/DynamicFunctionCallIterator.java:69-75 | open selects the function item with its errors as above and otherwise builds the call on it |
| DynamicFunctionCalls.DynamicFunctionCallIterator.Next | src/main/java/org/rumbledb/runtime/functions/DynamicFunctionCallIterator.java:77-91 | next returns the first pending result and drops it; with nothing pending it fails, with NullPointerException when no function item was ever selected |
| DynamicFunctionCalls.DynamicFunctionCallIterator.Reset | src/main/java/org/rumbledb/runtime/functions/DynamicFunctionCallIterator.java:134-139 | reset resets the built call under the new context: the iterator then yields the results of that call, which evaluates the arguments again, while the function item stays the one read at open; before any call was built it is a NullPointerException that changes nothing |
| DynamicFunctionCalls.DynamicFunctionCallIterator.Close | src/main/java/org/rumbledb/runtime/functions/DynamicFunctionCallIterator.java:141-149 | close closes the call only when the iterator was open; an open iterator whose first open failed before the call was built raises a NullPointerException and stays open |
| BuiltinFunctionCatalogue.CreateBuiltinFunction | src/main/java/org/rumbledb/runtime/functions/base/BuiltinFunctionCatalogue.java:161-236 | a created definition is named in the Rumble namespace, its arity is its number of parameter types, and it keeps the given types, iterator class and mode |
| BuiltinFunctionCatalogue.NCopies | src/main/java/org/rumbledb/runtime/functions/base/BuiltinFunctionCatalogue.java:962-965 | n copies of a type: length n, every element that type |
| BuiltinFunctionCatalogue.Catalogue.constructor | src/main/java/org/rumbledb/runtime/functions/base/BuiltinFunctionCatalogue.java:1799-1977 | the static table is exactly the empty map after every group of puts before the concat loop, the loop, and every group after it, in source order; it holds only fitting entries, concat under every arity below 100, and both json-file and both substring overloads |
| BuiltinFunctionCatalogue.Catalogue.RegisterBeforeConcat | src/main/java/org/rumbledb/runtime/functions/base/BuiltinFunctionCatalogue.java:1802-1882 | the table afterwards is exactly the earlier one after the groups of puts before the concat loop, in source order; it stays valid, keeps every earlier key, and holds both json-file and both substring overloads |
| BuiltinFunctionCatalogue.Catalogue.RegisterAfterConcat | src/main/java/org/rumbledb/runtime/functions/base/BuiltinFunctionCatalogue.java:1889-1975 | the table afterwards is exactly the earlier one after the groups of puts after the concat loop, in source order; it stays valid and keeps every earlier key and concat's entries |
| BuiltinFunctionCatalogue.Catalogue.Put | src/main/java/org/rumbledb/runtime/functions/base/BuiltinFunctionCatalogue.java:1802 | a put stores the definition under its own identifier and changes no other key |
| BuiltinFunctionCatalogue.Catalogue.PutConcat | src/main/java/org/rumbledb/runtime/functions/base/BuiltinFunctionCatalogue.java:1883-1888 | the table afterwards is exactly the earlier one with concat under arities 0 to 99; no other key is added or changed |
| BuiltinFunctionCatalogue.Catalogue.RegisterContextFunctions | src/main/java/org/rumbledb/runtime/functions/base/BuiltinFunctionCatalogue.java:1802-1803 | the table is the old one with position and last put under their identifiers |
| BuiltinFunctionCatalogue.Catalogue.RegisterInputFunctions | src/main/java/org/rumbledb/runtime/functions/base/BuiltinFunctionCatalogue.java:1805-1820 | the table is the old one with the file readers and parallelize put in order |
| BuiltinFunctionCatalogue.Catalogue.RegisterAggregateFunctions | src/main/java/org/rumbledb/runtime/functions/base/BuiltinFunctionCatalogue.java:1822-1829 | the table is the old one with count, boolean and the aggregates put in order |
| BuiltinFunctionCatalogue.Catalogue.RegisterSequenceFunctions | src/main/java/org/rumbledb/runtime/functions/base/BuiltinFunctionCatalogue.java:1831-1847 | the table is the old one with the sequence functions put in order |
| BuiltinFunctionCatalogue.Catalogue.RegisterNumericFunctions | src/main/java/org/rumbledb/runtime/functions/base/BuiltinFunctionCatalogue.java:1849-1858 | the table is the old one with the numeric functions put in order |
| BuiltinFunctionCatalogue.Catalogue.RegisterMathFunctions | src/main/java/org/rumbledb/runtime/functions/base/BuiltinFunctionCatalogue.java:1860-1873 | the table is the old one with the math functions put in order |
| BuiltinFunctionCatalogue.Catalogue.RegisterStringFunctionsBeforeConcat | src/main/java/org/rumbledb/runtime/functions/base/BuiltinFunctionCatalogue.java:1875-1882 | the table is the old one with the string functions before concat put in order |
| BuiltinFunctionCatalogue.Catalogue.RegisterStringFunctions | src/main/java/org/rumbledb/runtime/functions/base/BuiltinFunctionCatalogue.java:1889-1907 | the table is the old one with the string functions after concat put in order |
| BuiltinFunctionCatalogue.Catalogue.RegisterDurationFunctions | src/main/java/org/rumbledb/runtime/functions/base/BuiltinFunctionCatalogue.java:1909-1917 | the table is the old one with the duration functions put in order |
| BuiltinFunctionCatalogue.Catalogue.RegisterDateTimeFunctions | src/main/java/org/rumbledb/runtime/functions/base/BuiltinFunctionCatalogue.java:1919-1930 | the table is the old one with the dateTime functions put in order |
| BuiltinFunctionCatalogue.Catalogue.RegisterDateFunctions | src/main/java/org/rumbledb/runtime/functions/base/BuiltinFunctionCatalogue.java:1932-1940 | the table is the old one with the date functions put in order |
| BuiltinFunctionCatalogue.Catalogue.RegisterTimeFunctions | src/main/java/org/rumbledb/runtime/functions/base/BuiltinFunctionCatalogue.java:1942-1950 | the table is the old one with the time functions put in order |
| BuiltinFunctionCatalogue.Catalogue.RegisterUriAndBinaryFunctions | src/main/java/org/rumbledb/runtime/functions/base/BuiltinFunctionCatalogue.java:1952-1955 | the table is the old one with anyURI, hexBinary and base64Binary put in order |
| BuiltinFunctionCatalogue.Catalogue.RegisterObjectAndArrayFunctions | src/main/java/org/rumbledb/runtime/functions/base/BuiltinFunctionCatalogue.java:1957-1969 | the table is the old one with the object and array functions put in order |
| BuiltinFunctionCatalogue.Catalogue.RegisterMachineLearningAndTraceFunctions | src/main/java/org/rumbledb/runtime/functions/base/BuiltinFunctionCatalogue.java:1971-1975 | the table is the old one with the machine-learning functions and trace put in order |
| BuiltinFunctionCatalogue.Catalogue.GetBuiltinFunction | src/main/java/org/rumbledb/runtime/functions/base/BuiltinFunctionCatalogue.java:150-155 | a known identifier gives its stored definition; an unknown one is an OurBadException "Unknown builtin function" |
| BuiltinFunctionCatalogue.Catalogue.Exists | src/main/java/org/rumbledb/runtime/functions/base/BuiltinFunctionCatalogue.java:157-159 | exists holds exactly when getBuiltinFunction would return an entry rather than raise |
| BuiltinFunctionCatalogue.EntriesKeyedByOwnIdentifier | src/main/java/org/rumbledb/runtime/functions/base/BuiltinFunctionCatalogue.java:1799-1977 | every key holds the definition created under that very identifier, with as many parameter types as its arity, or is a concat arity holding concat |
| BuiltinFunctionCatalogue.ConcatArities | src/main/java/org/rumbledb/runtime/functions/base/BuiltinFunctionCatalogue.java:958-969 | concat answers every arity from 0 to 99 with its one definition of 100 parameters, and arity 100 itself is unknown |
| BuiltinFunctionCatalogue.OverloadsAreDistinctEntries | src/main/java/org/rumbledb/runtime/functions/base/BuiltinFunctionCatalogue.java:267-280 | json-file with one and with two arguments, and substring with two and with three, are different entries with their own parameter counts |
| BuiltinFunctionCatalogue.ExecutionModesOfDefinitions | src/main/java/org/rumbledb/runtime/functions/base/BuiltinFunctionCatalogue.java:267-590 | the file readers and parallelize run as RDD or DataFrame, json-doc locally, tail, reverse and subsequence in their first argument's mode, count and exists locally |

## Left out

- Spark execution is not modelled: RDDs, DataFrames, the SQL strings and UDFs of the distributed for-clause plans, and `ExistsFunctionIterator`'s `take(1)` path. Only the plan choice and its refusals are modelled.
- File and stream I/O is not modelled. In the JSON decoder, a reader failure is the single input `JsonUnreadable`.
- Java and Kryo serialization is not modelled: `FunctionItem`'s write, read and deepCopy. Neither are `toString` and the iterator-tree printing.
- `StaticContext`, `Functions` and the `RuntimeIterator` base classes are not part of this model. Their operations are modelled as far as the core uses them:
  - frames are looked up through their parents;
  - registrations in the function catalogue are appended;
  - open, reset and close of the base iterator only set the open flag, except that the open inherited by the single-result builtins also sets hasNext, which their next tests first.
- StaticContextVisitor.VisitNode: node kinds outside the core get their execution mode from a rule passed in the configuration.
- StaticContextVisitor.PopulateFunctionDeclarationStaticContext: the catalogue's answer for the parameter modes of a declared function is passed in.
- StaticContextVisitor.VisitFlworExpression: the first clause is visited twice, as written: once in the incoming context and once in the context its first visit built. The model keeps this. In the second visit the clause's expression sees the clause's own variables. With an outer `$x`, in `for $x in $x return $x` the expression's `$x` ends up resolved to the clause's own `$x`, and the call sites in the first clause are registered twice. The model returns the modes and the catalogue of the visit. It does not keep the types written onto each node, so it does not show which visit wrote them last.
- ForClauses.Bind: the position is bound as an integer item, where the Java code creates a long item (ForClauseSparkIterator.java:198 and 228). The model has no separate 64-bit item kind, and positions are not bounded to 64 bits.
- Items.FunctionItem.FromParameters: the Java constructor takes a map from parameter names to types, so its names are distinct and come in the map's iteration order. The model takes the entries as a list in that order and does not require distinct names; a list that repeats a name has no Java counterpart, since putting a name twice into the map keeps only the last type.
- DateTimeItems.GetDateTimeFromString: the Joda-Time parser and the UTC field retention are passed in as functions. The parser may fail on a string the pattern accepts (a day the month does not have, such as "2019-02-30T10:20:30Z"); which strings it refuses is the parser's business and is not modelled, only that its error is passed on. Date and time arithmetic is not modelled.
- DateTimeItems.CompareItem: the type name in the error message uses the JSONiq type names of `Names.TypeName`.
- StringFunctions.Substring2: start and length are taken as integer-valued. `Math.round` on a fractional double is not modelled, because floating point is out of scope.
- StringFunctions.Substring3: start and length are taken as integer-valued, for the same reason.
- StringFunctions.ApplyTable: characters are Unicode scalar values. Java reads the input by code point and casts each one to a 16-bit `char`, so a character above U+FFFF is truncated to its low 16 bits: `translate("\u{1F600}", "", "")` gives "\uF600" in Java, where the model keeps the character. The truncation is not modelled.
- StringFunctions.Translate: the same gap for input above U+FFFF. In addition, Java builds the table from the UTF-16 code units of the map and translation strings, so a character above U+FFFF in those strings counts as two positions there and as one in the model.
- StringFunctions.BuildTranslationTable: the table is keyed by Unicode scalar values, not by UTF-16 code units, for the same reason.
- StringFunctions.JavaSubstring: indices count Unicode scalar values, where `String.substring` counts UTF-16 code units. On text above U+FFFF Java may split a surrogate pair: `substring("\u{1F600}a", 2)` gives Java a lone low surrogate followed by "a", where the model gives "a".
- StringFunctions.Substring2AsWritten: the start index counts Unicode scalar values, not UTF-16 code units, so its results and its StringIndexOutOfBoundsException bound differ from Java on text above U+FFFF.
- StringFunctions.Substring3AsWritten: start and end count Unicode scalar values, not UTF-16 code units, with the same difference on text above U+FFFF.
- Base.ParseInt: only the ASCII digits 0-9 are digits. Java's `Integer.parseInt` also accepts every other Unicode decimal digit, for example the Arabic-Indic digits of `--port ٨٠٨٠`. The model rejects such input with a NumberFormatException.
- JsonItemParser.NumberItem: a double or float is kept as its lexeme or as the column's text. IEEE-754 conversion is not modelled.
- JsonItemParser.AddValue: a timestamp cell already holds its dateTime value. The conversion from a Spark `Timestamp` to a Joda-Time value is not modelled.
- JsonItemParser.NullElementIsDereferenced: a null element of a string array column is modelled as a NullPointerException. Java instead builds a string item that holds null, which fails only when it is later used.
- Items.Serialize: an object item serializes as `{ "key" : value, ... }`. The object item class is not part of this model.
- Equality of atomic items: items other than dateTime, arrays and functions are equal when they are of the same kind and hold the same value.
- BuiltinFunctionCatalogue.Catalogue.GetBuiltinFunction: the message of the OurBadException omits the identifier's text. `FunctionIdentifier.toString` is not part of this model.
- ForClauses.VariableDependencies: the kinds of variable dependency are taken as FULL, COUNT, SUM, AVG, MAX and MIN.
- RuntimeConfiguration.RumbleRuntimeConfiguration.GetExternalVariableValue: the variable's name is taken as its text. `Name.toString` is not part of this model.
- FunctionItem's RDD and DataFrame closure values are opaque handles, and the closure map is keyed by name.
- Floating-point builtins such as number and pi are not modelled. Neither are the legacy scaffolding classes.
- Concurrency is not modelled, because the code concerned is single-threaded.

## Findings

| source | as written | input that shows it | evidently intended | confidence | as-written member | corrected member |
|---|---|---|---|---|---|---|
| src/main/java/org/rumbledb/compiler/StaticContextVisitor.java:158-178 | visitInlineFunctionExpr returns the function's own context, which holds its parameters, so they stay in scope for the expressions that follow the literal | `(function($x) { $x }, $x)`: the second `$x` is accepted although no `$x` is declared outside the function | a function literal hands its incoming context on, so its parameters are visible only in its body | not executed; high | StaticContextVisitor.ParameterLeaksToSiblingAsWritten | StaticContextVisitor.VisitInlineFunctionExpr |
| src/main/java/org/rumbledb/compiler/StaticContextVisitor.java:138-156 | visitFunctionDeclaration returns the frame holding the function's parameters, so a later prolog declaration sees them | `declare function f($x) { $x }; declare variable $x external;` raises VariableAlreadyExistsException | a function declaration hands the prolog context on unchanged | not executed; high | StaticContextVisitor.ParameterClashesWithLaterDeclarationAsWritten | StaticContextVisitor.VisitFunctionDeclaration |
| src/main/java/org/rumbledb/runtime/functions/strings/SubstringFunctionIterator.java:64-83 | the two-argument form takes `substring(index)` with the zero-based index unclamped | `substring("abc", 0)`: the index is -1 and StringIndexOutOfBoundsException is raised | "abc", with the start clamped at the first character as in the three-argument form | not executed; high | StringFunctions.Substring2ZeroStartFailsAsWritten | StringFunctions.Substring2 |
| src/main/java/org/rumbledb/runtime/functions/strings/SubstringFunctionIterator.java:77-81 | when start and length are both far below 1, the end index is negative but not below the start index, and `substring(0, end)` is called | `substring("abc", -5, 2)`: the index is -6, the end is -4, and StringIndexOutOfBoundsException is raised | "" (no character position lies in the window) | not executed; high | StringFunctions.Substring3BeforeStartFailsAsWritten | StringFunctions.Substring3 |
| src/main/java/org/rumbledb/runtime/flwor/clauses/ForClauseSparkIterator.java:122-137 | reset of a non-starting clause resets the previous clause but does not close an assignment iterator left open, so setNextLocalTupleResult reads on from it first | `for $x in (1, 2)` over one input tuple, read once and then reset: $x = 2 is returned before the whole output again | reset returns exactly the clause's output again, as open does | not executed; medium | ForClauses.ResetReplaysStaleItemsAsWritten | ForClauses.ForClauseIterator.Reset |
