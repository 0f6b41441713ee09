// The builtin function catalogue: one definition per builtin function and
// arity, and the static table from function identifiers to definitions that
// the compiler and the runtime look builtin calls up in.

module BuiltinFunctionCatalogue {
  import opened Base
  import opened Names

  /** Where a builtin function's iterator runs, or whose mode it takes. */
  datatype ExecutionMode =
    | Local
    | Rdd
    | DataFrame
    | InheritFromFirstArgument
    | InheritFromFirstArgumentButDataFrameFallsBackToLocal

  /** Parameter and return types, written as the sequence-type strings of the definitions. */
  datatype BuiltinSignature = BuiltinSignature(parameterTypes: seq<string>, returnType: string)

  /** A builtin function: its identifier, signature, iterator class and execution mode. */
  datatype BuiltinFunction = BuiltinFunction(
    identifier: FunctionIdentifier,
    signature: BuiltinSignature,
    iteratorClass: string,
    executionMode: ExecutionMode)

  /** What the createBuiltinFunction overloads produce: a Rumble-namespace name and one parameter type per argument, at most three. */
  predicate IsCreated(f: BuiltinFunction)
  {
    && f.identifier.name.Some? && f.identifier.name.value.namespace == RumbleNamespace
    && f.identifier.arity == |f.signature.parameterTypes| <= 3
  }

  type CreatedFunction = f: BuiltinFunction | IsCreated(f)
    witness BuiltinFunction(FunctionIdentifier(Some(RumbleName("position")), 0), BuiltinSignature([], "integer?"),
                            "PositionFunctionIterator", Local)

  /** The name concat is registered under. */
  const ConcatName: Name := RumbleName("concat")

  /**
   * The definitions the static initializer puts under their own
   * identifiers: all come from createBuiltinFunction and none is concat.
   */
  type RegisteredDefinition = f: CreatedFunction | f.identifier.name != Some(ConcatName)
    witness BuiltinFunction(FunctionIdentifier(Some(RumbleName("position")), 0), BuiltinSignature([], "integer?"),
                            "PositionFunctionIterator", Local)

  /**
   * createBuiltinFunction, its four overloads for zero to three
   * parameters: the identifier's arity is the number of parameter types.
   */
  function CreateBuiltinFunction(localName: string, parameterTypes: seq<string>, returnType: string,
                                 iteratorClass: string, mode: ExecutionMode): (f: CreatedFunction)
    requires |parameterTypes| <= 3
    ensures f.identifier == FunctionIdentifier(Some(RumbleName(localName)), |parameterTypes|)
    ensures f.signature.parameterTypes == parameterTypes && f.signature.returnType == returnType
    ensures f.iteratorClass == iteratorClass && f.executionMode == mode
  {
    BuiltinFunction(FunctionIdentifier(Some(RumbleName(localName)), |parameterTypes|),
                    BuiltinSignature(parameterTypes, returnType), iteratorClass, mode)
  }

  // ---------------------------------------------------------------------
  // The definitions, in declaration order

  const Position: RegisteredDefinition := CreateBuiltinFunction("position", [], "integer?", "PositionFunctionIterator", Local)
  const Last: RegisteredDefinition := CreateBuiltinFunction("last", [], "integer?", "LastFunctionIterator", Local)
  const JsonFile1: RegisteredDefinition := CreateBuiltinFunction("json-file", ["string"], "item*", "JsonFileFunctionIterator", Rdd)
  const JsonFile2: RegisteredDefinition := CreateBuiltinFunction("json-file", ["string", "integer?"], "item*", "JsonFileFunctionIterator", Rdd)
  const StructuredJsonFile: RegisteredDefinition := CreateBuiltinFunction("structured-json-file", ["string"], "item*", "StructuredJsonFileFunctionIterator", DataFrame)
  const LibsvmFile: RegisteredDefinition := CreateBuiltinFunction("libsvm-file", ["string"], "item*", "LibSVMFileFunctionIterator", DataFrame)
  const JsonDoc: RegisteredDefinition := CreateBuiltinFunction("json-doc", ["string"], "item*", "JsonDocFunctionIterator", Local)
  const TextFile1: RegisteredDefinition := CreateBuiltinFunction("text-file", ["string"], "item*", "TextFileFunctionIterator", Rdd)
  const TextFile2: RegisteredDefinition := CreateBuiltinFunction("text-file", ["string", "integer?"], "item*", "TextFileFunctionIterator", Rdd)
  const ParallelizeFunction1: RegisteredDefinition := CreateBuiltinFunction("parallelize", ["item*"], "item*", "ParallelizeFunctionIterator", Rdd)
  const ParallelizeFunction2: RegisteredDefinition := CreateBuiltinFunction("parallelize", ["item*", "integer"], "item*", "ParallelizeFunctionIterator", Rdd)
  const ParquetFile: RegisteredDefinition := CreateBuiltinFunction("parquet-file", ["string"], "item*", "ParquetFileFunctionIterator", DataFrame)
  const CsvFile1: RegisteredDefinition := CreateBuiltinFunction("csv-file", ["string"], "item*", "CSVFileFunctionIterator", DataFrame)
  const CsvFile2: RegisteredDefinition := CreateBuiltinFunction("csv-file", ["string", "object"], "item*", "CSVFileFunctionIterator", DataFrame)
  const AvroFile1: RegisteredDefinition := CreateBuiltinFunction("avro-file", ["string"], "item*", "AvroFileFunctionIterator", DataFrame)
  const AvroFile2: RegisteredDefinition := CreateBuiltinFunction("avro-file", ["string", "object"], "item*", "AvroFileFunctionIterator", DataFrame)
  const RootFile1: RegisteredDefinition := CreateBuiltinFunction("root-file", ["string"], "item*", "RootFileFunctionIterator", DataFrame)
  const RootFile2: RegisteredDefinition := CreateBuiltinFunction("root-file", ["string", "string"], "item*", "RootFileFunctionIterator", DataFrame)
  const Count: RegisteredDefinition := CreateBuiltinFunction("count", ["item*"], "integer", "CountFunctionIterator", Local)
  const BooleanFunction: RegisteredDefinition := CreateBuiltinFunction("boolean", ["item*"], "boolean", "BooleanFunctionIterator", Local)
  const Min: RegisteredDefinition := CreateBuiltinFunction("min", ["item*"], "atomic?", "MinFunctionIterator", Local)
  const Max: RegisteredDefinition := CreateBuiltinFunction("max", ["item*"], "atomic?", "MaxFunctionIterator", Local)
  const Avg: RegisteredDefinition := CreateBuiltinFunction("avg", ["item*"], "atomic?", "AvgFunctionIterator", Local)
  const Sum1: RegisteredDefinition := CreateBuiltinFunction("sum", ["item*"], "atomic?", "SumFunctionIterator", Local)
  const Sum2: RegisteredDefinition := CreateBuiltinFunction("sum", ["item*", "item?"], "atomic?", "SumFunctionIterator", Local)
  const Empty: RegisteredDefinition := CreateBuiltinFunction("empty", ["item*"], "boolean", "EmptyFunctionIterator", Local)
  const ExistsFunction: RegisteredDefinition := CreateBuiltinFunction("exists", ["item*"], "boolean", "ExistsFunctionIterator", Local)
  const Head: RegisteredDefinition := CreateBuiltinFunction("head", ["item*"], "item?", "HeadFunctionIterator", Local)
  const Tail: RegisteredDefinition := CreateBuiltinFunction("tail", ["item*"], "item*", "TailFunctionIterator", InheritFromFirstArgument)
  const InsertBefore: RegisteredDefinition := CreateBuiltinFunction("insert-before", ["item*", "integer", "item*"], "item*", "InsertBeforeFunctionIterator", InheritFromFirstArgument)
  const Remove: RegisteredDefinition := CreateBuiltinFunction("remove", ["item*", "integer"], "item*", "RemoveFunctionIterator", InheritFromFirstArgument)
  const Reverse: RegisteredDefinition := CreateBuiltinFunction("reverse", ["item*"], "item*", "ReverseFunctionIterator", InheritFromFirstArgument)
  const Subsequence2: RegisteredDefinition := CreateBuiltinFunction("subsequence", ["item*", "double"], "item*", "SubsequenceFunctionIterator", InheritFromFirstArgument)
  const Subsequence3: RegisteredDefinition := CreateBuiltinFunction("subsequence", ["item*", "double", "double"], "item*", "SubsequenceFunctionIterator", InheritFromFirstArgument)
  const ZeroOrOneFunction: RegisteredDefinition := CreateBuiltinFunction("zero-or-one", ["item*"], "item?", "ZeroOrOneIterator", Local)
  const OneOrMoreFunction: RegisteredDefinition := CreateBuiltinFunction("one-or-more", ["item*"], "item+", "OneOrMoreIterator", InheritFromFirstArgument)
  const ExactlyOneFunction: RegisteredDefinition := CreateBuiltinFunction("exactly-one", ["item*"], "item", "ExactlyOneIterator", Local)
  const DistinctValues: RegisteredDefinition := CreateBuiltinFunction("distinct-values", ["item*"], "atomic*", "DistinctValuesFunctionIterator", InheritFromFirstArgument)
  const IndexOf: RegisteredDefinition := CreateBuiltinFunction("index-of", ["atomic*", "atomic"], "integer*", "IndexOfFunctionIterator", InheritFromFirstArgument)
  const DeepEqual: RegisteredDefinition := CreateBuiltinFunction("deep-equal", ["item*", "item*"], "boolean", "DeepEqualFunctionIterator", Local)
  const IntegerFunction: RegisteredDefinition := CreateBuiltinFunction("integer", ["item?"], "integer?", "IntegerFunctionIterator", Local)
  const DoubleFunction: RegisteredDefinition := CreateBuiltinFunction("double", ["item?"], "double?", "DoubleFunctionIterator", Local)
  const DecimalFunction: RegisteredDefinition := CreateBuiltinFunction("decimal", ["item?"], "decimal?", "DecimalFunctionIterator", Local)
  const Abs: RegisteredDefinition := CreateBuiltinFunction("abs", ["double?"], "double?", "AbsFunctionIterator", Local)
  const Ceiling: RegisteredDefinition := CreateBuiltinFunction("ceiling", ["double?"], "double?", "CeilingFunctionIterator", Local)
  const Floor: RegisteredDefinition := CreateBuiltinFunction("floor", ["double?"], "double?", "FloorFunctionIterator", Local)
  const Round1: RegisteredDefinition := CreateBuiltinFunction("round", ["double?"], "double?", "RoundFunctionIterator", Local)
  const Round2: RegisteredDefinition := CreateBuiltinFunction("round", ["double?", "integer"], "double?", "RoundFunctionIterator", Local)
  const RoundHalfToEven1: RegisteredDefinition := CreateBuiltinFunction("round-half-to-even", ["double?"], "double?", "RoundHalfToEvenFunctionIterator", Local)
  const RoundHalfToEven2: RegisteredDefinition := CreateBuiltinFunction("round-half-to-even", ["double?", "integer"], "double?", "RoundHalfToEvenFunctionIterator", Local)
  const Pi: RegisteredDefinition := CreateBuiltinFunction("pi", [], "double?", "PiFunctionIterator", Local)
  const Exp: RegisteredDefinition := CreateBuiltinFunction("exp", ["double?"], "double?", "ExpFunctionIterator", Local)
  const Exp10: RegisteredDefinition := CreateBuiltinFunction("exp10", ["double?"], "double?", "Exp10FunctionIterator", Local)
  const Log: RegisteredDefinition := CreateBuiltinFunction("log", ["double?"], "double?", "LogFunctionIterator", Local)
  const Log10: RegisteredDefinition := CreateBuiltinFunction("log10", ["double?"], "double?", "Log10FunctionIterator", Local)
  const Pow: RegisteredDefinition := CreateBuiltinFunction("pow", ["double?", "double"], "double?", "PowFunctionIterator", Local)
  const Sqrt: RegisteredDefinition := CreateBuiltinFunction("sqrt", ["double?"], "double?", "SqrtFunctionIterator", Local)
  const Sin: RegisteredDefinition := CreateBuiltinFunction("sin", ["double?"], "double?", "SinFunctionIterator", Local)
  const Cos: RegisteredDefinition := CreateBuiltinFunction("cos", ["double?"], "double?", "CosFunctionIterator", Local)
  const Tan: RegisteredDefinition := CreateBuiltinFunction("tan", ["double?"], "double?", "TanFunctionIterator", Local)
  const Asin: RegisteredDefinition := CreateBuiltinFunction("asin", ["double?"], "double?", "ASinFunctionIterator", Local)
  const Acos: RegisteredDefinition := CreateBuiltinFunction("acos", ["double?"], "double?", "ACosFunctionIterator", Local)
  const Atan: RegisteredDefinition := CreateBuiltinFunction("atan", ["double?"], "double?", "ATanFunctionIterator", Local)
  const Atan2: RegisteredDefinition := CreateBuiltinFunction("atan2", ["double", "double"], "double", "ATan2FunctionIterator", Local)
  const StringFunction: RegisteredDefinition := CreateBuiltinFunction("string", ["item?"], "string?", "StringFunctionIterator", Local)
  const Substring2: RegisteredDefinition := CreateBuiltinFunction("substring", ["string?", "double"], "string", "SubstringFunctionIterator", Local)
  const Substring3: RegisteredDefinition := CreateBuiltinFunction("substring", ["string?", "double", "double"], "string", "SubstringFunctionIterator", Local)
  const SubstringBefore: RegisteredDefinition := CreateBuiltinFunction("substring-before", ["string?", "string?"], "string", "SubstringBeforeFunctionIterator", Local)
  const SubstringAfter: RegisteredDefinition := CreateBuiltinFunction("substring-after", ["string?", "string?"], "string", "SubstringAfterFunctionIterator", Local)
  const CodepointsToString: RegisteredDefinition := CreateBuiltinFunction("codepoints-to-string", ["integer*"], "string", "CodepointsToStringFunctionIterator", Local)
  const StringToCodepoints: RegisteredDefinition := CreateBuiltinFunction("string-to-codepoints", ["string?"], "integer*", "StringToCodepointsFunctionIterator", Local)
  const CodepointEqual: RegisteredDefinition := CreateBuiltinFunction("codepoint-equal", ["string?", "string?"], "boolean?", "CodepointEqualFunctionIterator", Local)
  const StringJoin1: RegisteredDefinition := CreateBuiltinFunction("string-join", ["string*"], "string", "StringJoinFunctionIterator", Local)
  const StringJoin2: RegisteredDefinition := CreateBuiltinFunction("string-join", ["string*", "string"], "string", "StringJoinFunctionIterator", Local)
  const Replace: RegisteredDefinition := CreateBuiltinFunction("replace", ["string?", "string", "string"], "string", "ReplaceFunctionIterator", Local)
  const StringLength: RegisteredDefinition := CreateBuiltinFunction("string-length", ["string?"], "integer", "StringLengthFunctionIterator", Local)
  const Tokenize1: RegisteredDefinition := CreateBuiltinFunction("tokenize", ["string?"], "string*", "TokenizeFunctionIterator", Local)
  const Tokenize2: RegisteredDefinition := CreateBuiltinFunction("tokenize", ["string?", "string"], "string*", "TokenizeFunctionIterator", Local)
  const LowerCase: RegisteredDefinition := CreateBuiltinFunction("lower-case", ["string?"], "string", "LowerCaseFunctionIterator", Local)
  const UpperCase: RegisteredDefinition := CreateBuiltinFunction("upper-case", ["string?"], "string", "UpperCaseFunctionIterator", Local)
  const Translate: RegisteredDefinition := CreateBuiltinFunction("translate", ["string?", "string", "string"], "string", "TranslateFunctionIterator", Local)
  const NormalizeUnicode1: RegisteredDefinition := CreateBuiltinFunction("normalize-unicode", ["string?"], "string", "NormalizeUnicodeFunctionIterator", Local)
  const NormalizeUnicode2: RegisteredDefinition := CreateBuiltinFunction("normalize-unicode", ["string?", "string"], "string", "NormalizeUnicodeFunctionIterator", Local)
  const EncodeForUri: RegisteredDefinition := CreateBuiltinFunction("encode-for-uri", ["string?"], "string", "EncodeForURIFunctionIterator", Local)
  const EndsWith: RegisteredDefinition := CreateBuiltinFunction("ends-with", ["string?", "string?"], "boolean", "EndsWithFunctionIterator", Local)
  const StartsWithFunction: RegisteredDefinition := CreateBuiltinFunction("starts-with", ["string?", "string?"], "boolean", "StartsWithFunctionIterator", Local)
  const Contains: RegisteredDefinition := CreateBuiltinFunction("contains", ["string?", "string?"], "boolean", "ContainsFunctionIterator", Local)
  const Matches: RegisteredDefinition := CreateBuiltinFunction("matches", ["string?", "string"], "boolean", "MatchesFunctionIterator", Local)
  const NormalizeSpace: RegisteredDefinition := CreateBuiltinFunction("normalize-space", ["string?"], "string", "NormalizeSpaceFunctionIterator", Local)
  const Serialize: RegisteredDefinition := CreateBuiltinFunction("serialize", ["item*"], "string", "SerializeFunctionIterator", Local)
  const Number: RegisteredDefinition := CreateBuiltinFunction("number", ["atomic?"], "double", "NumberFunctionIterator", Local)
  const Duration: RegisteredDefinition := CreateBuiltinFunction("duration", ["string?"], "duration?", "DurationFunctionIterator", Local)
  const YearMonthDuration: RegisteredDefinition := CreateBuiltinFunction("yearMonthDuration", ["string?"], "yearMonthDuration?", "YearMonthDurationFunctionIterator", Local)
  const DayTimeDuration: RegisteredDefinition := CreateBuiltinFunction("dayTimeDuration", ["string?"], "dayTimeDuration?", "DayTimeDurationFunctionIterator", Local)
  const YearsFromDuration: RegisteredDefinition := CreateBuiltinFunction("years-from-duration", ["duration?"], "integer?", "YearsFromDurationFunctionIterator", Local)
  const MonthsFromDuration: RegisteredDefinition := CreateBuiltinFunction("months-from-duration", ["duration?"], "integer?", "MonthsFromDurationFunctionIterator", Local)
  const DaysFromDuration: RegisteredDefinition := CreateBuiltinFunction("days-from-duration", ["duration?"], "integer?", "DaysFromDurationFunctionIterator", Local)
  const HoursFromDuration: RegisteredDefinition := CreateBuiltinFunction("hours-from-duration", ["duration?"], "integer?", "HoursFromDurationFunctionIterator", Local)
  const MinutesFromDuration: RegisteredDefinition := CreateBuiltinFunction("minutes-from-duration", ["duration?"], "integer?", "MinutesFromDurationFunctionIterator", Local)
  const SecondsFromDuration: RegisteredDefinition := CreateBuiltinFunction("seconds-from-duration", ["duration?"], "decimal?", "SecondsFromDurationFunctionIterator", Local)
  const DateTime: RegisteredDefinition := CreateBuiltinFunction("dateTime", ["string?"], "dateTime?", "DateTimeFunctionIterator", Local)
  const CurrentDateTime: RegisteredDefinition := CreateBuiltinFunction("current-dateTime", [], "dateTime?", "CurrentDateTimeFunctionIterator", Local)
  const FormatDateTime: RegisteredDefinition := CreateBuiltinFunction("format-dateTime", ["dateTime?", "string"], "string?", "FormatDateTimeFunctionIterator", Local)
  const YearFromDateTime: RegisteredDefinition := CreateBuiltinFunction("year-from-dateTime", ["dateTime?"], "integer?", "YearFromDateTimeFunctionIterator", Local)
  const MonthFromDateTime: RegisteredDefinition := CreateBuiltinFunction("month-from-dateTime", ["dateTime?"], "integer?", "MonthFromDateTimeFunctionIterator", Local)
  const DayFromDateTime: RegisteredDefinition := CreateBuiltinFunction("day-from-dateTime", ["dateTime?"], "integer?", "DayFromDateTimeFunctionIterator", Local)
  const HoursFromDateTime: RegisteredDefinition := CreateBuiltinFunction("hours-from-dateTime", ["dateTime?"], "integer?", "HoursFromDateTimeFunctionIterator", Local)
  const MinutesFromDateTime: RegisteredDefinition := CreateBuiltinFunction("minutes-from-dateTime", ["dateTime?"], "integer?", "MinutesFromDateTimeFunctionIterator", Local)
  const SecondsFromDateTime: RegisteredDefinition := CreateBuiltinFunction("seconds-from-dateTime", ["dateTime?"], "decimal?", "SecondsFromDateTimeFunctionIterator", Local)
  const TimezoneFromDateTime: RegisteredDefinition := CreateBuiltinFunction("timezone-from-dateTime", ["dateTime?"], "dayTimeDuration?", "TimezoneFromDateTimeFunctionIterator", Local)
  const AdjustDateTimeToTimezone1: RegisteredDefinition := CreateBuiltinFunction("adjust-dateTime-to-timezone", ["dateTime?"], "dateTime?", "AdjustDateTimeToTimezone", Local)
  const AdjustDateTimeToTimezone2: RegisteredDefinition := CreateBuiltinFunction("adjust-dateTime-to-timezone", ["dateTime?", "dayTimeDuration?"], "dateTime?", "AdjustDateTimeToTimezone", Local)
  const Date: RegisteredDefinition := CreateBuiltinFunction("date", ["string?"], "date?", "DateFunctionIterator", Local)
  const CurrentDate: RegisteredDefinition := CreateBuiltinFunction("current-date", [], "date?", "CurrentDateFunctionIterator", Local)
  const FormatDate: RegisteredDefinition := CreateBuiltinFunction("format-date", ["date?", "string"], "string?", "FormatDateFunctionIterator", Local)
  const YearFromDate: RegisteredDefinition := CreateBuiltinFunction("year-from-date", ["date?"], "integer?", "YearFromDateFunctionIterator", Local)
  const MonthFromDate: RegisteredDefinition := CreateBuiltinFunction("month-from-date", ["date?"], "integer?", "MonthFromDateFunctionIterator", Local)
  const DayFromDate: RegisteredDefinition := CreateBuiltinFunction("day-from-date", ["date?"], "integer?", "DayFromDateFunctionIterator", Local)
  const TimezoneFromDate: RegisteredDefinition := CreateBuiltinFunction("timezone-from-date", ["date?"], "dayTimeDuration?", "TimezoneFromDateFunctionIterator", Local)
  const AdjustDateToTimezone1: RegisteredDefinition := CreateBuiltinFunction("adjust-date-to-timezone", ["date?"], "date?", "AdjustDateToTimezone", Local)
  const AdjustDateToTimezone2: RegisteredDefinition := CreateBuiltinFunction("adjust-date-to-timezone", ["date?", "dayTimeDuration?"], "date?", "AdjustDateToTimezone", Local)
  const Time: RegisteredDefinition := CreateBuiltinFunction("time", ["string?"], "time?", "TimeFunctionIterator", Local)
  const CurrentTime: RegisteredDefinition := CreateBuiltinFunction("current-time", [], "time?", "CurrentTimeFunctionIterator", Local)
  const FormatTime: RegisteredDefinition := CreateBuiltinFunction("format-time", ["time?", "string"], "string?", "FormatTimeFunctionIterator", Local)
  const HoursFromTime: RegisteredDefinition := CreateBuiltinFunction("hours-from-time", ["time?"], "integer?", "HoursFromTimeFunctionIterator", Local)
  const MinutesFromTime: RegisteredDefinition := CreateBuiltinFunction("minutes-from-time", ["time?"], "integer?", "MinutesFromTimeFunctionIterator", Local)
  const SecondsFromTime: RegisteredDefinition := CreateBuiltinFunction("seconds-from-time", ["time?"], "decimal?", "SecondsFromTimeFunctionIterator", Local)
  const TimezoneFromTime: RegisteredDefinition := CreateBuiltinFunction("timezone-from-time", ["time?"], "dayTimeDuration?", "TimezoneFromTimeFunctionIterator", Local)
  const AdjustTimeToTimezone1: RegisteredDefinition := CreateBuiltinFunction("adjust-time-to-timezone", ["time?"], "time?", "AdjustTimeToTimezone", Local)
  const AdjustTimeToTimezone2: RegisteredDefinition := CreateBuiltinFunction("adjust-time-to-timezone", ["time?", "dayTimeDuration?"], "time?", "AdjustTimeToTimezone", Local)
  const AnyURI: RegisteredDefinition := CreateBuiltinFunction("anyURI", ["atomic?"], "anyURI?", "AnyURIFunctionIterator", Local)
  const HexBinary: RegisteredDefinition := CreateBuiltinFunction("hexBinary", ["string?"], "hexBinary?", "HexBinaryFunctionIterator", Local)
  const Base64Binary: RegisteredDefinition := CreateBuiltinFunction("base64Binary", ["string?"], "base64Binary?", "Base64BinaryFunctionIterator", Local)
  const Keys: RegisteredDefinition := CreateBuiltinFunction("keys", ["item*"], "item*", "ObjectKeysFunctionIterator", InheritFromFirstArgumentButDataFrameFallsBackToLocal)
  const Members: RegisteredDefinition := CreateBuiltinFunction("members", ["item*"], "item*", "ArrayMembersFunctionIterator", Local)
  const NullFunction: RegisteredDefinition := CreateBuiltinFunction("null", [], "null?", "NullFunctionIterator", Local)
  const Size: RegisteredDefinition := CreateBuiltinFunction("size", ["array?"], "integer?", "ArraySizeFunctionIterator", Local)
  const Accumulate: RegisteredDefinition := CreateBuiltinFunction("accumulate", ["item*"], "object", "ObjectAccumulateFunctionIterator", Local)
  const DescendantArrays: RegisteredDefinition := CreateBuiltinFunction("descendant-arrays", ["item*"], "item*", "ArrayDescendantFunctionIterator", InheritFromFirstArgument)
  const DescendantObjects: RegisteredDefinition := CreateBuiltinFunction("descendant-objects", ["item*"], "item*", "ObjectDescendantFunctionIterator", InheritFromFirstArgument)
  const DescendantPairs: RegisteredDefinition := CreateBuiltinFunction("descendant-pairs", ["item*"], "item*", "ObjectDescendantPairsFunctionIterator", Local)
  const Flatten: RegisteredDefinition := CreateBuiltinFunction("flatten", ["item*"], "item*", "ArrayFlattenFunctionIterator", InheritFromFirstArgument)
  const Intersect: RegisteredDefinition := CreateBuiltinFunction("intersect", ["item*"], "object+", "ObjectIntersectFunctionIterator", InheritFromFirstArgument)
  const Project: RegisteredDefinition := CreateBuiltinFunction("project", ["item*", "string*"], "item*", "ObjectProjectFunctionIterator", InheritFromFirstArgument)
  const RemoveKeys: RegisteredDefinition := CreateBuiltinFunction("remove-keys", ["item*", "string*"], "item*", "ObjectRemoveKeysFunctionIterator", InheritFromFirstArgument)
  const Values: RegisteredDefinition := CreateBuiltinFunction("values", ["item*"], "item*", "ObjectValuesFunctionIterator", InheritFromFirstArgument)
  const GetTransformer: RegisteredDefinition := CreateBuiltinFunction("get-transformer", ["string"], "item", "GetTransformerFunctionIterator", Local)
  const GetEstimator: RegisteredDefinition := CreateBuiltinFunction("get-estimator", ["string"], "item", "GetEstimatorFunctionIterator", Local)
  const Annotate: RegisteredDefinition := CreateBuiltinFunction("annotate", ["item*", "object"], "item*", "AnnotateFunctionIterator", DataFrame)
  const Trace: RegisteredDefinition := CreateBuiltinFunction("trace", ["item*", "string"], "item*", "TraceFunctionIterator", Local)

  /** Collections.nCopies: n copies of one element. */
  function NCopies(n: nat, s: string): (r: seq<string>)
    ensures |r| == n && forall i :: 0 <= i < n ==> r[i] == s
  {
    if n == 0 then [] else NCopies(n - 1, s) + [s]
  }

  /** concat: one definition of arity 100 whose parameters are all "atomic*". */
  const Concat: BuiltinFunction :=
    BuiltinFunction(FunctionIdentifier(Some(ConcatName), 100),
                    BuiltinSignature(NCopies(100, "atomic*"), "string"), "ConcatFunctionIterator", Local)

  // ---------------------------------------------------------------------
  // The static table

  /** The identifier concat is registered under for arity i. */
  function ConcatIdentifier(i: nat): FunctionIdentifier
  {
    FunctionIdentifier(Some(ConcatName), i)
  }

  /** The identifiers of the concat loop: concat with an arity below 100. */
  predicate IsConcatKey(id: FunctionIdentifier)
  {
    id.name == Some(ConcatName) && id.arity < 100
  }

  /** What a key of the table may hold: a definition put under its own identifier, or concat under one of the loop's identifiers. */
  predicate EntryFits(id: FunctionIdentifier, f: BuiltinFunction)
  {
    || (f.identifier == id && IsCreated(f) && f.identifier.name != Some(ConcatName))
    || (IsConcatKey(id) && f == Concat)
  }

  /** The table as the builtin functions are registered: a map from identifier to definition. */
  type Table = map<FunctionIdentifier, BuiltinFunction>

  /** The table after the puts of RegisterContextFunctions, in source order. */
  function ContextFunctionsTable(m: Table): Table
  {
    m[Position.identifier := Position][Last.identifier := Last]
  }

  /** The table after the puts of RegisterInputFunctions, in source order. */
  function InputFunctionsTable(m: Table): Table
  {
    m[JsonFile1.identifier := JsonFile1]
      [JsonFile2.identifier := JsonFile2][StructuredJsonFile.identifier := StructuredJsonFile]
      [LibsvmFile.identifier := LibsvmFile][JsonDoc.identifier := JsonDoc][TextFile1.identifier := TextFile1]
      [TextFile2.identifier := TextFile2][ParallelizeFunction1.identifier := ParallelizeFunction1]
      [ParallelizeFunction2.identifier := ParallelizeFunction2][ParquetFile.identifier := ParquetFile]
      [CsvFile1.identifier := CsvFile1][CsvFile2.identifier := CsvFile2][RootFile1.identifier := RootFile1]
      [RootFile2.identifier := RootFile2][AvroFile1.identifier := AvroFile1][AvroFile2.identifier := AvroFile2]
  }

  /** The table after the puts of RegisterAggregateFunctions, in source order. */
  function AggregateFunctionsTable(m: Table): Table
  {
    m[Count.identifier := Count]
      [BooleanFunction.identifier := BooleanFunction][Min.identifier := Min][Max.identifier := Max]
      [Sum1.identifier := Sum1][Sum2.identifier := Sum2][Avg.identifier := Avg]
  }

  /** The table after the puts of RegisterSequenceFunctions, in source order. */
  function SequenceFunctionsTable(m: Table): Table
  {
    m[Empty.identifier := Empty]
      [ExistsFunction.identifier := ExistsFunction][Head.identifier := Head][Tail.identifier := Tail]
      [InsertBefore.identifier := InsertBefore][Remove.identifier := Remove][Reverse.identifier := Reverse]
      [Subsequence2.identifier := Subsequence2][Subsequence3.identifier := Subsequence3]
      [ZeroOrOneFunction.identifier := ZeroOrOneFunction][OneOrMoreFunction.identifier := OneOrMoreFunction]
      [ExactlyOneFunction.identifier := ExactlyOneFunction][DistinctValues.identifier := DistinctValues]
      [IndexOf.identifier := IndexOf][DeepEqual.identifier := DeepEqual]
  }

  /** The table after the puts of RegisterNumericFunctions, in source order. */
  function NumericFunctionsTable(m: Table): Table
  {
    m[IntegerFunction.identifier := IntegerFunction]
      [DecimalFunction.identifier := DecimalFunction][DoubleFunction.identifier := DoubleFunction]
      [Abs.identifier := Abs][Ceiling.identifier := Ceiling][Floor.identifier := Floor][Round1.identifier := Round1]
      [Round2.identifier := Round2][RoundHalfToEven1.identifier := RoundHalfToEven1]
      [RoundHalfToEven2.identifier := RoundHalfToEven2]
  }

  /** The table after the puts of RegisterMathFunctions, in source order. */
  function MathFunctionsTable(m: Table): Table
  {
    m[Pi.identifier := Pi][Exp.identifier := Exp]
      [Exp10.identifier := Exp10][Log.identifier := Log][Log10.identifier := Log10][Pow.identifier := Pow]
      [Sqrt.identifier := Sqrt][Sin.identifier := Sin][Cos.identifier := Cos][Tan.identifier := Tan]
      [Asin.identifier := Asin][Acos.identifier := Acos][Atan.identifier := Atan][Atan2.identifier := Atan2]
  }

  /** The table after the puts of RegisterStringFunctionsBeforeConcat, in source order. */
  function StringFunctionsBeforeConcatTable(m: Table): Table
  {
    m[StringFunction.identifier := StringFunction]
      [CodepointsToString.identifier := CodepointsToString][StringToCodepoints.identifier := StringToCodepoints]
      [Replace.identifier := Replace][Substring2.identifier := Substring2][Substring3.identifier := Substring3]
      [SubstringBefore.identifier := SubstringBefore][SubstringAfter.identifier := SubstringAfter]
  }

  /** The table after the puts of RegisterStringFunctions, in source order. */
  function StringFunctionsTable(m: Table): Table
  {
    m[EndsWith.identifier := EndsWith]
      [StringJoin1.identifier := StringJoin1][StringJoin2.identifier := StringJoin2]
      [StringLength.identifier := StringLength][Tokenize1.identifier := Tokenize1]
      [Tokenize2.identifier := Tokenize2][LowerCase.identifier := LowerCase][UpperCase.identifier := UpperCase]
      [Translate.identifier := Translate][CodepointEqual.identifier := CodepointEqual]
      [StartsWithFunction.identifier := StartsWithFunction][Matches.identifier := Matches]
      [Contains.identifier := Contains][NormalizeSpace.identifier := NormalizeSpace]
      [NormalizeUnicode1.identifier := NormalizeUnicode1][NormalizeUnicode2.identifier := NormalizeUnicode2]
      [Serialize.identifier := Serialize][Number.identifier := Number][EncodeForUri.identifier := EncodeForUri]
  }

  /** The table after the puts of RegisterDurationFunctions, in source order. */
  function DurationFunctionsTable(m: Table): Table
  {
    m[Duration.identifier := Duration]
      [DayTimeDuration.identifier := DayTimeDuration][YearMonthDuration.identifier := YearMonthDuration]
      [YearsFromDuration.identifier := YearsFromDuration][MonthsFromDuration.identifier := MonthsFromDuration]
      [DaysFromDuration.identifier := DaysFromDuration][HoursFromDuration.identifier := HoursFromDuration]
      [MinutesFromDuration.identifier := MinutesFromDuration][SecondsFromDuration.identifier := SecondsFromDuration]
  }

  /** The table after the puts of RegisterDateTimeFunctions, in source order. */
  function DateTimeFunctionsTable(m: Table): Table
  {
    m[DateTime.identifier := DateTime]
      [CurrentDateTime.identifier := CurrentDateTime][FormatDateTime.identifier := FormatDateTime]
      [YearFromDateTime.identifier := YearFromDateTime][MonthFromDateTime.identifier := MonthFromDateTime]
      [DayFromDateTime.identifier := DayFromDateTime][HoursFromDateTime.identifier := HoursFromDateTime]
      [MinutesFromDateTime.identifier := MinutesFromDateTime][SecondsFromDateTime.identifier := SecondsFromDateTime]
      [TimezoneFromDateTime.identifier := TimezoneFromDateTime]
      [AdjustDateTimeToTimezone1.identifier := AdjustDateTimeToTimezone1]
      [AdjustDateTimeToTimezone2.identifier := AdjustDateTimeToTimezone2]
  }

  /** The table after the puts of RegisterDateFunctions, in source order. */
  function DateFunctionsTable(m: Table): Table
  {
    m[Date.identifier := Date]
      [CurrentDate.identifier := CurrentDate][FormatDate.identifier := FormatDate]
      [YearFromDate.identifier := YearFromDate][MonthFromDate.identifier := MonthFromDate]
      [DayFromDate.identifier := DayFromDate][TimezoneFromDate.identifier := TimezoneFromDate]
      [AdjustDateToTimezone1.identifier := AdjustDateToTimezone1]
      [AdjustDateToTimezone2.identifier := AdjustDateToTimezone2]
  }

  /** The table after the puts of RegisterTimeFunctions, in source order. */
  function TimeFunctionsTable(m: Table): Table
  {
    m[Time.identifier := Time]
      [CurrentTime.identifier := CurrentTime][FormatTime.identifier := FormatTime]
      [HoursFromTime.identifier := HoursFromTime][MinutesFromTime.identifier := MinutesFromTime]
      [SecondsFromTime.identifier := SecondsFromTime][TimezoneFromTime.identifier := TimezoneFromTime]
      [AdjustTimeToTimezone1.identifier := AdjustTimeToTimezone1]
      [AdjustTimeToTimezone2.identifier := AdjustTimeToTimezone2]
  }

  /** The table after the puts of RegisterUriAndBinaryFunctions, in source order. */
  function UriAndBinaryFunctionsTable(m: Table): Table
  {
    m[AnyURI.identifier := AnyURI]
      [HexBinary.identifier := HexBinary][Base64Binary.identifier := Base64Binary]
  }

  /** The table after the puts of RegisterObjectAndArrayFunctions, in source order. */
  function ObjectAndArrayFunctionsTable(m: Table): Table
  {
    m[Keys.identifier := Keys][Members.identifier := Members]
      [NullFunction.identifier := NullFunction][Size.identifier := Size][Accumulate.identifier := Accumulate]
      [DescendantArrays.identifier := DescendantArrays][DescendantObjects.identifier := DescendantObjects]
      [DescendantPairs.identifier := DescendantPairs][Flatten.identifier := Flatten]
      [Intersect.identifier := Intersect][Project.identifier := Project][RemoveKeys.identifier := RemoveKeys]
      [Values.identifier := Values]
  }

  /** The table after the puts of RegisterMachineLearningAndTraceFunctions, in source order. */
  function MachineLearningAndTraceFunctionsTable(m: Table): Table
  {
    m[GetTransformer.identifier := GetTransformer]
      [GetEstimator.identifier := GetEstimator][Annotate.identifier := Annotate][Trace.identifier := Trace]
  }

  /** The identifiers of the concat loop, as a set. */
  function ConcatKeys(): set<FunctionIdentifier>
  {
    set i: nat | i < 100 :: ConcatIdentifier(i)
  }

  /** The table after the concat loop: concat under every arity below 100, every other key as before. */
  function WithConcat(m: Table): Table
  {
    map id | id in m.Keys + ConcatKeys() :: if IsConcatKey(id) then Concat else m[id]
  }

  /** The groups of puts that come before the concat loop, in source order. */
  function TableBeforeConcat(m: Table): Table
  {
    StringFunctionsBeforeConcatTable(MathFunctionsTable(NumericFunctionsTable(SequenceFunctionsTable(
      AggregateFunctionsTable(InputFunctionsTable(ContextFunctionsTable(m)))))))
  }

  /** The groups of puts that come after the concat loop, in source order. */
  function TableAfterConcat(m: Table): Table
  {
    MachineLearningAndTraceFunctionsTable(ObjectAndArrayFunctionsTable(UriAndBinaryFunctionsTable(
      TimeFunctionsTable(DateFunctionsTable(DateTimeFunctionsTable(DurationFunctionsTable(StringFunctionsTable(m))))))))
  }

  /** The table the static initializer leaves: every put and the concat loop, in source order, from an empty map. */
  function StaticTable(): Table
  {
    TableAfterConcat(WithConcat(TableBeforeConcat(map[])))
  }

  /** The class's static state: the table its static initializer fills. */
  class Catalogue {
    var builtinFunctions: map<FunctionIdentifier, BuiltinFunction>

    ghost predicate Valid()
      reads this
    {
      forall id :: id in builtinFunctions ==> EntryFits(id, builtinFunctions[id])
    }

    /** The keys of an earlier table are still keys, and concat's entries are as they were. */
    ghost predicate Keeps(before: map<FunctionIdentifier, BuiltinFunction>)
      reads this
    {
      && before.Keys <= builtinFunctions.Keys
      && forall id :: id in before && IsConcatKey(id) ==> builtinFunctions[id] == before[id]
    }

    /** Whether concat is a key for every arity below 100. */
    ghost predicate ConcatRegistered()
      reads this
    {
      forall i: nat :: i < 100 ==> ConcatIdentifier(i) in builtinFunctions && builtinFunctions[ConcatIdentifier(i)] == Concat
    }

    /** The static initializer: the groups of puts in order, with the concat loop among the string functions. */
    constructor ()
      ensures builtinFunctions == StaticTable()
      ensures Valid() && ConcatRegistered()
      ensures JsonFile1.identifier in builtinFunctions && JsonFile2.identifier in builtinFunctions
      ensures Substring2.identifier in builtinFunctions && Substring3.identifier in builtinFunctions
    {
      builtinFunctions := map[];
      new;
      RegisterBeforeConcat();
      PutConcat();
      RegisterAfterConcat();
    }

    /** The groups of puts that come before the concat loop. */
    method RegisterBeforeConcat()
      modifies this
      requires Valid()
      ensures Valid() && Keeps(old(builtinFunctions))
      ensures builtinFunctions == TableBeforeConcat(old(builtinFunctions))
      ensures JsonFile1.identifier in builtinFunctions && JsonFile2.identifier in builtinFunctions
      ensures Substring2.identifier in builtinFunctions && Substring3.identifier in builtinFunctions
    {
      RegisterContextFunctions();
      RegisterInputFunctions();
      RegisterAggregateFunctions();
      RegisterSequenceFunctions();
      RegisterNumericFunctions();
      RegisterMathFunctions();
      RegisterStringFunctionsBeforeConcat();
    }

    /** The groups of puts that come after the concat loop. */
    method RegisterAfterConcat()
      modifies this
      requires Valid()
      ensures Valid() && Keeps(old(builtinFunctions))
      ensures builtinFunctions == TableAfterConcat(old(builtinFunctions))
    {
      RegisterStringFunctions();
      RegisterDurationFunctions();
      RegisterDateTimeFunctions();
      RegisterDateFunctions();
      RegisterTimeFunctions();
      RegisterUriAndBinaryFunctions();
      RegisterObjectAndArrayFunctions();
      RegisterMachineLearningAndTraceFunctions();
    }

    /** One put: the definition under its own identifier. */
    method Put(f: RegisteredDefinition)
      modifies this
      requires Valid()
      ensures Valid() && Keeps(old(builtinFunctions))
      ensures builtinFunctions == old(builtinFunctions)[f.identifier := f]
    {
      builtinFunctions := builtinFunctions[f.identifier := f];
    }

    /** The concat loop: concat under every arity from 0 to 99; nothing else changes. */
    method PutConcat()
      modifies this
      requires Valid()
      ensures Valid() && ConcatRegistered()
      ensures builtinFunctions == WithConcat(old(builtinFunctions))
      ensures forall id :: id in builtinFunctions <==> id in old(builtinFunctions) || IsConcatKey(id)
      ensures forall id :: id in old(builtinFunctions) && !IsConcatKey(id) ==> builtinFunctions[id] == old(builtinFunctions)[id]
    {
      var i := 0;
      while i < 100
        invariant 0 <= i <= 100
        invariant Valid()
        invariant forall j: nat :: j < i ==> ConcatIdentifier(j) in builtinFunctions && builtinFunctions[ConcatIdentifier(j)] == Concat
        invariant forall id :: id in builtinFunctions <==> id in old(builtinFunctions) || (IsConcatKey(id) && id.arity < i)
        invariant forall id :: id in old(builtinFunctions) && !IsConcatKey(id) ==> builtinFunctions[id] == old(builtinFunctions)[id]
      {
        builtinFunctions := builtinFunctions[ConcatIdentifier(i) := Concat];
        i := i + 1;
      }
      forall id | IsConcatKey(id)
        ensures id in ConcatKeys()
      {
        assert id == ConcatIdentifier(id.arity);
      }
    }

    /** The puts of position and last. */
    method RegisterContextFunctions()
      modifies this
      requires Valid()
      ensures Valid() && Keeps(old(builtinFunctions))
      ensures builtinFunctions == ContextFunctionsTable(old(builtinFunctions))
    {
      Put(Position);
      Put(Last);
    }

    /** The puts of the file readers and parallelize. */
    method RegisterInputFunctions()
      modifies this
      requires Valid()
      ensures Valid() && Keeps(old(builtinFunctions))
      ensures JsonFile1.identifier in builtinFunctions && JsonFile2.identifier in builtinFunctions
      ensures builtinFunctions == InputFunctionsTable(old(builtinFunctions))
    {
      Put(JsonFile1);
      Put(JsonFile2);
      Put(StructuredJsonFile);
      Put(LibsvmFile);
      Put(JsonDoc);
      Put(TextFile1);
      Put(TextFile2);
      Put(ParallelizeFunction1);
      Put(ParallelizeFunction2);
      Put(ParquetFile);
      Put(CsvFile1);
      Put(CsvFile2);
      Put(RootFile1);
      Put(RootFile2);
      Put(AvroFile1);
      Put(AvroFile2);
    }

    /** The puts of count, boolean and the aggregates. */
    method RegisterAggregateFunctions()
      modifies this
      requires Valid()
      ensures Valid() && Keeps(old(builtinFunctions))
      ensures builtinFunctions == AggregateFunctionsTable(old(builtinFunctions))
    {
      Put(Count);
      Put(BooleanFunction);
      Put(Min);
      Put(Max);
      Put(Sum1);
      Put(Sum2);
      Put(Avg);
    }

    /** The puts of the general, cardinality and value-comparison sequence functions. */
    method RegisterSequenceFunctions()
      modifies this
      requires Valid()
      ensures Valid() && Keeps(old(builtinFunctions))
      ensures builtinFunctions == SequenceFunctionsTable(old(builtinFunctions))
    {
      Put(Empty);
      Put(ExistsFunction);
      Put(Head);
      Put(Tail);
      Put(InsertBefore);
      Put(Remove);
      Put(Reverse);
      Put(Subsequence2);
      Put(Subsequence3);
      Put(ZeroOrOneFunction);
      Put(OneOrMoreFunction);
      Put(ExactlyOneFunction);
      Put(DistinctValues);
      Put(IndexOf);
      Put(DeepEqual);
    }

    /** The puts of the numeric functions. */
    method RegisterNumericFunctions()
      modifies this
      requires Valid()
      ensures Valid() && Keeps(old(builtinFunctions))
      ensures builtinFunctions == NumericFunctionsTable(old(builtinFunctions))
    {
      Put(IntegerFunction);
      Put(DecimalFunction);
      Put(DoubleFunction);
      Put(Abs);
      Put(Ceiling);
      Put(Floor);
      Put(Round1);
      Put(Round2);
      Put(RoundHalfToEven1);
      Put(RoundHalfToEven2);
    }

    /** The puts of the trigonometric and exponential functions. */
    method RegisterMathFunctions()
      modifies this
      requires Valid()
      ensures Valid() && Keeps(old(builtinFunctions))
      ensures builtinFunctions == MathFunctionsTable(old(builtinFunctions))
    {
      Put(Pi);
      Put(Exp);
      Put(Exp10);
      Put(Log);
      Put(Log10);
      Put(Pow);
      Put(Sqrt);
      Put(Sin);
      Put(Cos);
      Put(Tan);
      Put(Asin);
      Put(Acos);
      Put(Atan);
      Put(Atan2);
    }

    /** The puts of the string functions put before the concat loop. */
    method RegisterStringFunctionsBeforeConcat()
      modifies this
      requires Valid()
      ensures Valid() && Keeps(old(builtinFunctions))
      ensures Substring2.identifier in builtinFunctions && Substring3.identifier in builtinFunctions
      ensures builtinFunctions == StringFunctionsBeforeConcatTable(old(builtinFunctions))
    {
      Put(StringFunction);
      Put(CodepointsToString);
      Put(StringToCodepoints);
      Put(Replace);
      Put(Substring2);
      Put(Substring3);
      Put(SubstringBefore);
      Put(SubstringAfter);
    }

    /** The puts of the string functions put after the concat loop. */
    method RegisterStringFunctions()
      modifies this
      requires Valid()
      ensures Valid() && Keeps(old(builtinFunctions))
      ensures builtinFunctions == StringFunctionsTable(old(builtinFunctions))
    {
      Put(EndsWith);
      Put(StringJoin1);
      Put(StringJoin2);
      Put(StringLength);
      Put(Tokenize1);
      Put(Tokenize2);
      Put(LowerCase);
      Put(UpperCase);
      Put(Translate);
      Put(CodepointEqual);
      Put(StartsWithFunction);
      Put(Matches);
      Put(Contains);
      Put(NormalizeSpace);
      Put(NormalizeUnicode1);
      Put(NormalizeUnicode2);
      Put(Serialize);
      Put(Number);
      Put(EncodeForUri);
    }

    /** The puts of the duration functions. */
    method RegisterDurationFunctions()
      modifies this
      requires Valid()
      ensures Valid() && Keeps(old(builtinFunctions))
      ensures builtinFunctions == DurationFunctionsTable(old(builtinFunctions))
    {
      Put(Duration);
      Put(DayTimeDuration);
      Put(YearMonthDuration);
      Put(YearsFromDuration);
      Put(MonthsFromDuration);
      Put(DaysFromDuration);
      Put(HoursFromDuration);
      Put(MinutesFromDuration);
      Put(SecondsFromDuration);
    }

    /** The puts of the dateTime functions. */
    method RegisterDateTimeFunctions()
      modifies this
      requires Valid()
      ensures Valid() && Keeps(old(builtinFunctions))
      ensures builtinFunctions == DateTimeFunctionsTable(old(builtinFunctions))
    {
      Put(DateTime);
      Put(CurrentDateTime);
      Put(FormatDateTime);
      Put(YearFromDateTime);
      Put(MonthFromDateTime);
      Put(DayFromDateTime);
      Put(HoursFromDateTime);
      Put(MinutesFromDateTime);
      Put(SecondsFromDateTime);
      Put(TimezoneFromDateTime);
      Put(AdjustDateTimeToTimezone1);
      Put(AdjustDateTimeToTimezone2);
    }

    /** The puts of the date functions. */
    method RegisterDateFunctions()
      modifies this
      requires Valid()
      ensures Valid() && Keeps(old(builtinFunctions))
      ensures builtinFunctions == DateFunctionsTable(old(builtinFunctions))
    {
      Put(Date);
      Put(CurrentDate);
      Put(FormatDate);
      Put(YearFromDate);
      Put(MonthFromDate);
      Put(DayFromDate);
      Put(TimezoneFromDate);
      Put(AdjustDateToTimezone1);
      Put(AdjustDateToTimezone2);
    }

    /** The puts of the time functions. */
    method RegisterTimeFunctions()
      modifies this
      requires Valid()
      ensures Valid() && Keeps(old(builtinFunctions))
      ensures builtinFunctions == TimeFunctionsTable(old(builtinFunctions))
    {
      Put(Time);
      Put(CurrentTime);
      Put(FormatTime);
      Put(HoursFromTime);
      Put(MinutesFromTime);
      Put(SecondsFromTime);
      Put(TimezoneFromTime);
      Put(AdjustTimeToTimezone1);
      Put(AdjustTimeToTimezone2);
    }

    /** The puts of anyURI, hexBinary and base64Binary. */
    method RegisterUriAndBinaryFunctions()
      modifies this
      requires Valid()
      ensures Valid() && Keeps(old(builtinFunctions))
      ensures builtinFunctions == UriAndBinaryFunctionsTable(old(builtinFunctions))
    {
      Put(AnyURI);
      Put(HexBinary);
      Put(Base64Binary);
    }

    /** The puts of the object and array functions. */
    method RegisterObjectAndArrayFunctions()
      modifies this
      requires Valid()
      ensures Valid() && Keeps(old(builtinFunctions))
      ensures builtinFunctions == ObjectAndArrayFunctionsTable(old(builtinFunctions))
    {
      Put(Keys);
      Put(Members);
      Put(NullFunction);
      Put(Size);
      Put(Accumulate);
      Put(DescendantArrays);
      Put(DescendantObjects);
      Put(DescendantPairs);
      Put(Flatten);
      Put(Intersect);
      Put(Project);
      Put(RemoveKeys);
      Put(Values);
    }

    /** The puts of the machine-learning functions and trace. */
    method RegisterMachineLearningAndTraceFunctions()
      modifies this
      requires Valid()
      ensures Valid() && Keeps(old(builtinFunctions))
      ensures builtinFunctions == MachineLearningAndTraceFunctionsTable(old(builtinFunctions))
    {
      Put(GetTransformer);
      Put(GetEstimator);
      Put(Annotate);
      Put(Trace);
    }

    /** getBuiltinFunction: the stored definition, or an OurBadException for an unknown identifier. */
    function GetBuiltinFunction(identifier: FunctionIdentifier): (r: Result<BuiltinFunction>)
      reads this
      ensures r.Ok? <==> identifier in builtinFunctions
      ensures r.Ok? ==> r.value == builtinFunctions[identifier]
      ensures r.Err? ==> r.error == OurBadException("Unknown builtin function")
    {
      if identifier in builtinFunctions then Ok(builtinFunctions[identifier])
      else Err(OurBadException("Unknown builtin function"))
    }

    /** exists: whether the identifier is a key of the table. */
    function Exists(identifier: FunctionIdentifier): (b: bool)
      reads this
      ensures b <==> GetBuiltinFunction(identifier).Ok?
    {
      identifier in builtinFunctions
    }
  }

  // ---------------------------------------------------------------------
  // What the table promises

  /**
   * A key of a valid table holds the definition put under that very
   * identifier, whose arity is its number of parameter types, or it is one
   * of concat's arities and holds concat.
   */
  lemma EntriesKeyedByOwnIdentifier(c: Catalogue, id: FunctionIdentifier)
    requires c.Valid() && c.Exists(id)
    ensures var f := c.GetBuiltinFunction(id).value;
      || (f.identifier == id && id.arity == |f.signature.parameterTypes| <= 3 && id.name != Some(ConcatName))
      || (IsConcatKey(id) && f == Concat)
  {
  }

  /** concat answers every arity from 0 to 99 with its one definition of arity 100, and arity 100 itself is not a key. */
  lemma ConcatArities(c: Catalogue)
    requires c.Valid() && c.ConcatRegistered()
    ensures forall i: nat :: i < 100 ==> c.GetBuiltinFunction(ConcatIdentifier(i)) == Ok(Concat)
    ensures Concat.identifier == ConcatIdentifier(100) && |Concat.signature.parameterTypes| == 100
    ensures !c.Exists(ConcatIdentifier(100))
    ensures c.GetBuiltinFunction(ConcatIdentifier(100)).Err?
  {
  }

  /** Overloads of one name with different arities are different entries of the table. */
  lemma OverloadsAreDistinctEntries(c: Catalogue)
    requires c.Valid()
    requires JsonFile1.identifier in c.builtinFunctions && JsonFile2.identifier in c.builtinFunctions
    requires Substring2.identifier in c.builtinFunctions && Substring3.identifier in c.builtinFunctions
    ensures var jsonFile1 := c.GetBuiltinFunction(FunctionIdentifier(Some(RumbleName("json-file")), 1));
            var jsonFile2 := c.GetBuiltinFunction(FunctionIdentifier(Some(RumbleName("json-file")), 2));
            jsonFile1.Ok? && jsonFile2.Ok? && jsonFile1.value != jsonFile2.value
            && |jsonFile1.value.signature.parameterTypes| == 1 && |jsonFile2.value.signature.parameterTypes| == 2
    ensures var substring2 := c.GetBuiltinFunction(FunctionIdentifier(Some(RumbleName("substring")), 2));
            var substring3 := c.GetBuiltinFunction(FunctionIdentifier(Some(RumbleName("substring")), 3));
            substring2.Ok? && substring3.Ok? && substring2.value != substring3.value
            && |substring2.value.signature.parameterTypes| == 2 && |substring3.value.signature.parameterTypes| == 3
  {
    EntriesKeyedByOwnIdentifier(c, JsonFile1.identifier);
    EntriesKeyedByOwnIdentifier(c, JsonFile2.identifier);
    EntriesKeyedByOwnIdentifier(c, Substring2.identifier);
    EntriesKeyedByOwnIdentifier(c, Substring3.identifier);
  }

  /**
   * The execution modes of the definitions: the file readers and
   * parallelize are RDD or DataFrame (json-doc, one document, is local),
   * tail, reverse and subsequence take the mode of their first argument,
   * and count and exists are local.
   */
  lemma ExecutionModesOfDefinitions()
    ensures JsonFile1.executionMode == Rdd && JsonFile2.executionMode == Rdd
    ensures TextFile1.executionMode == Rdd && TextFile2.executionMode == Rdd
    ensures ParallelizeFunction1.executionMode == Rdd && ParallelizeFunction2.executionMode == Rdd
    ensures StructuredJsonFile.executionMode == DataFrame && LibsvmFile.executionMode == DataFrame
    ensures ParquetFile.executionMode == DataFrame && CsvFile1.executionMode == DataFrame && CsvFile2.executionMode == DataFrame
    ensures RootFile1.executionMode == DataFrame && RootFile2.executionMode == DataFrame
    ensures AvroFile1.executionMode == DataFrame && AvroFile2.executionMode == DataFrame
    ensures JsonDoc.executionMode == Local
    ensures Tail.executionMode == InheritFromFirstArgument && Reverse.executionMode == InheritFromFirstArgument
    ensures Subsequence2.executionMode == InheritFromFirstArgument && Subsequence3.executionMode == InheritFromFirstArgument
    ensures Count.executionMode == Local && ExistsFunction.executionMode == Local
  {
  }
}
