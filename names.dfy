// Names, function identifiers and sequence types, as the compiler and the
// runtime share them.

module Names {
  import opened Base

  /** The namespace part of a qualified name. */
  datatype Namespace = NoNamespace | RumbleNamespace | NamespaceUri(uri: string)

  datatype Name = Name(namespace: Namespace, localName: string)

  /** A function is identified by its (possibly absent) name and its arity. */
  datatype FunctionIdentifier = FunctionIdentifier(name: Option<Name>, arity: nat)

  /** Name.createVariableInRumbleNamespace, used for every builtin. */
  function RumbleName(localName: string): Name
  {
    Name(RumbleNamespace, localName)
  }

  datatype Arity = One | OneOrZero | OneOrMore | ZeroOrMore

  /** The item types the modelled code tests for. */
  datatype ItemType =
    | ItemItem
    | AtomicItem
    | StringItem
    | IntegerItem
    | DecimalItem
    | DoubleItem
    | BooleanItem
    | NullItem
    | ArrayItem
    | ObjectItem
    | DateTimeItem
    | FunctionItem
    | OtherItemType(typeName: string)

  /** The JSONiq name of an item type, as error messages write it. */
  function TypeName(t: ItemType): string
  {
    match t
    case ItemItem => "item"
    case AtomicItem => "atomic"
    case StringItem => "string"
    case IntegerItem => "integer"
    case DecimalItem => "decimal"
    case DoubleItem => "double"
    case BooleanItem => "boolean"
    case NullItem => "null"
    case ArrayItem => "array"
    case ObjectItem => "object"
    case DateTimeItem => "dateTime"
    case FunctionItem => "function"
    case OtherItemType(name) => name
  }

  datatype SequenceType =
    | EmptySequence
    | SequenceType(itemType: ItemType, arity: Arity)
  {
    predicate IsEmptySequence() { this.EmptySequence? }
  }

  /** new SequenceType(itemType): one item of the given type. */
  function ExactlyOne(itemType: ItemType): SequenceType
  {
    SequenceType(itemType, One)
  }
}
