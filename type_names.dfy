/** Stable names for the template arguments the program instantiates.
    The program prints type names with the compiler's run-time type-name
    facility, whose text is implementation-defined; this module replaces it
    with an explicit registry and proves that the registry can be read back. */
module TypeNames {

  datatype Option<T> = None | Some(value: T)

  /** The shapes of type argument the program distinguishes: the built-in
      types it uses, the standard string type, and a pointer to any of them. */
  datatype TypeTag =
    | IntTag
    | DoubleTag
    | StringTag
    | PointerTag(pointee: TypeTag)

  /** The display name of a type, as written in the program's own comments
      ("int", "double", "std::string"); a pointer type is its pointee's name
      followed by '*'. */
  function TypeName(t: TypeTag): (name: string)
    ensures |name| > 0
    ensures t.PointerTag? <==> name[|name| - 1] == '*'
  {
    match t
    case IntTag => "int"
    case DoubleTag => "double"
    case StringTag => "std::string"
    case PointerTag(u) => TypeName(u) + "*"
  }

  /** Reads a display name back into the type it names, or None when no
      registered type has that name. */
  function TypeOfName(name: string): (t: Option<TypeTag>)
    ensures t.Some? ==> TypeName(t.value) == name
    decreases |name|
  {
    if name == "int" then Some(IntTag)
    else if name == "double" then Some(DoubleTag)
    else if name == "std::string" then Some(StringTag)
    else if |name| > 0 && name[|name| - 1] == '*' then
      match TypeOfName(name[..|name| - 1])
      case None => None
      case Some(u) =>
        assert TypeName(u) + "*" == name;
        Some(PointerTag(u))
    else None
  }

  /** Every registered name reads back as the type it was made from. */
  lemma {:induction false} TypeNameRoundTrip(t: TypeTag)
    ensures TypeOfName(TypeName(t)) == Some(t)
  {
    match t
    case IntTag =>
    case DoubleTag =>
    case StringTag =>
    case PointerTag(u) =>
      TypeNameRoundTrip(u);
      var n := TypeName(u);
      assert (n + "*")[..|n|] == n;
  }

  /** Two different types never print the same name, so a printed type name
      identifies its type. */
  lemma TypeNameInjective(a: TypeTag, b: TypeTag)
    requires TypeName(a) == TypeName(b)
    ensures a == b
  {
    TypeNameRoundTrip(a);
    TypeNameRoundTrip(b);
  }
}
