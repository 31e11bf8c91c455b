/** The label of a `Package<T>`: the generic template, its `std::string`
    specialisation and its partial specialisation for pointers
    (main.cpp:7-43). C++ picks the specialisation at compile time from the
    shape of T; here the shape is an explicit TypeTag and the choice is a
    match on it, most specific first. */
module Packages {
  import opened TypeNames

  /** A package holding one value of the type `tag`. `contents` is the text
      the output stream would write for that value; only the string
      specialisation ever prints it. */
  datatype Package = Package(tag: TypeTag, contents: string)

  /** The three implementations of `label`, one per specialisation. */
  datatype Variant =
    | Book
    | Fragile(pointee: TypeTag)
    | Generic(param: TypeTag)

  const BookPrefix: string := "Book package: \""
  const FragilePrefix: string := "Fragile package for pointer to type: "
  const GenericPrefix: string := "Generic package containing: "

  /** Which specialisation of `Package` a type argument selects: exactly one,
      the string one for `std::string`, the pointer one for any `U*`, and the
      generic template for everything else. */
  function Specialization(t: TypeTag): (v: Variant)
    ensures v.Book? <==> t == StringTag
    ensures v.Fragile? <==> t.PointerTag?
    ensures v.Fragile? ==> v.pointee == t.pointee
    ensures v.Generic? ==> v.param == t
  {
    match t
    case StringTag => Book
    case PointerTag(u) => Fragile(u)
    case _ => Generic(t)
  }

  /** The one line `label()` prints (without its newline). Its template
      shows which specialisation the type argument selected. */
  function Label(p: Package): (line: string)
    ensures p.tag == StringTag <==> BookPrefix <= line
    ensures p.tag.PointerTag? <==> FragilePrefix <= line
    ensures p.tag != StringTag && !p.tag.PointerTag? <==> GenericPrefix <= line
  {
    match Specialization(p.tag)
    case Book =>
      assert (BookPrefix + p.contents + "\"")[0] == 'B';
      BookPrefix + p.contents + "\""
    case Fragile(u) =>
      assert (FragilePrefix + TypeName(u))[0] == 'F';
      FragilePrefix + TypeName(u)
    case Generic(t) =>
      assert (GenericPrefix + TypeName(t))[0] == 'G';
      GenericPrefix + TypeName(t)
  }

  /** What a reader of the output can tell from a label line. */
  datatype LabelView =
    | BookLabel(title: string)
    | FragileLabel(pointee: TypeTag)
    | GenericLabel(param: TypeTag)

  /** Parses a label line back into the specialisation that printed it and
      its payload; None for a line no specialisation prints. */
  function ReadLabel(line: string): (v: Option<LabelView>)
  {
    if BookPrefix <= line && |line| > |BookPrefix| && line[|line| - 1] == '"' then
      Some(BookLabel(line[|BookPrefix|..|line| - 1]))
    else if FragilePrefix <= line then
      match TypeOfName(line[|FragilePrefix|..])
      case Some(u) => Some(FragileLabel(u))
      case None => None
    else if GenericPrefix <= line then
      match TypeOfName(line[|GenericPrefix|..])
      case Some(t) => if t == StringTag || t.PointerTag? then None else Some(GenericLabel(t))
      case None => None
    else None
  }

  /** The selection rules: a `std::string` package prints its contents in the
      book template; a pointer package prints its pointee's type name in the
      fragile template; every other package prints its own type name in the
      generic template. Stated as what a reader recovers from the line. */
  lemma LabelRoundTrip(p: Package)
    ensures p.tag == StringTag ==> ReadLabel(Label(p)) == Some(BookLabel(p.contents))
    ensures p.tag.PointerTag? ==> ReadLabel(Label(p)) == Some(FragileLabel(p.tag.pointee))
    ensures p.tag != StringTag && !p.tag.PointerTag? ==>
              ReadLabel(Label(p)) == Some(GenericLabel(p.tag))
  {
    var line := Label(p);
    match p.tag
    case StringTag =>
      assert line[..|BookPrefix|] == BookPrefix;
      assert line[|BookPrefix|..|line| - 1] == p.contents;
    case PointerTag(u) =>
      var n := TypeName(u);
      assert line == FragilePrefix + n;
      assert line[0] == 'F';
      assert line[..|FragilePrefix|] == FragilePrefix;
      assert line[|FragilePrefix|..] == n;
      TypeNameRoundTrip(u);
    case _ =>
      var n := TypeName(p.tag);
      assert line == GenericPrefix + n;
      assert line[0] == 'G';
      assert line[..|GenericPrefix|] == GenericPrefix;
      assert line[|GenericPrefix|..] == n;
      TypeNameRoundTrip(p.tag);
  }

  /** Only the string specialisation looks at the stored value: a pointer's
      label never shows the address or the pointee's value, and a generic
      label never shows the value. */
  lemma LabelIgnoresContents(p: Package, other: string)
    requires p.tag != StringTag
    ensures Label(p) == Label(Package(p.tag, other))
  {
  }

  /** Two packages with the same label have the same type argument, and, when
      that is `std::string`, the same contents. */
  lemma LabelIdentifiesPackage(p: Package, q: Package)
    requires Label(p) == Label(q)
    ensures p.tag == q.tag
    ensures p.tag == StringTag ==> p.contents == q.contents
  {
    LabelRoundTrip(p);
    LabelRoundTrip(q);
  }
}
