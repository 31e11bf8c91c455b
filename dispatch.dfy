/** The free function `dispatchItem` (main.cpp:72-83): a generic template
    that prints the item's type name, and a full specialisation for `double`
    that prints the value as a temperature. */
module Dispatch {
  import opened TypeNames

  const TemperaturePrefix: string := "Shipping temperature-controlled item: "
  const TemperatureSuffix: string := "°C"
  const ItemPrefix: string := "Shipping item of type: "

  /** The one line `dispatchItem(item)` prints (without its newline), for an
      item of type `t`; `shown` is the text the output stream writes for the
      item's value. Its template shows which overload was chosen. */
  function DispatchLine(t: TypeTag, shown: string): (line: string)
    ensures t == DoubleTag <==> TemperaturePrefix <= line
    ensures t != DoubleTag <==> ItemPrefix <= line
  {
    if t == DoubleTag then
      assert (TemperaturePrefix + shown + TemperatureSuffix)[9] == 't';
      TemperaturePrefix + shown + TemperatureSuffix
    else
      assert (ItemPrefix + TypeName(t))[9] == 'i';
      ItemPrefix + TypeName(t)
  }

  /** What a reader of the output can tell from a dispatch line. */
  datatype DispatchView =
    | Temperature(reading: string)
    | Shipped(param: TypeTag)

  /** Parses a dispatch line back into the overload that printed it and its
      payload; None for a line neither overload prints. */
  function ReadDispatch(line: string): (v: Option<DispatchView>)
  {
    if TemperaturePrefix <= line && |line| >= |TemperaturePrefix| + |TemperatureSuffix|
       && line[|line| - |TemperatureSuffix|..] == TemperatureSuffix then
      Some(Temperature(line[|TemperaturePrefix|..|line| - |TemperatureSuffix|]))
    else if ItemPrefix <= line then
      match TypeOfName(line[|ItemPrefix|..])
      case Some(t) => if t == DoubleTag then None else Some(Shipped(t))
      case None => None
    else None
  }

  /** A `double` is shipped as a temperature showing its value; every other
      item is shipped under its type name. */
  lemma DispatchRoundTrip(t: TypeTag, shown: string)
    ensures t == DoubleTag ==> ReadDispatch(DispatchLine(t, shown)) == Some(Temperature(shown))
    ensures t != DoubleTag ==> ReadDispatch(DispatchLine(t, shown)) == Some(Shipped(t))
  {
    var line := DispatchLine(t, shown);
    if t == DoubleTag {
      assert line[..|TemperaturePrefix|] == TemperaturePrefix;
      assert line[|line| - |TemperatureSuffix|..] == TemperatureSuffix;
      assert line[|TemperaturePrefix|..|line| - |TemperatureSuffix|] == shown;
    } else {
      var n := TypeName(t);
      assert line == ItemPrefix + n;
      assert line[9] == 'i';
      assert line[..|ItemPrefix|] == ItemPrefix;
      assert line[|ItemPrefix|..] == n;
      TypeNameRoundTrip(t);
    }
  }

  /** The generic template never shows the item's value. */
  lemma GenericDispatchIgnoresValue(t: TypeTag, a: string, b: string)
    requires t != DoubleTag
    ensures DispatchLine(t, a) == DispatchLine(t, b)
  {
  }
}
