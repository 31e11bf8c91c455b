# Crates, packages and dispatch — a Dafny model

This project models a small C++ demonstration of template specialisation
(`main.cpp`). It has three parts:

- `Crate<T, Size>` is a fixed-capacity, append-only box. It is a
  `std::array<T, Size>` plus an `itemCount` counter. `addToCrate` writes the
  item into slot `itemCount` and advances the counter, or refuses when the box
  is full. `displayContents` lists the stored items in order.
- `Package<T>::label` prints one of three messages. C++ picks the message at
  compile time from the shape of `T`: `std::string`, a pointer `U*`, or any
  other type.
- `dispatchItem` prints the item's type name. Its specialisation for `double`
  prints the value as a temperature instead.

Modules, one per component:

- `TypeNames` (`type_names.dfy`): a closed set of type tags (`int`, `double`,
  `std::string`, and pointers to these). It gives each tag an explicit display
  name and has a reader that maps a name back to its tag.
- `Packages` (`packages.dfy`): chooses the specialisation by matching on the
  tag, builds the label line, and has a reader that parses a label line back.
- `Dispatch` (`dispatch.dfy`): the two `dispatchItem` overloads and a reader
  for their lines.
- `Crates` (`crates.dfy`): the class `Crate` over an `array`. It also has
  functions that specify one add (`AddStep`), a run of adds (`AddAll`), and
  the display (`Report`). `Crate.AddAllToCrate` runs a series of adds on one
  crate and is proved to match `AddAll`.
- `Demo` (`demo.dfy`): the program's fixed `main` sequence written as
  client methods, with the exact lines it prints.

Printed lines are returned to the caller as strings, without their trailing
newline, instead of being written to the console. A line is returned by each
call that prints one, and a sequence of lines by `DisplayContents`.

## Model

| member | source | states |
|---|---|---|
| `TypeNames.TypeName` | main.cpp:15 | Every registered type has a non-empty display name. A name ends in `*` exactly when it names a pointer type. |
| `TypeNames.TypeOfName` | main.cpp:41 | Has no counterpart in the source: it is the inverse of the name registry that stands in for `typeid(T).name()`. Reading a name back is sound: a type that is found prints exactly that name. |
| `TypeNames.TypeNameRoundTrip` | main.cpp:41 | Every type's display name reads back as that same type. This includes pointer types nested to any depth. |
| `TypeNames.TypeNameInjective` | main.cpp:75 | Two different types never print the same name, so a printed name identifies its type. |
| `Packages.Specialization` | main.cpp:7-43 | Each type selects exactly one specialisation. `std::string` selects the string specialisation. Any `U*` selects the pointer specialisation with pointee `U`. Every other type selects the generic template. |
| `Packages.Label` | main.cpp:13-42 | The line `label()` prints for each specialisation (main.cpp:15, 28, 41). Its own contract says the template shows the specialisation: the line starts with `Book package: "` exactly for `std::string`, with `Fragile package for pointer to type: ` exactly for a pointer, and with `Generic package containing: ` exactly otherwise. `LabelRoundTrip` states the full text. |
| `Packages.LabelRoundTrip` | main.cpp:13-42 | A `std::string` package prints `Book package: "<contents>"`. A `U*` package prints `Fragile package for pointer to type: <name of U>`. Any other package prints `Generic package containing: <name of T>`. Each is stated as what a parser recovers from the printed line. |
| `Packages.LabelIgnoresContents` | main.cpp:39-42 | Outside the string specialisation, the label does not depend on the stored value. A pointer's label never shows the address or the pointee's value. |
| `Packages.LabelIdentifiesPackage` | main.cpp:13-42 | Equal labels imply the same type argument. For `std::string` packages they also imply the same contents. |
| `Dispatch.DispatchLine` | main.cpp:72-83 | The line each `dispatchItem` overload prints (main.cpp:75, 82). Its own contract says the line starts with `Shipping temperature-controlled item: ` exactly for a `double`, and with `Shipping item of type: ` exactly otherwise. `DispatchRoundTrip` states the full text. |
| `Dispatch.DispatchRoundTrip` | main.cpp:72-83 | A `double` prints `Shipping temperature-controlled item: <value>°C`. Every other type prints `Shipping item of type: <name>`. Each is stated as what a parser recovers from the line. |
| `Dispatch.GenericDispatchIgnoresValue` | main.cpp:73-76 | The generic overload never shows the item's value. |
| `Crates.AddLine` | main.cpp:56-59 | The line `addToCrate` prints on success (main.cpp:56) or refusal (main.cpp:59). Its own contract says the line ends with the item in quotes, and that it starts with `A` (`Added item to box: "`) exactly on success. `AddLineIdentifiesOutcome` shows that the line determines both the outcome and the item. |
| `Crates.AddLineIdentifiesOutcome` | main.cpp:56-59 | The single line `addToCrate` prints tells success (`Added item to box: "<item>"`) from refusal (`Box is full. Cannot add item: "<item>"`). It also names the item offered. |
| `Crates.AddStep` | main.cpp:54-60 | One add never removes or reorders items, because the old contents are a prefix of the new ones. It keeps the count within `Size`. It succeeds exactly when the count is below `Size`. On success it appends the item at the old count. On refusal it leaves the contents unchanged. |
| `Crates.AddAll` | main.cpp:52-61 | A run of adds returns one result per item offered. |
| `Crates.AddAllAcceptsPrefix` | main.cpp:49-60 | From any state within capacity, a run of adds behaves the same way. It accepts exactly the first `Size - count` items offered, or all of them if there are fewer, and appends them in order. It refuses every later item. |
| `Crates.FromEmptyKeepsInsertionOrder` | main.cpp:49-60 | Starting empty, the stored items are the first `Size` items offered, in insertion order. |
| `Crates.FullCrateRefusesAll` | main.cpp:54-60 | Once the crate is full, every further add returns false and the contents stay as they are. This holds for any number of attempts. |
| `Crates.ItemLines` | main.cpp:66-67 | The ` - <item>` lines of `displayContents`: one line per item. `ReportShape` states each line's text and order. |
| `Crates.Report` | main.cpp:65-67 | Everything `displayContents` prints: one line more than there are items, and the first line is the header `Box contents:`. `ReportShape` states the remaining lines. |
| `Crates.ReportShape` | main.cpp:63-67 | The display prints the header `Box contents:` and then exactly one line ` - <item i>` for each stored item, in order. |
| `Crates.Crate.constructor` | main.cpp:49-50 | A new crate has `Size` slots and `itemCount == 0`, so it holds no items. |
| `Crates.Crate.AddToCrate` | main.cpp:52-61 | The invariant `0 <= itemCount <= Size` is kept. The call succeeds exactly when `itemCount < Size`. On success only slot old `itemCount` changes, to the item, and `itemCount` grows by one. On refusal neither the array nor the count changes. The new contents are `AddStep` of the old ones. The call returns the one line it prints. |
| `Crates.Crate.AddAllToCrate` | main.cpp:52-61 | A caller's run of `addToCrate` calls on one crate, one per item in order. The crate's new contents and the values returned are exactly those of `AddAll` from its old contents. So `AddAllAcceptsPrefix`, `FromEmptyKeepsInsertionOrder` and `FullCrateRefusesAll` hold of the object. |
| `Crates.Crate.DisplayContents` | main.cpp:63-68 | The result is the report of the first `itemCount` slots, in order. The crate is not changed. |
| `Demo.LabelPackages` | main.cpp:86-97 | The three labels of the fixed sequence, written out. The pointer's label does not depend on the run-time address. |
| `Demo.LibraryCrateAddLines` | main.cpp:102-103 | The two add lines of the fixed sequence, written out. |
| `Demo.LibraryCrateReport` | main.cpp:104 | The display of the two stored titles, written out. |
| `Demo.LibraryCrateLines` | main.cpp:99-104 | All five crate lines of the fixed sequence, written out. |
| `Demo.FillLibraryCrate` | main.cpp:101-104 | Two adds into a capacity-5 crate followed by a display print exactly these five lines: the two add lines, the header, and the two titles. |
| `Demo.DispatchItems` | main.cpp:106-111 | The three dispatch lines of the fixed sequence, written out. |
| `Demo.Demonstration` | main.cpp:85-114 | The program prints these eleven lines in this order. |

## Left out

- Console output: each line is returned as a string without its `\n`. The interleaving of lines on a shared stream is modelled only as their order in `Demo.Demonstration`.
- `typeid(T).name()`: its text depends on the implementation. An explicit registry (`TypeNames.TypeName`) covers `int`, `double`, `std::string` and pointers to these. Template arguments outside this set are not modelled.
- How the output stream renders a value: the crate's items are rendered by a function passed to the constructor (`show`). A `Package`'s value and the dispatched item are passed in as already-rendered text.
- The decimal formatting of a `double` (`dispatchItem<double>`, main.cpp:79-83): the text the stream writes for the value is a parameter. Only the template around it (`Shipping temperature-controlled item: …°C`) is modelled.
- Compile-time template and overload resolution: it is modelled as a match on a type tag, most specific first.
- Pointer ownership: a `Package<U*>` never dereferences or frees its pointer. Only the address text is held, and the label ignores it.
- `Crates.Crate.AddAllToCrate`: it does not return the lines its calls print. Each call's line is stated by `Crates.Crate.AddToCrate`.
- `Crate`'s initial slot values: `std::array<T, Size>{}` value-initialises the slots. Here slots beyond `itemCount` hold arbitrary values of `T`. No operation reads them.
- `itemCount` is a C++ `int`. It cannot overflow, because it never exceeds `Size`. `Size` is a natural number here, since a negative `Size` cannot instantiate `std::array`.
