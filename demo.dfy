/** The program's fixed demonstration sequence (main.cpp:85-114), as a client
    of the other modules: every line it prints, in order. */
module Demo {
  import opened TypeNames
  import Packages
  import Dispatch
  import Crates

  /** The three `Package` labels. `address` is the text of the pointer to the
      local `double`, which is only known at run time; the output does not
      depend on it. */
  method LabelPackages(address: string) returns (lines: seq<string>)
    ensures lines == [
      "Generic package containing: int",
      "Book package: \"C++ Primer\"",
      "Fragile package for pointer to type: double"
    ]
  {
    lines := [
      Packages.Label(Packages.Package(IntTag, "42")),
      Packages.Label(Packages.Package(StringTag, "C++ Primer")),
      Packages.Label(Packages.Package(PointerTag(DoubleTag), address))
    ];
    assert lines[0] == "Generic package containing: int";
    assert lines[1] == "Book package: \"C++ Primer\"";
    assert lines[2] == "Fragile package for pointer to type: double";
  }

  /** What the two adds print, written out. */
  lemma LibraryCrateAddLines()
    ensures Crates.AddLine(true, "The Pragmatic Programmer")
            == "Added item to box: \"The Pragmatic Programmer\""
    ensures Crates.AddLine(true, "Clean Code") == "Added item to box: \"Clean Code\""
  {
  }

  /** What the library crate's display prints, written out. */
  lemma LibraryCrateReport()
    ensures Crates.Report(["The Pragmatic Programmer", "Clean Code"], s => s)
            == ["Box contents:", " - The Pragmatic Programmer", " - Clean Code"]
  {
    var stored := ["The Pragmatic Programmer", "Clean Code"];
    Crates.ReportShape(stored, s => s);
    assert Crates.Report(stored, s => s)[1] == " - The Pragmatic Programmer";
    assert Crates.Report(stored, s => s)[2] == " - Clean Code";
  }

  /** Everything the library crate prints, written out. */
  lemma LibraryCrateLines()
    ensures [Crates.AddLine(true, "The Pragmatic Programmer"), Crates.AddLine(true, "Clean Code")]
              + Crates.Report(["The Pragmatic Programmer", "Clean Code"], s => s)
            == [
              "Added item to box: \"The Pragmatic Programmer\"",
              "Added item to box: \"Clean Code\"",
              "Box contents:",
              " - The Pragmatic Programmer",
              " - Clean Code"
            ]
  {
    LibraryCrateAddLines();
    LibraryCrateReport();
  }

  /** Two adds into a capacity-5 crate of strings, then its display. */
  method FillLibraryCrate() returns (lines: seq<string>)
    ensures lines == [
      "Added item to box: \"The Pragmatic Programmer\"",
      "Added item to box: \"Clean Code\"",
      "Box contents:",
      " - The Pragmatic Programmer",
      " - Clean Code"
    ]
  {
    var libraryCrate := new Crates.Crate<string>(5, s => s);
    var _, added1 := libraryCrate.AddToCrate("The Pragmatic Programmer");
    var _, added2 := libraryCrate.AddToCrate("Clean Code");
    var shown := libraryCrate.DisplayContents();
    assert libraryCrate.Contents() == ["The Pragmatic Programmer", "Clean Code"];
    lines := [added1, added2] + shown;
    LibraryCrateLines();
  }

  /** The three `dispatchItem` calls; "22.5" is how the stream writes the
      `double` 22.5. */
  method DispatchItems() returns (lines: seq<string>)
    ensures lines == [
      "Shipping item of type: int",
      "Shipping item of type: std::string",
      "Shipping temperature-controlled item: 22.5°C"
    ]
  {
    lines := [
      Dispatch.DispatchLine(IntTag, "42"),
      Dispatch.DispatchLine(StringTag, "std::string"),
      Dispatch.DispatchLine(DoubleTag, "22.5")
    ];
    assert lines[0] == "Shipping item of type: int";
    assert lines[1] == "Shipping item of type: std::string";
    assert lines[2] == "Shipping temperature-controlled item: 22.5°C";
  }

  /** The whole output of the demonstration, in order. */
  method Demonstration(address: string) returns (lines: seq<string>)
    ensures |lines| == 11
    ensures lines[..3] == [
      "Generic package containing: int",
      "Book package: \"C++ Primer\"",
      "Fragile package for pointer to type: double"
    ]
    ensures lines[3..8] == [
      "Added item to box: \"The Pragmatic Programmer\"",
      "Added item to box: \"Clean Code\"",
      "Box contents:",
      " - The Pragmatic Programmer",
      " - Clean Code"
    ]
    ensures lines[8..] == [
      "Shipping item of type: int",
      "Shipping item of type: std::string",
      "Shipping temperature-controlled item: 22.5°C"
    ]
  {
    var labels := LabelPackages(address);
    var crate := FillLibraryCrate();
    var shipped := DispatchItems();
    lines := labels + crate + shipped;
    assert lines[..3] == labels;
    assert lines[3..8] == crate;
    assert lines[8..] == shipped;
  }
}
