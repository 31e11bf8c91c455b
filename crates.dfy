/** `Crate<T, Size>` (main.cpp:45-69): a fixed-capacity, append-only box
    holding a `std::array<T, Size>` and a count of the slots in use. The lines
    the methods print are returned to the caller instead of being written to
    the console. */
module Crates {

  const ContentsHeader: string := "Box contents:"
  const AddedPrefix: string := "Added item to box: \""
  const FullPrefix: string := "Box is full. Cannot add item: \""

  /** The line `addToCrate` prints (without its newline); `shown` is the text
      the output stream writes for the item. The template names the outcome,
      and the item follows it in quotes. */
  function AddLine(accepted: bool, shown: string): (line: string)
    ensures var n := if accepted then |AddedPrefix| else |FullPrefix|;
            |line| == n + |shown| + 1 && line[n..|line| - 1] == shown && line[|line| - 1] == '"'
    ensures accepted <==> line[0] == 'A'
  {
    if accepted then
      assert (AddedPrefix + shown + "\"")[0] == 'A';
      AddedPrefix + shown + "\""
    else
      assert (FullPrefix + shown + "\"")[0] == 'B';
      FullPrefix + shown + "\""
  }

  /** The line `addToCrate` prints tells success from refusal and names the
      item offered. */
  lemma AddLineIdentifiesOutcome(a: bool, s: string, b: bool, t: string)
    requires AddLine(a, s) == AddLine(b, t)
    ensures a == b && s == t
  {
  }

  /** One `addToCrate` on the abstract contents: the new contents and the
      value returned. */
  function AddStep<T>(contents: seq<T>, size: nat, item: T): (r: (seq<T>, bool))
    ensures contents <= r.0
    ensures |contents| <= size ==> |r.0| <= size
    ensures r.1 <==> |contents| < size
    ensures r.1 ==> |r.0| == |contents| + 1 && r.0[|contents|] == item
    ensures !r.1 ==> r.0 == contents
  {
    if |contents| < size then (contents + [item], true) else (contents, false)
  }

  /** A run of `addToCrate` calls, one per item in order: the final contents
      and the value each call returned. */
  function AddAll<T>(contents: seq<T>, size: nat, items: seq<T>): (r: (seq<T>, seq<bool>))
    ensures |r.1| == |items|
    decreases |items|
  {
    if items == [] then (contents, [])
    else
      var (next, accepted) := AddStep(contents, size, items[0]);
      var (final, rest) := AddAll(next, size, items[1..]);
      (final, [accepted] + rest)
  }

  /** A run of adds whose earlier calls already returned `done`: the final
      contents, and every value returned. */
  function AddAllAfter<T>(contents: seq<T>, size: nat, items: seq<T>, done: seq<bool>): (r: (seq<T>, seq<bool>))
    ensures |r.1| == |done| + |items|
  {
    var rest := AddAll(contents, size, items);
    (rest.0, done + rest.1)
  }

  /** Performing the first add of a run moves its result into `done`. */
  lemma AddAllAdvance<T>(contents: seq<T>, size: nat, items: seq<T>, done: seq<bool>,
                         next: seq<T>, accepted: bool)
    requires items != []
    requires (next, accepted) == AddStep(contents, size, items[0])
    ensures AddAllAfter(contents, size, items, done)
            == AddAllAfter(next, size, items[1..], done + [accepted])
  {
    var rest := AddAll(next, size, items[1..]);
    assert AddAll(contents, size, items) == (rest.0, [accepted] + rest.1);
    assert done + ([accepted] + rest.1) == (done + [accepted]) + rest.1;
  }

  /** With no items left, the run has finished. */
  lemma AddAllAfterNone<T>(contents: seq<T>, size: nat, done: seq<bool>)
    ensures AddAllAfter(contents, size, [], done) == (contents, done)
  {
    assert done + [] == done;
  }

  /** From any state within capacity, a run of adds accepts exactly the
      first `size - |contents|` items (or all of them, if fewer), appends
      them in order, and refuses every later one. */
  lemma {:induction false} AddAllAcceptsPrefix<T>(contents: seq<T>, size: nat, items: seq<T>)
    requires |contents| <= size
    ensures var room := size - |contents|;
            var taken := if |items| < room then |items| else room;
            AddAll(contents, size, items).0 == contents + items[..taken]
    ensures forall i :: 0 <= i < |items| ==>
              (AddAll(contents, size, items).1[i] <==> i < size - |contents|)
    decreases |items|
  {
    if items != [] {
      var (next, accepted) := AddStep(contents, size, items[0]);
      AddAllAcceptsPrefix(next, size, items[1..]);
      var r := AddAll(contents, size, items);
      var tail := AddAll(next, size, items[1..]);
      assert r.1 == [accepted] + tail.1;
      forall i | 0 <= i < |items|
        ensures r.1[i] <==> i < size - |contents|
      {
        if i > 0 {
          assert r.1[i] == tail.1[i - 1];
        }
      }
      if accepted {
        var room := size - |contents|;
        var taken := if |items| < room then |items| else room;
        assert items[..taken] == [items[0]] + items[1..][..taken - 1];
      }
    }
  }

  /** Starting from an empty crate, the stored items are the accepted items
      in insertion order: the first `size` of those offered. */
  lemma FromEmptyKeepsInsertionOrder<T>(size: nat, items: seq<T>)
    ensures AddAll([], size, items).0 == items[..if |items| < size then |items| else size]
  {
    AddAllAcceptsPrefix([], size, items);
  }

  /** Once the crate is full, any further run of adds refuses every item and
      leaves the contents as they were. */
  lemma {:induction false} FullCrateRefusesAll<T>(contents: seq<T>, size: nat, items: seq<T>)
    requires |contents| == size
    ensures AddAll(contents, size, items).0 == contents
    ensures forall i :: 0 <= i < |items| ==> !AddAll(contents, size, items).1[i]
  {
    AddAllAcceptsPrefix(contents, size, items);
  }

  /** The item lines of `displayContents`, one per stored item, in order. */
  function ItemLines<T>(items: seq<T>, show: T -> string): (lines: seq<string>)
    ensures |lines| == |items|
  {
    if items == [] then []
    else ItemLines(items[..|items| - 1], show) + [" - " + show(items[|items| - 1])]
  }

  /** Everything `displayContents` prints: the header, then the item lines. */
  function Report<T>(items: seq<T>, show: T -> string): (lines: seq<string>)
    ensures |lines| == |items| + 1
    ensures lines[0] == ContentsHeader
  {
    [ContentsHeader] + ItemLines(items, show)
  }

  /** The report is the header followed by exactly one ` - <item>` line per
      stored item, in insertion order. */
  lemma {:induction false} ReportShape<T>(items: seq<T>, show: T -> string)
    ensures |Report(items, show)| == |items| + 1
    ensures Report(items, show)[0] == ContentsHeader
    ensures forall i :: 0 <= i < |items| ==> Report(items, show)[i + 1] == " - " + show(items[i])
  {
    if items != [] {
      ReportShape(items[..|items| - 1], show);
    }
  }

  class Crate<T(0)> {
    /** The template's `Size`. */
    const size: nat
    /** The output stream's rendering of an item. */
    const show: T -> string
    /** The inline `std::array<T, Size>`. */
    const storedItems: array<T>
    var itemCount: nat

    ghost predicate Valid()
      reads this
    {
      storedItems.Length == size && itemCount <= size
    }

    /** The items stored so far, in insertion order. */
    ghost function Contents(): seq<T>
      reads this, storedItems
      requires Valid()
    {
      storedItems[..itemCount]
    }

    constructor (size: nat, show: T -> string)
      ensures Valid() && fresh(storedItems)
      ensures this.size == size && this.show == show
      ensures itemCount == 0 && Contents() == []
    {
      this.size := size;
      this.show := show;
      storedItems := new T[size];
      itemCount := 0;
    }

    /** `addToCrate`: stores the item at slot `itemCount` and advances the
        count when there is room; otherwise changes nothing. */
    method AddToCrate(item: T) returns (accepted: bool, line: string)
      requires Valid()
      modifies this`itemCount, storedItems
      ensures Valid()
      ensures accepted <==> old(itemCount) < size
      ensures accepted ==> itemCount == old(itemCount) + 1
                           && storedItems[..] == old(storedItems[..])[old(itemCount) := item]
      ensures !accepted ==> itemCount == old(itemCount) && storedItems[..] == old(storedItems[..])
      ensures (Contents(), accepted) == AddStep(old(Contents()), size, item)
      ensures line == AddLine(accepted, show(item))
    {
      if itemCount < size {
        storedItems[itemCount] := item;
        itemCount := itemCount + 1;
        assert Contents() == old(Contents()) + [item];
        line := AddLine(true, show(item));
        return true, line;
      }
      line := AddLine(false, show(item));
      return false, line;
    }

    /** A caller's run of `addToCrate` calls, one per item in order, with the
        value each call returns. The contents and results are
        those of `AddAll`, so the insertion-order and full-crate lemmas about
        `AddAll` hold of the crate itself. */
    method AddAllToCrate(items: seq<T>) returns (results: seq<bool>)
      requires Valid()
      modifies this`itemCount, storedItems
      ensures Valid()
      ensures (Contents(), results) == AddAll(old(Contents()), size, items)
    {
      ghost var whole := AddAll(old(Contents()), size, items);
      results := [];
      var i := 0;
      assert items[i..] == items;
      assert [] + whole.1 == whole.1;
      while i < |items|
        invariant 0 <= i <= |items|
        invariant Valid()
        invariant whole == AddAllAfter(Contents(), size, items[i..], results)
      {
        ghost var before := Contents();
        var accepted, _ := AddToCrate(items[i]);
        AddAllAdvance(before, size, items[i..], results, Contents(), accepted);
        assert items[i..][1..] == items[i + 1..];
        results := results + [accepted];
        i := i + 1;
      }
      assert items[i..] == [];
      AddAllAfterNone(Contents(), size, results);
    }

    /** `displayContents`: the header and one line per stored item, in
        order; reads the crate and changes nothing. */
    method DisplayContents() returns (lines: seq<string>)
      requires Valid()
      ensures lines == Report(Contents(), show)
    {
      lines := [ContentsHeader];
      var i := 0;
      while i < itemCount
        invariant 0 <= i <= itemCount
        invariant lines == Report(storedItems[..i], show)
      {
        assert storedItems[..i + 1][..i] == storedItems[..i];
        lines := lines + [" - " + show(storedItems[i])];
        i := i + 1;
      }
    }
  }
}
