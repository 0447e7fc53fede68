/**
 * The option listing that `print_options` prints, in both
 * `janeiro/config.py` and `janeiro/config/registry.py` (their code is the
 * same; each file's registry calls `Render` with its own naming rule).
 *
 * Options are sorted by key with a stable sort; the widest transformed name
 * fixes a column; each option prints its padded name and its description,
 * further tuple rows under the column, then a blank line.
 */
module Listing {
  import opened Types
  import Text

  /** A description is a string or a tuple of rows. */
  datatype Description = Plain(text: string) | Tuple(rows: seq<string>)

  /** What the listing needs of a registered option: its key and description. */
  datatype Entry = Entry(key: string, description: Description)

  /** What a printing command produced: the lines printed, then the exception it raised, if any. */
  datatype Output = Output(lines: seq<string>, raised: Option<Error>)

  /* ---------- Python's string order and a stable sort by key ---------- */

  /** `a <= b` on Python strings: lexicographic on code points. */
  predicate KeyLe(a: string, b: string)
    decreases |a|
  {
    a == [] || (b != [] && (a[0] < b[0] || (a[0] == b[0] && KeyLe(a[1..], b[1..]))))
  }

  lemma {:induction false} KeyLeReflexive(a: string)
    ensures KeyLe(a, a)
    decreases |a|
  {
    if a != [] { KeyLeReflexive(a[1..]); }
  }

  lemma {:induction false} KeyLeTotal(a: string, b: string)
    ensures KeyLe(a, b) || KeyLe(b, a)
    decreases |a|
  {
    if a != [] && b != [] && a[0] == b[0] { KeyLeTotal(a[1..], b[1..]); }
  }

  lemma {:induction false} KeyLeTransitive(a: string, b: string, c: string)
    requires KeyLe(a, b) && KeyLe(b, c)
    ensures KeyLe(a, c)
    decreases |a|
  {
    if a != [] && a[0] == b[0] && b[0] == c[0] { KeyLeTransitive(a[1..], b[1..], c[1..]); }
  }

  lemma {:induction false} KeyLeAntisymmetric(a: string, b: string)
    requires KeyLe(a, b) && KeyLe(b, a)
    ensures a == b
    decreases |a|
  {
    if a != [] {
      KeyLeAntisymmetric(a[1..], b[1..]);
      assert a == [a[0]] + a[1..] && b == [b[0]] + b[1..];
    }
  }

  predicate SortedByKey(s: seq<Entry>) {
    forall i, j :: 0 <= i < j < |s| ==> KeyLe(s[i].key, s[j].key)
  }

  /** The entries of `s` whose key is `k`, in their order in `s`. */
  function WithKey(s: seq<Entry>, k: string): seq<Entry> {
    if s == [] then []
    else WithKey(s[..|s| - 1], k) + (if s[|s| - 1].key == k then [s[|s| - 1]] else [])
  }

  /** Insert `e` after every entry whose key is at most its own. */
  function Insert(sorted: seq<Entry>, e: Entry): seq<Entry> {
    if sorted == [] || KeyLe(sorted[|sorted| - 1].key, e.key) then sorted + [e]
    else Insert(sorted[..|sorted| - 1], e) + [sorted[|sorted| - 1]]
  }

  /** `sorted(options, key=lambda option: option.key)`: a stable insertion sort. */
  function SortByKey(s: seq<Entry>): seq<Entry> {
    if s == [] then [] else Insert(SortByKey(s[..|s| - 1]), s[|s| - 1])
  }

  lemma {:induction false} InsertPermutes(sorted: seq<Entry>, e: Entry)
    ensures multiset(Insert(sorted, e)) == multiset(sorted) + multiset{e}
  {
    if sorted != [] && !KeyLe(sorted[|sorted| - 1].key, e.key) {
      var init := sorted[..|sorted| - 1];
      InsertPermutes(init, e);
      assert sorted == init + [sorted[|sorted| - 1]];
    }
  }

  lemma {:induction false} InsertSorted(sorted: seq<Entry>, e: Entry)
    requires SortedByKey(sorted)
    ensures SortedByKey(Insert(sorted, e))
  {
    var r := Insert(sorted, e);
    if sorted == [] {
    } else if KeyLe(sorted[|sorted| - 1].key, e.key) {
      forall i, j | 0 <= i < j < |r| ensures KeyLe(r[i].key, r[j].key) {
        if j == |r| - 1 && i < |sorted| - 1 {
          KeyLeTransitive(r[i].key, sorted[|sorted| - 1].key, e.key);
        }
      }
    } else {
      var init, last := sorted[..|sorted| - 1], sorted[|sorted| - 1];
      KeyLeTotal(last.key, e.key);
      InsertSorted(init, e);
      InsertPermutes(init, e);
      var front := Insert(init, e);
      forall i | 0 <= i < |front| ensures KeyLe(front[i].key, last.key) {
        assert front[i] in multiset(front);
        if front[i] != e {
          assert front[i] in multiset(init);
          var j :| 0 <= j < |init| && init[j] == front[i];
          assert sorted[j] == init[j];
        }
      }
    }
  }

  lemma {:induction false} InsertStable(sorted: seq<Entry>, e: Entry, k: string)
    ensures WithKey(Insert(sorted, e), k) == WithKey(sorted, k) + (if e.key == k then [e] else [])
  {
    var r := Insert(sorted, e);
    if sorted == [] || KeyLe(sorted[|sorted| - 1].key, e.key) {
      assert r[..|r| - 1] == sorted;
    } else {
      var init, last := sorted[..|sorted| - 1], sorted[|sorted| - 1];
      KeyLeReflexive(e.key);
      assert last.key != e.key;
      InsertStable(init, e, k);
      assert r[..|r| - 1] == Insert(init, e);
    }
  }

  /** The result is ordered by key. */
  lemma {:induction false} SortByKeySorted(s: seq<Entry>)
    ensures SortedByKey(SortByKey(s))
  {
    if s != [] {
      SortByKeySorted(s[..|s| - 1]);
      InsertSorted(SortByKey(s[..|s| - 1]), s[|s| - 1]);
    }
  }

  /** The result holds exactly the registered options, duplicates included. */
  lemma {:induction false} SortByKeyPermutes(s: seq<Entry>)
    ensures multiset(SortByKey(s)) == multiset(s)
  {
    if s != [] {
      SortByKeyPermutes(s[..|s| - 1]);
      InsertPermutes(SortByKey(s[..|s| - 1]), s[|s| - 1]);
      assert s == s[..|s| - 1] + [s[|s| - 1]];
    }
  }

  /** Stability: options with equal keys keep their registration order. */
  lemma {:induction false} SortByKeyStable(s: seq<Entry>, k: string)
    ensures WithKey(SortByKey(s), k) == WithKey(s, k)
  {
    if s != [] {
      SortByKeyStable(s[..|s| - 1], k);
      InsertStable(SortByKey(s[..|s| - 1]), s[|s| - 1], k);
    }
  }

  /* ---------- the layout ---------- */

  /** The widest transformed name among `entries`, 0 when there is none. */
  function Width(entries: seq<Entry>, nameOf: string -> string): (w: nat)
    ensures forall i :: 0 <= i < |entries| ==> |nameOf(entries[i].key)| <= w
    ensures entries == [] ==> w == 0
    ensures entries != [] ==> exists i :: 0 <= i < |entries| && |nameOf(entries[i].key)| == w
  {
    if entries == [] then 0
    else
      var w := Width(entries[..|entries| - 1], nameOf);
      var n := |nameOf(entries[|entries| - 1].key)|;
      if n > w then n else w
  }

  /** A name line: the name left-justified to width + 3, a separating space, the text. */
  function NameLine(name: string, text: string, width: nat): string {
    Text.LJust(name, width + 3) + " " + text
  }

  /** A continuation line: width + 3 spaces, a separating space, the row. */
  function RowLine(row: string, width: nat): string {
    Text.Spaces(width + 3) + " " + row
  }

  /** The lines one option prints; an empty tuple fails on `description[0]`. */
  function EntryLines(name: string, description: Description, width: nat): Result<seq<string>> {
    match description
    case Plain(text) => Ok([NameLine(name, text, width), ""])
    case Tuple(rows) =>
      if rows == [] then Err(IndexError("tuple index out of range"))
      else Ok([NameLine(name, rows[0], width)]
              + seq(|rows| - 1, j requires 0 <= j < |rows| - 1 => RowLine(rows[j + 1], width))
              + [""])
  }

  /** What printing `entries` in order produces: it stops at the first failing option. */
  function Emit(entries: seq<Entry>, nameOf: string -> string, width: nat): Output {
    if entries == [] then Output([], None)
    else
      var before := Emit(entries[..|entries| - 1], nameOf, width);
      var e := entries[|entries| - 1];
      if before.raised.Some? then before
      else match EntryLines(nameOf(e.key), e.description, width)
        case Ok(lines) => Output(before.lines + lines, None)
        case Err(error) => Output(before.lines, Some(error))
  }

  /** The whole listing of a registry. */
  function ListingOf(registered: seq<Entry>, nameOf: string -> string): Output {
    var sorted := SortByKey(registered);
    Emit(sorted, nameOf, Width(sorted, nameOf))
  }

  /** Once an option fails, the options after it print nothing and the failure stays. */
  lemma {:induction false} EmitStopsAtFailure(entries: seq<Entry>, nameOf: string -> string, width: nat, i: nat)
    requires i <= |entries|
    requires Emit(entries[..i], nameOf, width).raised.Some?
    ensures Emit(entries, nameOf, width) == Emit(entries[..i], nameOf, width)
    decreases |entries| - i
  {
    if i < |entries| {
      assert entries[..i + 1][..i] == entries[..i];
      EmitStopsAtFailure(entries, nameOf, width, i + 1);
    } else {
      assert entries[..i] == entries;
    }
  }

  /** The first loop of `print_options`: the widest transformed name. */
  method ColumnWidth(sorted: seq<Entry>, nameOf: string -> string) returns (width: nat)
    ensures width == Width(sorted, nameOf)
  {
    width := 0;
    var i := 0;
    while i < |sorted|
      invariant 0 <= i <= |sorted|
      invariant width == Width(sorted[..i], nameOf)
    {
      assert sorted[..i + 1][..i] == sorted[..i];
      var length := |nameOf(sorted[i].key)|;
      if length > width {
        width := length;
      }
      i := i + 1;
    }
    assert sorted[..i] == sorted;
  }

  /** The second loop of `print_options`: each option's lines, in order, until one fails. */
  method EmitAll(sorted: seq<Entry>, nameOf: string -> string, width: nat) returns (out: Output)
    ensures out == Emit(sorted, nameOf, width)
  {
    var lines: seq<string> := [];
    var i := 0;
    while i < |sorted|
      invariant 0 <= i <= |sorted|
      invariant Emit(sorted[..i], nameOf, width) == Output(lines, None)
    {
      assert sorted[..i + 1][..i] == sorted[..i];
      var option := sorted[i];
      var printed := EntryLines(nameOf(option.key), option.description, width);
      if printed.Err? {
        EmitStopsAtFailure(sorted, nameOf, width, i + 1);
        return Output(lines, Some(printed.error));
      }
      lines := lines + printed.value;
      i := i + 1;
    }
    assert sorted[..i] == sorted;
    out := Output(lines, None);
  }

  /**
   * `print_options`: sort a copy of the registry by key, size the column,
   * print. The registry itself is not reordered.
   */
  method Render(registered: seq<Entry>, nameOf: string -> string) returns (out: Output)
    ensures out == ListingOf(registered, nameOf)
  {
    var sorted := SortByKey(registered);
    var width := ColumnWidth(sorted, nameOf);
    out := EmitAll(sorted, nameOf, width);
  }

  /* ---------- properties of the layout ---------- */

  /**
   * Column alignment: for a name no wider than the column, the name line
   * holds the padded name in its first width + 3 characters, a space, then
   * the text; continuation rows hold only spaces before the same column.
   */
  lemma NameLineAligned(name: string, text: string, width: nat)
    requires |name| <= width
    ensures var l := NameLine(name, text, width);
            |l| == width + 4 + |text|
            && l[..|name|] == name
            && (forall c :: |name| <= c <= width + 3 ==> l[c] == ' ')
            && l[width + 4..] == text
  {
  }

  lemma RowLineAligned(row: string, width: nat)
    ensures var l := RowLine(row, width);
            |l| == width + 4 + |row|
            && (forall c :: 0 <= c <= width + 3 ==> l[c] == ' ')
            && l[width + 4..] == row
  {
  }

  /**
   * One option prints one name line, one line per further tuple row and one
   * blank line; only an empty tuple fails.
   */
  lemma EntryLinesShape(name: string, description: Description, width: nat)
    ensures EntryLines(name, description, width).Err? <==> description == Tuple([])
    ensures match EntryLines(name, description, width)
            case Err(_) => true
            case Ok(lines) =>
              var rows := if description.Plain? then [description.text] else description.rows;
              |lines| == |rows| + 1
              && lines[0] == NameLine(name, rows[0], width)
              && (forall j :: 1 <= j < |rows| ==> lines[j] == RowLine(rows[j], width))
              && lines[|lines| - 1] == ""
  {
  }

  /** Every option in the listing has a name no wider than the column. */
  lemma ColumnFitsEveryName(registered: seq<Entry>, nameOf: string -> string)
    ensures var sorted := SortByKey(registered);
            forall i :: 0 <= i < |sorted| ==> |nameOf(sorted[i].key)| <= Width(sorted, nameOf)
  {
  }

  /**
   * When nothing fails, the listing is the options' own line groups, one
   * after the other in key order.
   */
  lemma {:induction false} EmitConcatenates(entries: seq<Entry>, nameOf: string -> string, width: nat)
    requires forall i :: 0 <= i < |entries| ==> entries[i].description != Tuple([])
    ensures Emit(entries, nameOf, width).raised.None?
    ensures |Emit(entries, nameOf, width).lines| == LineCount(entries)
    ensures Emit(entries, nameOf, width).lines == Joined(entries, nameOf, width)
  {
    if entries != [] {
      var init := entries[..|entries| - 1];
      EmitConcatenates(init, nameOf, width);
      var e := entries[|entries| - 1];
      EntryLinesShape(nameOf(e.key), e.description, width);
    }
  }

  /** Each option's own line group, one after the other; a failing option contributes nothing. */
  function Joined(entries: seq<Entry>, nameOf: string -> string, width: nat): seq<string> {
    if entries == [] then []
    else
      var e := entries[|entries| - 1];
      var own := EntryLines(nameOf(e.key), e.description, width);
      Joined(entries[..|entries| - 1], nameOf, width) + (if own.Ok? then own.value else [])
  }

  /** 2 lines for a string description, |rows| + 1 for a tuple. */
  function LineCount(entries: seq<Entry>): nat {
    if entries == [] then 0
    else
      var d := entries[|entries| - 1].description;
      LineCount(entries[..|entries| - 1]) + (if d.Plain? then 2 else |d.rows| + 1)
  }

  /** An empty registry prints nothing. */
  lemma EmptyRegistryPrintsNothing(nameOf: string -> string)
    ensures ListingOf([], nameOf) == Output([], None)
  {
  }
}
