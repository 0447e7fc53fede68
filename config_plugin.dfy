/**
 * `janeiro/plugins/defaults/config.py`: the plugin that keeps the
 * configuration it is given and offers the "options" and "dump" commands.
 *
 * `print_options` is the one of `janeiro/config.py`. The cache the dump
 * command prints is given as its entries in iteration order, each value
 * already rendered as text.
 */
module ConfigPlugin {
  import opened Types
  import Text
  import Listing
  import FlatConfig

  const MaxOfNothing := ValueError("max() arg is an empty sequence")
  const NoConfig := AttributeError("'ConfigPlugin' object has no attribute 'config'")

  /** `max(len(key) for key in cache)` over a non-empty cache. */
  function LongestKey(entries: seq<(string, string)>): (w: nat)
    requires entries != []
    ensures forall i :: 0 <= i < |entries| ==> |entries[i].0| <= w
    ensures exists i :: 0 <= i < |entries| && |entries[i].0| == w
  {
    if |entries| == 1 then |entries[0].0|
    else
      var w := LongestKey(entries[..|entries| - 1]);
      var n := |entries[|entries| - 1].0|;
      if n > w then n else w
  }

  /** One dump line: `key + ":"` left-justified to width + 3, immediately followed by the value. */
  function DumpLine(key: string, value: string, width: nat): string {
    Text.LJust(key + ":", width + 3) + value
  }

  /** What `dump` prints: one line per entry in order; an empty cache fails on `max`. */
  function DumpOutput(entries: seq<(string, string)>): Listing.Output {
    if entries == [] then Listing.Output([], Some(MaxOfNothing))
    else
      var width := LongestKey(entries);
      Listing.Output(seq(|entries|, i requires 0 <= i < |entries| => DumpLine(entries[i].0, entries[i].1, width)), None)
  }

  /** The printing loop of `dump`. */
  method Dump(entries: seq<(string, string)>) returns (out: Listing.Output)
    ensures out == DumpOutput(entries)
  {
    if entries == [] {
      return Listing.Output([], Some(MaxOfNothing));
    }
    var width := LongestKey(entries);
    var lines: seq<string> := [];
    var i := 0;
    while i < |entries|
      invariant 0 <= i <= |entries|
      invariant |lines| == i
      invariant forall j :: 0 <= j < i ==> lines[j] == DumpLine(entries[j].0, entries[j].1, width)
    {
      var (key, value) := entries[i];
      lines := lines + [DumpLine(key, value, width)];
      i := i + 1;
    }
    out := Listing.Output(lines, None);
  }

  /** One line's layout: the key and colon, spaces up to column width + 3, then the value. */
  lemma DumpLineShape(key: string, value: string, width: nat)
    requires |key| <= width
    ensures var line := DumpLine(key, value, width);
            |line| == width + 3 + |value|
            && line[..|key| + 1] == key + ":"
            && (forall c :: |key| + 1 <= c < width + 3 ==> line[c] == ' ')
            && line[width + 3..] == value
  {
    var padded := Text.LJust(key + ":", width + 3);
    assert |padded| == width + 3;
    assert DumpLine(key, value, width)[..|key| + 1] == padded[..|key| + 1];
  }

  /**
   * Alignment: every line starts with its key and a colon, pads with spaces
   * and has its value starting at column width + 3, so values line up.
   */
  lemma DumpAligned(entries: seq<(string, string)>)
    requires entries != []
    ensures var out := DumpOutput(entries);
            var width := LongestKey(entries);
            out.raised == None && |out.lines| == |entries|
            && forall i :: 0 <= i < |entries| ==>
                 var line := out.lines[i];
                 |line| == width + 3 + |entries[i].1|
                 && line[..|entries[i].0| + 1] == entries[i].0 + ":"
                 && (forall c :: |entries[i].0| + 1 <= c < width + 3 ==> line[c] == ' ')
                 && line[width + 3..] == entries[i].1
  {
    var width := LongestKey(entries);
    forall i | 0 <= i < |entries|
      ensures var line := DumpOutput(entries).lines[i];
              |line| == width + 3 + |entries[i].1|
              && line[..|entries[i].0| + 1] == entries[i].0 + ":"
              && (forall c :: |entries[i].0| + 1 <= c < width + 3 ==> line[c] == ' ')
              && line[width + 3..] == entries[i].1
    {
      DumpLineShape(entries[i].0, entries[i].1, width);
    }
  }

  /** The longest key's colon is followed by exactly two spaces; no key gets fewer. */
  lemma LongestKeyGetsTwoSpaces(entries: seq<(string, string)>)
    requires entries != []
    ensures exists i :: 0 <= i < |entries| && DumpOutput(entries).lines[i]
                          == entries[i].0 + ":  " + entries[i].1
    ensures forall i :: 0 <= i < |entries| ==>
              DumpOutput(entries).lines[i][|entries[i].0| + 1..|entries[i].0| + 3] == "  "
  {
    var width := LongestKey(entries);
    var i :| 0 <= i < |entries| && |entries[i].0| == width;
    var line := DumpLine(entries[i].0, entries[i].1, width);
    DumpLineShape(entries[i].0, entries[i].1, width);
    assert line == line[..width + 1] + line[width + 1..width + 3] + line[width + 3..];
    assert line[width + 1..width + 3] == "  ";
    assert DumpOutput(entries).lines[i] == line;
    forall j | 0 <= j < |entries|
      ensures DumpOutput(entries).lines[j][|entries[j].0| + 1..|entries[j].0| + 3] == "  "
    {
      var l := DumpLine(entries[j].0, entries[j].1, width);
      DumpLineShape(entries[j].0, entries[j].1, width);
      var k := |entries[j].0| + 1;
      assert l[k..k + 2] == [l[k], l[k + 1]];
      assert DumpOutput(entries).lines[j] == l;
    }
  }

  class ConfigPlugin {
    /** The stored configuration; None until `configure` runs. */
    var config: Option<FlatConfig.Configuration>

    constructor()
      ensures config == None
    {
      config := None;
    }

    /** `configure`: keep the configuration as given. */
    method Configure(config: FlatConfig.Configuration)
      modifies this
      ensures this.config == Some(config)
    {
      this.config := Some(config);
    }

    /** The "options" command: `print_options` with the stored configuration. */
    method OptionsCommand(registry: FlatConfig.OptionRegistry) returns (out: Listing.Output)
      ensures config.None? ==> out == Listing.Output([], Some(NoConfig))
      ensures config.Some? ==> out == FlatConfig.OptionsListing(registry.options, config.value)
    {
      if config.None? {
        return Listing.Output([], Some(NoConfig));
      }
      out := registry.PrintOptions(config.value);
    }

    /** The "dump" command, over the configuration's cache entries. */
    method DumpCommand(entries: seq<(string, string)>) returns (out: Listing.Output)
      ensures config.None? ==> out == Listing.Output([], Some(NoConfig))
      ensures config.Some? ==> out == DumpOutput(entries)
    {
      if config.None? {
        return Listing.Output([], Some(NoConfig));
      }
      out := Dump(entries);
    }
  }
}
