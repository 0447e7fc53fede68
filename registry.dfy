/**
 * `janeiro/config/registry.py`: the option registry of the `janeiro/config/`
 * package. Its listing names options through a `janeiro/config/config.py`
 * configuration.
 */
module Registry {
  import opened Types
  import Text
  import Listing
  import LoaderBase
  import LoaderConfiguration

  /** The naming the listing uses: `config.get_option_name`. */
  function NameOf(config: LoaderConfiguration.Configuration): string -> string {
    k => LoaderConfiguration.GetOptionName(config, k)
  }

  /** `REGISTERED_OPTIONS` with the two functions that use it. */
  class OptionRegistry {
    var options: seq<Listing.Entry>

    /** The list starts empty. */
    constructor()
      ensures options == []
    {
      options := [];
    }

    /** `register_options`: extend at the end, in argument order, keeping duplicate keys. */
    method RegisterOptions(given: seq<Listing.Entry>)
      modifies this
      ensures options == old(options) + given
    {
      options := options + given;
    }

    /** `print_options`: the sorted, aligned listing, named by `config.get_option_name`. */
    method PrintOptions(config: LoaderConfiguration.Configuration) returns (out: Listing.Output)
      ensures out == Listing.ListingOf(options, NameOf(config))
    {
      out := Listing.Render(options, NameOf(config));
    }
  }

  /** The dictionary loader's naming, as the listing sees it. */
  function DictNames(): string -> string {
    NameOf(LoaderConfiguration.Configuration(LoaderBase.DictionnaryLoader(map[])))
  }

  const Url := Listing.Entry("database.url", Listing.Plain("Database URL"))
  const Debug := Listing.Entry("app.debug", Listing.Tuple(["Debug mode", "Set to 1"]))

  lemma ExampleSorted()
    ensures Listing.SortByKey([Url, Debug]) == [Debug, Url]
  {
    assert !Listing.KeyLe(Url.key, Debug.key);
    assert [Url, Debug][..1] == [Url];
    assert [Url][..0] == [];
    assert Listing.SortByKey([Url]) == [Url];
    assert Listing.Insert([Url], Debug) == Listing.Insert([], Debug) + [Url];
  }

  lemma ExampleWidth()
    ensures Listing.Width([Debug, Url], DictNames()) == 12
  {
    assert [Debug, Url][..1] == [Debug];
  }

  lemma ExampleDebugLines()
    ensures Listing.EntryLines(DictNames()(Debug.key), Debug.description, 12)
            == Ok(["app.debug       Debug mode", "                Set to 1", ""])
  {
    assert DictNames()(Debug.key) == "app.debug";
    assert Text.LJust("app.debug", 15) == "app.debug      ";
    assert Text.Spaces(15) == "               ";
    assert Listing.NameLine("app.debug", "Debug mode", 12) == "app.debug      " + " " + "Debug mode";
    assert "app.debug      " + " " + "Debug mode" == "app.debug       Debug mode";
    assert "               " + " " + "Set to 1" == "                Set to 1";
    assert Listing.RowLine("Set to 1", 12) == "               " + " " + "Set to 1";
    var rows := ["Debug mode", "Set to 1"];
    assert seq(|rows| - 1, j requires 0 <= j < |rows| - 1 => Listing.RowLine(rows[j + 1], 12))
           == [Listing.RowLine("Set to 1", 12)];
    assert Listing.EntryLines("app.debug", Listing.Tuple(rows), 12)
           == Ok([Listing.NameLine("app.debug", "Debug mode", 12)] + [Listing.RowLine("Set to 1", 12)] + [""]);
    assert Debug.description == Listing.Tuple(rows);
    assert [Listing.NameLine("app.debug", "Debug mode", 12)] + [Listing.RowLine("Set to 1", 12)] + [""]
           == ["app.debug       Debug mode", "                Set to 1", ""];
  }

  lemma ExampleUrlLines()
    ensures Listing.EntryLines(DictNames()(Url.key), Url.description, 12)
            == Ok(["database.url    Database URL", ""])
  {
    assert DictNames()(Url.key) == "database.url";
    assert Text.LJust("database.url", 15) == "database.url   ";
    assert Listing.NameLine("database.url", "Database URL", 12) == "database.url   " + " " + "Database URL";
    assert "database.url   " + " " + "Database URL" == "database.url    Database URL";
  }

  lemma ExampleEmitDebug()
    ensures Listing.Emit([Debug], DictNames(), 12)
            == Listing.Output(["app.debug       Debug mode", "                Set to 1", ""], None)
  {
    ExampleDebugLines();
    assert [Debug][..0] == [];
  }

  lemma ExampleEmitBoth()
    ensures Listing.Emit([Debug, Url], DictNames(), 12)
            == Listing.Output(["app.debug       Debug mode", "                Set to 1", ""]
                              + ["database.url    Database URL", ""], None)
  {
    ExampleEmitDebug();
    ExampleUrlLines();
    assert [Debug, Url][..1] == [Debug];
  }

  /**
   * Two options registered out of order, one with a tuple description, listed
   * through a dictionary loader: key order, a 15-column name field, the second
   * row under the column, a blank line after each option.
   */
  lemma ListingExample()
    ensures Listing.ListingOf([Url, Debug], DictNames())
            == Listing.Output(
                 ["app.debug       Debug mode",
                  "                Set to 1",
                  "",
                  "database.url    Database URL",
                  ""],
                 None)
  {
    ExampleSorted();
    ExampleWidth();
    ExampleEmitBoth();
  }
}
