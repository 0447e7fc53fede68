/**
 * `janeiro/cli.py`: the registry where plugins file command-line groups and
 * commands before the command-line interface is assembled.
 */
module Cli {
  import opened Types

  /**
   * A click option declaration: its flags, its value type when one is given,
   * its default (None when not given), help text and whether it is a flag.
   */
  datatype CliOption = CliOption(
    decls: seq<string>,
    typeName: Option<string> := None,
    default: Value := Null,
    help: Option<string> := None,
    isFlag: bool := false)

  /**
   * A command: the bare `click.Command(name, help, callback)`, or a command
   * wrapped by one option decorator. The callback is named by its function.
   */
  datatype Command =
    | Command(name: string, help: string, callback: string)
    | WithOption(option: CliOption, inner: Command)

  /** `for option in options: command = option(command)`: the first option ends up innermost. */
  function Decorate(base: Command, options: seq<CliOption>): Command {
    if options == [] then base
    else WithOption(options[|options| - 1], Decorate(base, options[..|options| - 1]))
  }

  /** The options of a command, innermost first. */
  function OptionsOf(c: Command): seq<CliOption> {
    match c
    case Command(_, _, _) => []
    case WithOption(option, inner) => OptionsOf(inner) + [option]
  }

  /** The bare command under the decorators. */
  function BaseOf(c: Command): (base: Command)
    ensures base.Command?
  {
    match c
    case Command(_, _, _) => c
    case WithOption(_, inner) => BaseOf(inner)
  }

  /** Decorating can be undone: the options come back in list order, over the same bare command. */
  lemma {:induction false} DecorateRoundTrip(base: Command, options: seq<CliOption>)
    requires base.Command?
    ensures OptionsOf(Decorate(base, options)) == options
    ensures BaseOf(Decorate(base, options)) == base
  {
    if options != [] {
      DecorateRoundTrip(base, options[..|options| - 1]);
      assert options == options[..|options| - 1] + [options[|options| - 1]];
    }
  }

  /** The decorating loop of `add_command`. */
  method ApplyOptions(base: Command, options: seq<CliOption>) returns (command: Command)
    ensures command == Decorate(base, options)
  {
    command := base;
    var i := 0;
    while i < |options|
      invariant 0 <= i <= |options|
      invariant command == Decorate(base, options[..i])
    {
      assert options[..i + 1][..i] == options[..i];
      command := WithOption(options[i], command);
      i := i + 1;
    }
    assert options[..i] == options;
  }

  /** `declare_group` on the description map: only an absent or None description is replaced. */
  function Declared(descriptions: map<string, Option<string>>, group: string,
                    description: Option<string>): map<string, Option<string>> {
    if group !in descriptions || descriptions[group].None? then descriptions[group := description]
    else descriptions
  }

  /** The first description that is not None wins; later declarations change nothing. */
  lemma FirstDescriptionWins(descriptions: map<string, Option<string>>, group: string,
                             first: string, later: Option<string>)
    ensures Declared(Declared(descriptions, group, Some(first)), group, later)[group]
            == (if group in descriptions && descriptions[group].Some? then descriptions[group] else Some(first))
  {
  }

  /** A None description does not block a later one. */
  lemma NoneDoesNotBlock(descriptions: map<string, Option<string>>, group: string, later: Option<string>)
    requires group !in descriptions || descriptions[group].None?
    ensures Declared(Declared(descriptions, group, None), group, later)[group] == later
  {
  }

  /** `declare_group` never touches another group's description. */
  lemma DeclaredFramesOtherGroups(descriptions: map<string, Option<string>>, group: string,
                                  description: Option<string>)
    ensures var d := Declared(descriptions, group, description);
            d.Keys == descriptions.Keys + {group}
            && forall g :: g in descriptions && g != group ==> d[g] == descriptions[g]
  {
  }

  /** `add_command` on the command lists: the group's list, created empty if missing, grows by the command. */
  function Filed(commands: map<Option<string>, seq<Command>>, group: Option<string>,
                 command: Command): map<Option<string>, seq<Command>> {
    commands[group := (if group in commands then commands[group] else []) + [command]]
  }

  /** One list grows by exactly one command at its end; every other list is unchanged. */
  lemma FiledGrowsOneList(commands: map<Option<string>, seq<Command>>, group: Option<string>, command: Command)
    ensures var c := Filed(commands, group, command);
            c.Keys == commands.Keys + {group}
            && |c[group]| == (if group in commands then |commands[group]| else 0) + 1
            && c[group][|c[group]| - 1] == command
            && (group in commands ==> c[group][..|commands[group]|] == commands[group])
            && (forall g :: g in commands && g != group ==> c[g] == commands[g])
  {
  }

  /** Several commands filed in a row under one group, as the list they leave. */
  function FiledAll(commands: map<Option<string>, seq<Command>>, group: Option<string>,
                    added: seq<Command>): map<Option<string>, seq<Command>> {
    commands[group := (if group in commands then commands[group] else []) + added]
  }

  /** Filing one more command extends the run of filed commands by it. */
  lemma FiledAllStep(commands: map<Option<string>, seq<Command>>, group: Option<string>,
                     added: seq<Command>, command: Command)
    ensures Filed(FiledAll(commands, group, added), group, command) == FiledAll(commands, group, added + [command])
  {
    var before := if group in commands then commands[group] else [];
    assert before + added + [command] == before + (added + [command]);
  }

  /** The first command of a group creates its list, which then holds exactly that command. */
  lemma FirstCommandCreatesList(commands: map<Option<string>, seq<Command>>, group: Option<string>,
                                command: Command)
    requires group !in commands
    ensures Filed(commands, group, command)[group] == [command]
  {
  }

  class CliRegistry {
    var description: Option<string>
    var groupDescriptions: map<string, Option<string>>
    var groupCommands: map<Option<string>, seq<Command>>

    /** No description, no groups, no commands. */
    constructor()
      ensures description == None && groupDescriptions == map[] && groupCommands == map[]
    {
      description := None;
      groupDescriptions := map[];
      groupCommands := map[];
    }

    /** `declare_group`: record the description unless one is already set; commands are untouched. */
    method DeclareGroup(group: string, description: Option<string>)
      modifies this
      ensures groupDescriptions == Declared(old(groupDescriptions), group, description)
      ensures groupCommands == old(groupCommands) && this.description == old(this.description)
    {
      if group !in groupDescriptions || groupDescriptions[group].None? {
        groupDescriptions := groupDescriptions[group := description];
      }
    }

    /**
     * `add_command`: wrap the callback in a command, apply the options in
     * order and file it at the end of its group's list (None is the root
     * group); descriptions are untouched and no declaration is required.
     */
    method AddCommand(callback: string, name: string, help: string, options: seq<CliOption>,
                      group: Option<string>)
      modifies this
      ensures groupCommands == Filed(old(groupCommands), group, Decorate(Command(name, help, callback), options))
      ensures groupDescriptions == old(groupDescriptions) && description == old(description)
    {
      var commandList := if group in groupCommands then groupCommands[group] else [];
      var command := ApplyOptions(Command(name, help, callback), options);
      groupCommands := groupCommands[group := commandList + [command]];
    }
  }
}
