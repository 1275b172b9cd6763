/**
 * middleware/installer/__init__.py: the `middleware-apm` command line. A
 * module-level dict maps command names to their callbacks; the `command`
 * decorator registers one, `help` describes them and `main` dispatches on
 * `sys.argv`.
 *
 * Printed output is the sequence of printed strings, one per `print` call;
 * `sys.exit(1)` is an outcome. Callbacks other than `help` are tags, since
 * their code (the `run` command) is not part of this model.
 */
module Installer {
  import opened Strings

  /** A registered callback: `help` itself or a command defined elsewhere. */
  datatype Callback = HelpCallback | CommandCallback(id: string)

  /** A callback with the attributes the decorator sets on it. */
  datatype Entry = Entry(callback: Callback, options: string, description: string, hidden: bool)

  // ------------------------------------------------------------- sorting

  /** `x` inserted into a strictly sorted sequence at its place. */
  function Insert(s: seq<string>, x: string): seq<string>
    decreases |s|
  {
    if s == [] then [x]
    else if Less(x, s[0]) then [x] + s
    else [s[0]] + Insert(s[1..], x)
  }

  /** Inserting a new element keeps the sequence strictly sorted and adds exactly that element. */
  lemma {:induction false} InsertSorted(s: seq<string>, x: string)
    requires StrictlySorted(s) && x !in s
    ensures StrictlySorted(Insert(s, x))
    ensures forall n :: n in Insert(s, x) <==> n == x || n in s
    decreases |s|
  {
    if s != [] {
      if Less(x, s[0]) {
        forall j | 0 < j < |s| ensures Less(x, s[j]) {
          LessTransitive(x, s[0], s[j]);
        }
      } else {
        LessTotal(x, s[0]);
        var tail := s[1..];
        InsertSorted(tail, x);
        var rest := Insert(tail, x);
        forall n | n in rest ensures Less(s[0], n) {
          if n != x {
            var j :| 0 <= j < |tail| && tail[j] == n;
            assert s[j + 1] == n;
          }
        }
        var r := [s[0]] + rest;
        forall i, j | 0 <= i < j < |r| ensures Less(r[i], r[j]) {
          if i == 0 {
            assert r[j] in rest;
          } else {
            assert r[i] == rest[i - 1] && r[j] == rest[j - 1];
          }
        }
        assert s == [s[0]] + tail;
      }
    }
  }

  /** `sorted(keys)`: the keys in code-point order. */
  method SortedNames(keys: set<string>) returns (names: seq<string>)
    ensures StrictlySorted(names)
    ensures forall n :: n in names <==> n in keys
  {
    names := [];
    var rest := keys;
    while rest != {}
      invariant rest <= keys
      invariant StrictlySorted(names)
      invariant forall n :: n in names <==> n in keys && n !in rest
      decreases rest
    {
      var x :| x in rest;
      InsertSorted(names, x);
      names := Insert(names, x);
      rest := rest - {x};
    }
  }

  /** Two strictly sorted sequences with the same elements are equal, so a listing is determined by its elements. */
  lemma {:induction false} SortedUnique(a: seq<string>, b: seq<string>)
    requires StrictlySorted(a) && StrictlySorted(b)
    requires forall n :: n in a <==> n in b
    ensures a == b
    decreases |a|
  {
    assert a == [] || a[0] in a;
    assert b == [] || b[0] in b;
    if a != [] && b != [] {
      assert a[0] in b && b[0] in a;
      var k :| 0 <= k < |b| && b[k] == a[0];
      var m :| 0 <= m < |a| && a[m] == b[0];
      if k > 0 && m > 0 {
        LessTransitive(a[0], b[0], a[0]);
        LessIrreflexive(a[0]);
      }
      var ta, tb := a[1..], b[1..];
      forall n ensures n in ta <==> n in tb {
        if n in ta {
          var i :| 0 <= i < |ta| && ta[i] == n;
          assert Less(a[0], a[i + 1]);
          LessIrreflexive(n);
          assert n in b;
        }
        if n in tb {
          var i :| 0 <= i < |tb| && tb[i] == n;
          assert Less(b[0], b[i + 1]);
          LessIrreflexive(n);
          assert n in a;
        }
      }
      SortedUnique(ta, tb);
      assert a == [a[0]] + ta && b == [b[0]] + tb;
    }
  }

  // --------------------------------------------------------------- output

  function Banner(): seq<string> {
    [ "Usage: middleware-apm command [options]",
      "",
      "Type 'middleware-apm help <command>'for help on a specific command.",
      "",
      "Available commands are:" ]
  }

  /** `print(" ", name)` for each name. */
  function Indented(names: seq<string>): seq<string> {
    seq(|names|, i requires 0 <= i < |names| => "  " + names[i])
  }

  function HelpUnknown(name: string): string {
    "Unknown command '" + name + "'. Type 'middleware-apm help' for usage."
  }

  function MainUnknown(command: string): string {
    "Unknown command '" + command + "'.Type 'middleware-apm help' for usage."
  }

  function Usage(name: string, options: string): string {
    "Usage: middleware-apm " + name + " " + options
  }

  /** The names `help` lists: exactly the registered names that are not hidden, in sorted order. */
  ghost predicate Listing(commands: map<string, Entry>, listed: seq<string>) {
    && StrictlySorted(listed)
    && forall n :: n in listed <==> n in commands && !commands[n].hidden
  }

  /** What `help(args)` prints. */
  ghost predicate HelpOutput(commands: map<string, Entry>, args: seq<string>, lines: seq<string>) {
    if args == [] then
      exists listed :: Listing(commands, listed) && lines == Banner() + Indented(listed)
    else if args[0] !in commands then
      lines == [HelpUnknown(args[0])]
    else
      var details := commands[args[0]];
      lines == [Usage(args[0], details.options)] + (if details.description != "" then ["", details.description] else [])
  }

  /** The listing is unique: any two listings of the same registry are the same sequence. */
  lemma ListingUnique(commands: map<string, Entry>, a: seq<string>, b: seq<string>)
    requires Listing(commands, a) && Listing(commands, b)
    ensures a == b
  {
    SortedUnique(a, b);
  }

  /** The names of `names` that are registered and not hidden, in their order. */
  function VisibleOf(names: seq<string>, commands: map<string, Entry>): seq<string>
    decreases |names|
  {
    if names == [] then []
    else
      var last := names[|names| - 1];
      VisibleOf(names[..|names| - 1], commands)
      + (if last in commands && !commands[last].hidden then [last] else [])
  }

  /** Filtering keeps exactly the visible names and keeps a strictly sorted sequence strictly sorted. */
  lemma VisibleOfSpec(names: seq<string>, commands: map<string, Entry>)
    ensures forall n :: n in VisibleOf(names, commands) <==> n in names && n in commands && !commands[n].hidden
    ensures StrictlySorted(names) ==> StrictlySorted(VisibleOf(names, commands))
  {
    VisibleOfMembers(names, commands);
    if StrictlySorted(names) {
      VisibleOfSorted(names, commands);
    }
  }

  /** The filtered names are exactly the visible ones. */
  lemma {:induction false} VisibleOfMembers(names: seq<string>, commands: map<string, Entry>)
    ensures forall n :: n in VisibleOf(names, commands) <==> n in names && n in commands && !commands[n].hidden
    decreases |names|
  {
    if names != [] {
      var init := names[..|names| - 1];
      VisibleOfMembers(init, commands);
      assert names == init + [names[|names| - 1]];
    }
  }

  /** Filtering a strictly sorted sequence keeps it strictly sorted. */
  lemma {:induction false} VisibleOfSorted(names: seq<string>, commands: map<string, Entry>)
    requires StrictlySorted(names)
    ensures StrictlySorted(VisibleOf(names, commands))
    decreases |names|
  {
    if names != [] {
      var init := names[..|names| - 1];
      var last := names[|names| - 1];
      assert StrictlySorted(init) by {
        forall i, j | 0 <= i < j < |init| ensures Less(init[i], init[j]) {
          assert init[i] == names[i] && init[j] == names[j];
        }
      }
      VisibleOfSorted(init, commands);
      VisibleOfMembers(init, commands);
      var v := VisibleOf(init, commands);
      forall n | n in v ensures Less(n, last) {
        var i :| 0 <= i < |init| && init[i] == n;
        assert names[i] == n;
      }
      var r := VisibleOf(names, commands);
      forall i, j | 0 <= i < j < |r| ensures Less(r[i], r[j]) {
        if j < |v| {
          assert r[i] == v[i] && r[j] == v[j];
        } else {
          assert r[i] == v[i] && r[j] == last;
        }
      }
    }
  }

  class Registry {
    /** `_commands`. */
    var commands: map<string, Entry>

    /** The decorator on line 28 registers `help`, hidden, with options "[command]". */
    constructor ()
      ensures commands == map["help" := Entry(HelpCallback, "[command]", "", true)]
    {
      commands := map["help" := Entry(HelpCallback, "[command]", "", true)];
    }

    /** `command(name, options, description, hidden)(callback)`: a later registration replaces an earlier one. */
    method Command(name: string, options: string, description: string, hidden: bool, callback: Callback)
      returns (registered: Callback)
      modifies this
      ensures commands == old(commands)[name := Entry(callback, options, description, hidden)]
      ensures registered == callback
    {
      commands := commands[name := Entry(callback, options, description, hidden)];
      registered := callback;
    }

    /** `help(args)`. */
    method Help(args: seq<string>) returns (lines: seq<string>)
      ensures HelpOutput(commands, args, lines)
    {
      if args == [] {
        lines := Banner();
        var names := SortedNames(commands.Keys);
        ghost var listed: seq<string> := [];
        var i := 0;
        while i < |names|
          invariant 0 <= i <= |names|
          invariant listed == VisibleOf(names[..i], commands)
          invariant lines == Banner() + Indented(listed)
        {
          assert names[..i + 1][..i] == names[..i];
          var name := names[i];
          var details := commands[name];
          if !details.hidden {
            lines := lines + ["  " + name];
            listed := listed + [name];
          }
          i := i + 1;
        }
        assert names[..i] == names;
        VisibleOfSpec(names, commands);
        assert Listing(commands, listed);
      } else {
        var name := args[0];
        if name !in commands {
          lines := [HelpUnknown(name)];
        } else {
          var details := commands[name];
          lines := [Usage(name, details.options)];
          if details.description != "" {
            lines := lines + ["", details.description];
          }
        }
      }
    }

    /** `main()` on `sys.argv`: run the named command, or "help" when none is named. */
    method Dispatch(argv: seq<string>) returns (outcome: Outcome)
      ensures var command := if |argv| > 1 then argv[1] else "help";
        && (command !in commands ==> outcome == Exit(1, [MainUnknown(command)]))
        && (command in commands ==>
              && outcome.Invoked?
              && outcome.callback == commands[command].callback
              && outcome.args == (if |argv| > 2 then argv[2..] else []))
      ensures outcome.Invoked? && outcome.callback.HelpCallback? ==> HelpOutput(commands, outcome.args, outcome.output)
      ensures outcome.Invoked? && outcome.callback.CommandCallback? ==> outcome.output == []
    {
      var command := if |argv| > 1 then argv[1] else "help";
      if command !in commands {
        return Exit(1, [MainUnknown(command)]);
      }
      var callback := commands[command].callback;
      var args := if |argv| > 2 then argv[2..] else [];
      var output := [];
      if callback.HelpCallback? {
        output := Help(args);
      }
      outcome := Invoked(callback, args, output);
    }
  }

  /** How `main` ends: `sys.exit(status)` after printing, or a call of the callback and what it printed. */
  datatype Outcome =
    | Exit(status: int, lines: seq<string>)
    | Invoked(callback: Callback, args: seq<string>, output: seq<string>)

  /** "help" is registered hidden, so the registry line 28 creates lists no command at all. */
  method FreshListing() returns (lines: seq<string>)
    ensures lines == Banner()
  {
    var registry := new Registry();
    lines := registry.Help([]);
    ghost var listed :| Listing(registry.commands, listed) && lines == Banner() + Indented(listed);
    assert Listing(registry.commands, []);
    ListingUnique(registry.commands, listed, []);
    assert listed == [];
  }

  /**
   * Importing the package: line 28 registers `help`, then `default_imports()`
   * imports the `run` submodule, whose decorator registers the visible `run`
   * command with options "...". Its long description is the parameter. The
   * import of `run` is taken to succeed: the configuration the submodule loads
   * first (middleware/config.py) is not part of this model.
   */
  method ImportPackage(runDescription: string) returns (registry: Registry)
    ensures fresh(registry)
    ensures registry.commands == map[
      "help" := Entry(HelpCallback, "[command]", "", true),
      "run" := Entry(CommandCallback("run"), "...", runDescription, false)]
  {
    registry := new Registry();
    var _ := registry.Command("run", "...", runDescription, false, CommandCallback("run"));
  }

  /** After the import, `help` with no arguments lists exactly the `run` command. */
  method ImportedListing(runDescription: string) returns (lines: seq<string>)
    ensures lines == Banner() + ["  run"]
  {
    var registry := ImportPackage(runDescription);
    lines := registry.Help([]);
    ghost var listed :| Listing(registry.commands, listed) && lines == Banner() + Indented(listed);
    assert Listing(registry.commands, ["run"]);
    ListingUnique(registry.commands, listed, ["run"]);
    assert |Indented(["run"])| == 1 && Indented(["run"])[0] == "  run";
  }
}
