/**
 * `write_toml_manual` of the Codex config sync script: the hand-written
 * serialiser that turns the merged document into TOML-like text.
 *
 * The file is opened for writing (and so truncated) before anything is
 * written, and every write ends in a newline; the text written is therefore a
 * sequence of lines. A nested value of the wrong shape makes the Python code
 * raise part-way, leaving the lines written so far in the file: `Written`
 * records those lines together with the exception.
 *
 * `Render` specifies the output; `WriteTomlManual` builds it the way the
 * script does, key by key and table by table.
 */
module TomlWriter {
  import opened Wrappers
  import opened TomlDoc
  import opened PyText
  import opened StrOrder

  /** The exceptions the serialiser can raise. */
  datatype WriteError =
      /** `data[section].items()` on a value that is not a dict (AttributeError) */
    | SectionNotTable(section: string)
      /** `settings.items()` or `settings["command"]` on a value that is not a dict */
    | EntryNotTable(section: string, name: string)
      /** `settings["command"]` on a server without a command (KeyError) */
    | MissingCommand(server: string)
      /** iterating over an `args` that is a number or a boolean (TypeError) */
    | ArgsNotIterable(server: string)

  /** The lines the file holds when the serialiser stops, and the exception it stopped with, if any. */
  datatype Written = Written(lines: seq<string>, error: Option<WriteError>)

  /** Runs `b` after `a`, unless `a` raised. */
  function Then(a: Written, b: Written): Written
  {
    if a.error.Some? then a else Written(a.lines + b.lines, b.error)
  }

  /** The fixed comment header, followed by one blank line. */
  const HeaderLines: seq<string> := [
    "## Codex CLI configuration",
    "# Customize Codex CLI behavior via this config file.",
    "# See https://github.com/openai/codex/blob/main/codex-rs/config.md for options.",
    ""]

  const McpComment: string := "# MCP (Model Context Protocol) servers"

  /** The only tables the serialiser writes, in the order it writes them. */
  const Sections: seq<string> := ["projects", "model_providers", "profiles", "mcp_servers"]

  // ----- the top-level block -----

  /** `[k for k, v in data.items() if not isinstance(v, dict)]` */
  function NonTableKeys(data: Doc): (ks: seq<string>)
    ensures forall k :: k in ks <==> exists i :: 0 <= i < |data| && data[i].0 == k && !data[i].1.Table?
  {
    if data == [] then []
    else
      var init := data[..|data| - 1];
      var last := data[|data| - 1];
      assert forall i :: 0 <= i < |init| ==> init[i] == data[i];
      NonTableKeys(init) + (if last.1.Table? then [] else [last.0])
  }

  /** A string, boolean or integer: the values the top-level block can print. */
  predicate IsScalar(v: Value)
  {
    v.Str? || v.Bool? || v.Int?
  }

  /** What follows `key = ` for a top-level scalar: a string in double quotes,
      a boolean in lower case (tested before integers), an integer bare. */
  function ScalarText(v: Value): string
    requires IsScalar(v)
  {
    if v.Str? then "\"" + v.s + "\""
    else if v.Bool? then (if v.b then "true" else "false")
    else IntToDecimal(v.i)
  }

  /** The line a top-level value prints as; a list prints nothing. */
  function ScalarLines(key: string, v: Value): seq<string>
  {
    if IsScalar(v) then [key + " = " + ScalarText(v)] else []
  }

  /** The lines `data[key]` prints as (a key drawn from `data` is always present). */
  function KeyLines(data: Doc, key: string): seq<string>
  {
    match Lookup(data, key)
    case Some(v) => ScalarLines(key, v)
    case None => []
  }

  function TopLines(data: Doc, keys: seq<string>): seq<string>
  {
    if keys == [] then []
    else TopLines(data, keys[..|keys| - 1]) + KeyLines(data, keys[|keys| - 1])
  }

  /** The top-level keys in sorted order, then one blank line if there was any
      non-table key, printable or not. */
  function TopBlock(data: Doc): seq<string>
  {
    var keys := NonTableKeys(data);
    TopLines(data, SortStrings(keys)) + (if keys != [] then [""] else [])
  }

  // ----- the tables -----

  /** `f'{key} = "{value}"'`: a nested value is always quoted. */
  function QuotedLine(key: string, v: Value): string
  {
    key + " = \"" + PyStr(v) + "\""
  }

  function SettingsLines(settings: Doc): seq<string>
  {
    if settings == [] then []
    else SettingsLines(settings[..|settings| - 1]) + [QuotedLine(settings[|settings| - 1].0, settings[|settings| - 1].1)]
  }

  /** A project path is quoted in its header; a provider or profile name is not. */
  function EntryHeader(section: string, name: string): string
  {
    if section == "projects" then "[projects.\"" + name + "\"]"
    else "[" + section + "." + name + "]"
  }

  /** One entry of `projects`, `model_providers` or `profiles`. */
  function PlainEntryLines(section: string, name: string, settings: Value): Written
  {
    if settings.Table? then Written([EntryHeader(section, name)] + SettingsLines(settings.entries) + [""], None)
    else Written([EntryHeader(section, name)], Some(EntryNotTable(section, name)))
  }

  /** What `for arg in settings['args']` visits, printed with `str`: the
      characters of a string, the items of a list, the keys of a dict. */
  function ArgStrings(args: Value): (r: Option<seq<string>>)
    ensures r.None? <==> args.Bool? || args.Int?
    ensures args.Str? ==> |r.value| == |args.s| && forall k :: 0 <= k < |args.s| ==> r.value[k] == [args.s[k]]
    ensures args.List? ==> |r.value| == |args.items| && forall k :: 0 <= k < |args.items| ==> r.value[k] == PyStr(args.items[k])
    ensures args.Table? ==> |r.value| == |args.entries| && forall k :: 0 <= k < |args.entries| ==> r.value[k] == args.entries[k].0
  {
    match args
    case Str(s) => Some(seq(|s|, k requires 0 <= k < |s| => [s[k]]))
    case List(items) => Some(seq(|items|, k requires 0 <= k < |items| => PyStr(items[k])))
    case Table(entries) => Some(Keys(entries))
    case _ => None
  }

  /** `args = ["a", "b"]` */
  function ArgsLine(parts: seq<string>): string
  {
    "args = [" + Join(seq(|parts|, k requires 0 <= k < |parts| => "\"" + parts[k] + "\""), ", ") + "]"
  }

  /** One entry of `mcp_servers`: header, command, optional args, blank line. */
  function ServerLines(name: string, settings: Value): Written
  {
    var header := EntryHeader("mcp_servers", name);
    if !settings.Table? then Written([header], Some(EntryNotTable("mcp_servers", name)))
    else match Lookup(settings.entries, "command")
      case None => Written([header], Some(MissingCommand(name)))
      case Some(command) =>
        var commandLine := "command = \"" + PyStr(command) + "\"";
        match Lookup(settings.entries, "args")
        case None => Written([header, commandLine, ""], None)
        case Some(args) =>
          match ArgStrings(args)
          case None => Written([header, commandLine], Some(ArgsNotIterable(name)))
          case Some(parts) => Written([header, commandLine, ArgsLine(parts), ""], None)
  }

  function EntryLines(section: string, name: string, settings: Value): Written
  {
    if section == "mcp_servers" then ServerLines(name, settings) else PlainEntryLines(section, name, settings)
  }

  function EntriesLines(section: string, entries: Doc): Written
  {
    if entries == [] then Written([], None)
    else
      var last := entries[|entries| - 1];
      Then(EntriesLines(section, entries[..|entries| - 1]), EntryLines(section, last.0, last.1))
  }

  /** Everything written for one of the four tables (nothing when it is absent). */
  function SectionLines(data: Doc, section: string): Written
  {
    match Lookup(data, section)
    case None => Written([], None)
    case Some(v) =>
      var lead := if section == "mcp_servers" then [McpComment] else [];
      if v.Table? then Then(Written(lead, None), EntriesLines(section, v.entries))
      else Written(lead, Some(SectionNotTable(section)))
  }

  /** The whole output: header, top-level block, then the four tables in order. */
  function Render(data: Doc): Written
  {
    Then(Then(Then(Then(Written(HeaderLines + TopBlock(data), None),
      SectionLines(data, "projects")),
      SectionLines(data, "model_providers")),
      SectionLines(data, "profiles")),
      SectionLines(data, "mcp_servers"))
  }

  lemma EntriesStep(section: string, entries: Doc, i: nat)
    requires i < |entries|
    ensures EntriesLines(section, entries[..i + 1])
         == Then(EntriesLines(section, entries[..i]), EntryLines(section, entries[i].0, entries[i].1))
  {
    assert entries[..i + 1][..i] == entries[..i];
  }

  /** Once an entry raises, no later entry is written. */
  lemma {:induction false} EntriesErrorStops(section: string, entries: Doc, n: nat)
    requires n <= |entries|
    requires EntriesLines(section, entries[..n]).error.Some?
    ensures EntriesLines(section, entries) == EntriesLines(section, entries[..n])
    decreases |entries| - n
  {
    if n < |entries| {
      EntriesStep(section, entries, n);
      EntriesErrorStops(section, entries, n + 1);
    } else {
      assert entries[..n] == entries;
    }
  }

  // ----- the serialiser itself -----

  /** Serialises `data`, line by line, as `write_toml_manual` does. */
  method WriteTomlManual(data: Doc) returns (lines: seq<string>, error: Option<WriteError>)
    ensures Written(lines, error) == Render(data)
  {
    lines := HeaderLines;
    var more := WriteTopLevel(data);
    lines := lines + more;
    more, error := WriteSection(data, "projects");
    lines := lines + more;
    if error.Some? { return; }
    more, error := WriteSection(data, "model_providers");
    lines := lines + more;
    if error.Some? { return; }
    more, error := WriteSection(data, "profiles");
    lines := lines + more;
    if error.Some? { return; }
    more, error := WriteSection(data, "mcp_servers");
    lines := lines + more;
  }

  /** The top-level block: the non-table keys in sorted order, then a blank line. */
  method WriteTopLevel(data: Doc) returns (lines: seq<string>)
    ensures lines == TopBlock(data)
  {
    lines := [];
    var topLevelKeys := CollectTopLevelKeys(data);
    var sorted := SortStrings(topLevelKeys);
    for j := 0 to |sorted|
      invariant lines == TopLines(data, sorted[..j])
    {
      TopLinesStep(data, sorted, j);
      var key := sorted[j];
      var found := Lookup(data, key);
      if found.Some? {
        var value := found.value;
        var printed: seq<string> := [];
        if value.Str? {
          printed := [key + " = " + ("\"" + value.s + "\"")];
        } else if value.Bool? {
          printed := [key + " = " + (if value.b then "true" else "false")];
        } else if value.Int? {
          printed := [key + " = " + IntToDecimal(value.i)];
        }
        assert printed == KeyLines(data, key);
        lines := lines + printed;
      }
    }
    assert sorted[..|sorted|] == sorted;
    if topLevelKeys != [] {
      lines := lines + [""];
    }
  }

  lemma TopLinesStep(data: Doc, keys: seq<string>, j: nat)
    requires j < |keys|
    ensures TopLines(data, keys[..j + 1]) == TopLines(data, keys[..j]) + KeyLines(data, keys[j])
  {
    assert keys[..j + 1][..j] == keys[..j];
  }

  /** The keys whose values are not tables, in insertion order. */
  method CollectTopLevelKeys(data: Doc) returns (keys: seq<string>)
    ensures keys == NonTableKeys(data)
  {
    keys := [];
    for i := 0 to |data|
      invariant keys == NonTableKeys(data[..i])
    {
      assert data[..i + 1][..i] == data[..i];
      if !data[i].1.Table? {
        keys := keys + [data[i].0];
      }
    }
    assert data[..|data|] == data;
  }

  /** One of the four tables (nothing when `data` lacks it). */
  method WriteSection(data: Doc, section: string) returns (lines: seq<string>, error: Option<WriteError>)
    ensures Written(lines, error) == SectionLines(data, section)
  {
    lines, error := [], None;
    var found := Lookup(data, section);
    if found.None? {
      return;
    }
    if section == "mcp_servers" {
      lines := [McpComment];
    }
    if !found.value.Table? {
      error := Some(SectionNotTable(section));
      return;
    }
    var entries := found.value.entries;
    assert SectionLines(data, section) == Then(Written(lines, None), EntriesLines(section, entries));
    var written: seq<string> := [];
    for i := 0 to |entries|
      invariant EntriesLines(section, entries[..i]) == Written(written, None)
      invariant error.None?
    {
      EntriesStep(section, entries, i);
      var more: seq<string>;
      more, error := WriteEntry(section, entries[i].0, entries[i].1);
      written := written + more;
      if error.Some? {
        EntriesErrorStops(section, entries, i + 1);
        lines := lines + written;
        return;
      }
    }
    assert entries[..|entries|] == entries;
    lines := lines + written;
  }

  /** One entry of a table: the server layout for `mcp_servers`, the plain one otherwise. */
  method WriteEntry(section: string, name: string, settings: Value) returns (lines: seq<string>, error: Option<WriteError>)
    ensures Written(lines, error) == EntryLines(section, name, settings)
  {
    if section == "mcp_servers" {
      lines, error := WriteServer(name, settings);
    } else {
      lines, error := WritePlainEntry(section, name, settings);
    }
  }

  /** One entry of `projects`, `model_providers` or `profiles`. */
  method WritePlainEntry(section: string, name: string, settings: Value) returns (lines: seq<string>, error: Option<WriteError>)
    ensures Written(lines, error) == PlainEntryLines(section, name, settings)
  {
    lines := [EntryHeader(section, name)];
    if !settings.Table? {
      return lines, Some(EntryNotTable(section, name));
    }
    var kvs := settings.entries;
    for i := 0 to |kvs|
      invariant lines == [EntryHeader(section, name)] + SettingsLines(kvs[..i])
    {
      assert kvs[..i + 1][..i] == kvs[..i];
      lines := lines + [kvs[i].0 + " = \"" + PyStr(kvs[i].1) + "\""];
    }
    assert kvs[..|kvs|] == kvs;
    lines := lines + [""];
    error := None;
  }

  /** One entry of `mcp_servers`. */
  method WriteServer(name: string, settings: Value) returns (lines: seq<string>, error: Option<WriteError>)
    ensures Written(lines, error) == ServerLines(name, settings)
  {
    var header := EntryHeader("mcp_servers", name);
    lines := [header];
    if !settings.Table? {
      return lines, Some(EntryNotTable("mcp_servers", name));
    }
    var command := Lookup(settings.entries, "command");
    if command.None? {
      return lines, Some(MissingCommand(name));
    }
    var commandLine := "command = \"" + PyStr(command.value) + "\"";
    lines := [header, commandLine];
    var args := Lookup(settings.entries, "args");
    if args.Some? {
      var parts := ArgStrings(args.value);
      if parts.None? {
        return lines, Some(ArgsNotIterable(name));
      }
      lines := [header, commandLine, ArgsLine(parts.value)];
    }
    lines := lines + [""];
    error := None;
  }
}
