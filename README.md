# Dotfiles: Codex config sync and Claude hook sounds

This project is a Dafny model of two small parts of a personal dotfiles
repository:

- **Codex config sync** (`scripts/sync-codex-config.py`). The script loads the
  Codex configuration kept in the dotfiles and the active `~/.codex/config.toml`.
  It backs up the active file, then replaces the active document with the
  dotfiles one, keeping only the active `projects` table (per-project trust
  settings); every other active key is dropped. The result is written with the script's own TOML serialiser: a fixed comment
  header, the sorted non-table keys, then the `projects`, `model_providers`,
  `profiles` and `mcp_servers` tables in that order.
- **Claude hooks** (`claude/hooks/notification.py`, `claude/hooks/pre_tool_use.py`).
  Each hook reads a JSON event from standard input and decides whether it
  triggers. The notification hook triggers on a message that looks like a
  permission request. The pre-tool-use hook triggers when the tool is `Task`,
  which starts a subagent. A triggered hook plays a sound through `afplay`,
  falling back to pygame. It prints a confirmation when playback reports
  success. It always exits 0, and any exception goes to standard error.

Modules:

| file | module | what it holds |
|---|---|---|
| `wrappers.dfy` | `Wrappers` | `Option` |
| `toml_doc.dfy` | `TomlDoc` | parsed TOML values; a dict as an insertion-ordered list of pairs; `d.get(k)`, `d[k] = v` |
| `py_text.dfy` | `PyText` | Python's `str`/`repr` of the parsed values, decimal integers |
| `str_order.dfy` | `StrOrder` | Python string ordering; `sorted` on a list of strings |
| `toml_writer.dfy` | `TomlWriter` | `write_toml_manual`: specification functions and the line-by-line writer methods proved against them |
| `toml_writer_props.dfy` | `TomlWriterProps` | properties of the serialiser's output |
| `config_sync.dfy` | `ConfigSync` | `load_toml`, the merge, and `sync_configs` |
| `json_payload.dfy` | `JsonPayload` | the JSON event, Python truthiness, `dict.get`, reading a field from standard input |
| `playback.dfy` | `Playback` | `play_audio` and its backend chain |
| `dispatch.dfy` | `Dispatch` | the shared body of each hook's `main` |
| `notification_hook.dfy` | `NotificationHook` | `is_permission_request` and the notification `main` |
| `pre_tool_use_hook.dfy` | `PreToolUseHook` | `is_task_tool` and the pre-tool-use `main` |

The serialiser's output is a sequence of lines, each the text up to one
newline. One `f.write` can emit several lines: the header's last comment and
the blank line after it come from a single call. The file is opened with `'w'`, so when the serialiser raises,
the lines written so far stay in the file. `Written(lines, error)` records
both the lines and the exception. Each exception is named by where it arises:
- `SectionNotTable`: `.items()` on a non-dict table;
- `EntryNotTable`: `.items()` or `[...]` on a non-dict entry;
- `MissingCommand`: the `KeyError` on `settings["command"]`;
- `ArgsNotIterable`: iterating a boolean or integer `args`.

What the file system and the system calls answer is an input to the model.
The failures of the backup copy, of the open and of afplay are modelled.
Every other call is taken to answer without raising, and "## Left out"
names what that leaves out. The inputs are:
- what each TOML load finds;
- whether the active file exists;
- whether the backup copy succeeds;
- whether the active file opens for writing;
- `Path.home()`;
- `Path.exists`, the `afplay` launch and the pygame thread;
- standard input.

A run of a script or hook is a record of what it did: the effects in order, what it printed,
and its exit status.

## Model

| member | source | states |
|---|---|---|
| `ConfigSync.ActiveDoc` | scripts/sync-codex-config.py:103 | no active file gives `{}`; an active file gives its parsed document, or `None` when it does not load |
| `ConfigSync.LoadToml` | scripts/sync-codex-config.py:13-23 | gives a document exactly when the file was read and parsed; a missing or unreadable file gives `None` |
| `ConfigSync.Merge` | scripts/sync-codex-config.py:111-116 | every key except `projects` looks up as in the dotfiles document; `projects` comes from the active document when it has one, else from the dotfiles; dotfiles keys keep their order, and `projects` is appended only when new |
| `ConfigSync.SyncConfigs` | scripts/sync-codex-config.py:99-119 | an unusable dotfiles document (missing, unreadable or empty) exits 1 with no effect; the backup is made iff the dotfiles document is usable, the active file exists and the copy succeeds, and it comes first; a failed copy exits 1 with no effect; an active file that does not load exits 1 after the backup; an active `projects` without a length exits 1 before any write; an active file that does not open for writing exits 1 and is left as it was; otherwise the merged document's serialisation is written last, and the exit status is 0 iff the serialiser did not raise |
| `ConfigSync.MergeDistinct` | scripts/sync-codex-config.py:111-115 | the merged document never repeats a key |
| `ConfigSync.WrittenTopKeysSorted` | scripts/sync-codex-config.py:43-51 | for any parsed dotfiles document, the top-level block a sync writes prints the merged document's string, boolean and integer keys, each once, in sorted order |
| `ConfigSync.MergedOutput` | scripts/sync-codex-config.py:111-119 | with `projects` a table on both sides, the written file has the dotfiles' top-level block and dotfiles tables, except `projects`, whose lines come from the active file when it has one |
| `ConfigSync.AssignTableKeepsTopBlock` | scripts/sync-codex-config.py:115 | storing a table under `projects` (replacing a table, or as a new key) leaves the top-level block unchanged |
| `ConfigSync.ReplaceTableKeepsTopBlock` | scripts/sync-codex-config.py:115 | the in-place case of the previous row |
| `ConfigSync.MergeWithoutActiveProjects` | scripts/sync-codex-config.py:114-119 | without an active `projects`, the dotfiles document is serialised unchanged |
| `ConfigSync.ActiveProjectTrustKept` | scripts/sync-codex-config.py:111-119 | a dotfiles document with `model = "o3"` and an empty `projects`, merged with an active file trusting `/a`, is written as the header, `model = "o3"`, a blank line, `[projects."/a"]`, `trust_level = "trusted"` and a blank line |
| `TomlDoc.Lookup` | scripts/sync-codex-config.py:45 | `None` iff the key is absent; otherwise a value stored under that key |
| `TomlDoc.LookupDistinct` | scripts/sync-codex-config.py:45 | in a dict with distinct keys, every stored pair is what a lookup of its key finds |
| `TomlDoc.Assign` | scripts/sync-codex-config.py:115 | after `d[k] = v`, `k` maps to `v` and every other key maps as before; the keys keep their places, and a new key goes at the end |
| `TomlDoc.AssignAppends` | scripts/sync-codex-config.py:115 | `d[k] = v` for a new key appends exactly one pair |
| `TomlDoc.AssignReplaces` | scripts/sync-codex-config.py:115 | `d[k] = v` for a present key replaces the pair in place, and nothing else changes |
| `TomlDoc.AssignKeys` | scripts/sync-codex-config.py:115 | the key list is unchanged, or has `k` appended |
| `TomlDoc.AssignDistinct` | scripts/sync-codex-config.py:115 | assignment keeps a dict's keys distinct |
| `PyText.Join` | scripts/sync-codex-config.py:86 | joining nothing gives the empty string; joining one part gives that part; a join starts with its first part |
| `PyText.JoinAppend` | scripts/sync-codex-config.py:86 | joining one more part appends the separator and that part |
| `PyText.NatToDecimal` | scripts/sync-codex-config.py:51 | `str(n)` is a non-empty string of decimal digits with no leading zero; `str(0)` is `0` |
| `PyText.NatToDecimalRoundTrip` | scripts/sync-codex-config.py:51 | reading the digits of `str(n)` back gives `n` |
| `PyText.IntToDecimal` | scripts/sync-codex-config.py:51 | `str(i)` starts with `-` iff `i` is negative; what follows the sign is decimal digits with no leading zero whose value is `abs(i)`; `int(str(i)) == i` |
| `PyText.CanonicalUnique` | scripts/sync-codex-config.py:51 | two digit strings without leading zeros that denote the same number are equal, so the digits of `str(n)` are determined |
| `PyText.IntToDecimalUnique` | scripts/sync-codex-config.py:51 | any text made of the sign and canonical digits of `i` is `str(i)` |
| `PyText.ReprString` | scripts/sync-codex-config.py:60 | `repr(s)` is quoted at both ends with the same quote: `"` when `s` holds `'` and no `"`, otherwise `'` |
| `PyText.ReprStringPlain` | scripts/sync-codex-config.py:60 | a string of printable characters without quotes or backslashes is repr'd as itself in single quotes |
| `PyText.PyRepr` | scripts/sync-codex-config.py:60 | `repr` of a boolean is `True`/`False`, of an integer its `str`; a list is bracketed and a dict braced, `[]` and `{}` when empty; a string is quoted at both ends |
| `PyText.PyStr` | scripts/sync-codex-config.py:60 | `str` of a string is the string; a boolean gives `True`/`False`; an integer its decimal text; lists and dicts print bracketed and braced, `[]` and `{}` when empty |
| `PyText.ListReprAppend` | scripts/sync-codex-config.py:60 | a list prints as its items' `repr`s joined by `, ` in brackets, and one more item adds `, ` and its `repr` before the `]` |
| `PyText.TableReprAppend` | scripts/sync-codex-config.py:60 | a dict prints as `'key': repr(value)` pairs joined by `, ` in braces, and one more entry adds `, ` and its pair before the `}` |
| `PyText.PyStrListExample` | scripts/sync-codex-config.py:84 | `str(["it's", 1])` is `["it's", 1]` |
| `PyText.PyStrTableExample` | scripts/sync-codex-config.py:60 | `str({'k': True})` is `{'k': True}` |
| `StrOrder.LessEqIsCodePointOrder` | scripts/sync-codex-config.py:44 | the recursive `StrOrder.LessEq` holds iff one string is a prefix of the other or the first differing code point is smaller, Python's order on `str` |
| `StrOrder.LessEqTotal` | scripts/sync-codex-config.py:44 | Python's string order is total |
| `StrOrder.LessEqTransitive` | scripts/sync-codex-config.py:44 | Python's string order is transitive |
| `StrOrder.SortStrings` | scripts/sync-codex-config.py:44 | `sorted(keys)` is sorted and a permutation of `keys` |
| `TomlWriter.NonTableKeys` | scripts/sync-codex-config.py:43 | a key is listed iff some pair with that key holds a non-table value |
| `TomlWriter.CollectTopLevelKeys` | scripts/sync-codex-config.py:43 | the loop collects exactly the non-table keys, in order |
| `TomlWriter.WriteTopLevel` | scripts/sync-codex-config.py:43-53 | the lines written are the top-level block: one line per sorted string, boolean or integer key, then a blank line if there was any non-table key |
| `TomlWriter.WriteSection` | scripts/sync-codex-config.py:55-88 | the loop over a table's entries writes exactly that table's lines and stops at the first entry that raises |
| `TomlWriter.WriteEntry` | scripts/sync-codex-config.py:57-88 | one entry's lines, dispatched on its table |
| `TomlWriter.WritePlainEntry` | scripts/sync-codex-config.py:57-77 | header, one quoted line per setting, blank line; a non-dict entry raises after its header |
| `TomlWriter.ArgStrings` | scripts/sync-codex-config.py:86 | iterating `args` fails iff it is a boolean or an integer; a string gives its characters, a list the `str` of each item, a dict its keys, in order |
| `TomlWriter.WriteServer` | scripts/sync-codex-config.py:82-88 | header, `command`, optional `args`, blank line; a missing `command` or a non-iterable `args` raises after the lines before it |
| `TomlWriter.WriteTomlManual` | scripts/sync-codex-config.py:35-88 | the lines and the exception are those of the whole serialisation: header, top-level block, then the four tables, stopping at the first exception |
| `TomlWriter.EntriesErrorStops` | scripts/sync-codex-config.py:57-61 | once an entry raises, no later entry is written |
| `TomlWriterProps.ThenKeepsPrefix` | scripts/sync-codex-config.py:37 | writing more never changes the lines already written |
| `TomlWriterProps.RenderStartsWithTopLevel` | scripts/sync-codex-config.py:38-53 | every output, even one cut short by an exception, starts with the comment header and the whole top-level block |
| `TomlWriterProps.PrintedKeys` | scripts/sync-codex-config.py:46-51 | the keys kept are among the given keys and each prints a line |
| `TomlWriterProps.TopLinesArePrinted` | scripts/sync-codex-config.py:44-51 | the top-level loop prints one line per printable key, in order |
| `TomlWriterProps.PrintedKeysSorted` | scripts/sync-codex-config.py:44 | filtering a sorted list keeps it sorted |
| `TomlWriterProps.PrintedKeysCount` | scripts/sync-codex-config.py:46-51 | a printable key is kept as often as it occurs; any other key is dropped |
| `TomlWriterProps.PrintedNonTableKeys` | scripts/sync-codex-config.py:43-51 | filtering the non-table keys by what prints gives the string, boolean and integer keys |
| `TomlWriterProps.TopKeysSortedPermutation` | scripts/sync-codex-config.py:43-51 | the keys the top-level block prints are the string, boolean and integer keys, each once, in sorted order |
| `TomlWriterProps.TopBlockLayout` | scripts/sync-codex-config.py:43-53 | the top-level block is one line per printed key, in that order, plus a blank line iff some top-level value is not a table (a list counts, though it prints nothing) |
| `TomlWriterProps.TopLinesIgnoreAppended` | scripts/sync-codex-config.py:44-51 | the top-level lines of keys already present do not change when a pair is appended |
| `TomlWriterProps.NonTableKeysSameShape` | scripts/sync-codex-config.py:43 | documents with the same keys in the same places, and tables in the same places, have the same non-table keys |
| `TomlWriterProps.TopLinesSameKeyLines` | scripts/sync-codex-config.py:44-51 | two documents that print each key alike print the same top-level lines |
| `TomlWriterProps.UnlistedTableDropped` | scripts/sync-codex-config.py:43-88 | a table under any key other than the four named ones is silently dropped: adding one changes neither the lines nor whether the serialiser raises |
| `TomlWriterProps.TopBlockIgnoresTable` | scripts/sync-codex-config.py:43-53 | appending a table never changes the top-level block |
| `TomlWriterProps.SectionIgnoresAppended` | scripts/sync-codex-config.py:56-88 | appending a pair under another key never changes a table's lines |
| `TomlWriterProps.ServerOk` | scripts/sync-codex-config.py:82-88 | an MCP server entry is written without raising iff it is a dict with a `command` whose `args`, if present, is iterable |
| `TomlWriterProps.EntryLinesOk` | scripts/sync-codex-config.py:57-88 | an entry is written without raising iff it is writable for its table |
| `TomlWriterProps.AllEntriesOkIff` | scripts/sync-codex-config.py:57-88 | the back-recursive "all entries writable" is the per-entry statement |
| `TomlWriterProps.EntriesLinesOk` | scripts/sync-codex-config.py:57-88 | a table's entries are written without raising iff all entries are writable, entry by entry |
| `TomlWriterProps.EntriesOk` | scripts/sync-codex-config.py:57-88 | a table's entries are written without raising iff every entry is writable |
| `TomlWriterProps.SectionLinesOk` | scripts/sync-codex-config.py:56-88 | a named table is written without raising iff it is absent or a dict of writable entries |
| `TomlWriterProps.RenderSucceedsIff` | scripts/sync-codex-config.py:35-88 | the serialiser finishes without raising iff each of the four named tables is absent or a dict of writable entries |
| `TomlWriterProps.ServerWithoutCommandRaises` | scripts/sync-codex-config.py:84 | an MCP server without `command` makes the serialiser raise |
| `TomlWriterProps.RenderLayout` | scripts/sync-codex-config.py:35-88 | when nothing raises, the file is the header, the top-level block and the four tables, in that order |
| `TomlWriterProps.NestedScalarsBecomeStrings` | scripts/sync-codex-config.py:60 | inside a table, `true` is written as `"True"` and a non-negative integer as its quoted decimal, so the types do not survive a reload |
| `JsonPayload.Truthy` | claude/hooks/notification.py:72 | a value is falsy iff it is `None`, `False`, `0`, `''`, `[]` or `{}` |
| `JsonPayload.ReadField` | claude/hooks/notification.py:81-84 | fails iff the input is malformed JSON (with the parser's message) or not an object (no `get`); a terminal gives `''`; an object gives the value `get` finds, the last one stored under the key, or `''` when the key is missing |
| `JsonPayload.Get` | claude/hooks/notification.py:84 | a missing key gives the default; otherwise the value of the last pair with that key |
| `Playback.TriedOn` | claude/hooks/notification.py:43-53 | nothing is tried iff the file is missing; afplay comes first; pygame is tried iff afplay is not installed |
| `Playback.DiagnosticsOn` | claude/hooks/notification.py:43-55 | at most one line, printed iff the file is missing or both backends were unavailable |
| `Playback.BannerOn` | claude/hooks/notification.py:23-27 | standard output receives pygame's import banner exactly when the pygame fallback is tried, and nothing otherwise |
| `Playback.PlayAudio` | claude/hooks/notification.py:41-56 | a missing file fails with its message and tries nothing; the backends tried, the standard output (pygame's import banner) and the standard error lines are those above; success iff a backend started; any other afplay error propagates with its message and prints nothing to standard error |
| `Dispatch.SoundtrackPath` | claude/hooks/notification.py:89-90 | the sound's path ends in `/soundtrack/<asset>`, for every home directory |
| `Dispatch.JoinPath` | claude/hooks/notification.py:89-90 | `directory / name` adds a separator only when the directory does not already end in one; the current directory (`.`, or the empty path) adds nothing |
| `Dispatch.SoundtrackPathShape` | claude/hooks/notification.py:89-90 | the sound under the root home is `/.dotfiles/soundtrack/<asset>`; under the home `.` it is `.dotfiles/soundtrack/<asset>`; under any other home `<home>/.dotfiles/soundtrack/<asset>` |
| `Dispatch.PlaybackStderr` | claude/hooks/notification.py:93-102 | a triggered hook's standard error: the hook's prefixed message when afplay raises, and otherwise exactly `play_audio`'s diagnostics |
| `Dispatch.RunHook` | claude/hooks/notification.py:86-103 | exit 0 always; play is requested iff the decision is true; the backends tried and standard error on a triggered run are those of playback plus the prefixed afplay exception; standard output is pygame's import banner when pygame is tried, then the confirmation iff playback succeeds; an exception while deciding is printed with the hook's prefix and no sound is tried |
| `NotificationHook.Lower` | claude/hooks/notification.py:75 | same length, each character lower-cased |
| `NotificationHook.Contains` | claude/hooks/notification.py:76 | `word in text` iff the word occurs at some position of the text |
| `NotificationHook.AnyKeyword` | claude/hooks/notification.py:76 | true iff some keyword occurs in the text |
| `NotificationHook.PermissionText` | claude/hooks/notification.py:58-76 | a string message is a permission request iff some keyword occurs in its lower-cased form |
| `NotificationHook.IsPermissionRequest` | claude/hooks/notification.py:58-76 | true iff the message is a string that is a permission request; raises (no `lower`) iff it is truthy and not a string; any falsy value is not a request |
| `NotificationHook.Decide` | claude/hooks/notification.py:81-87 | triggers iff the payload's `message` is a string that is a permission request; raises iff the payload cannot be read or the message is truthy and not a string, with the `lower` error in the latter case |
| `NotificationHook.NotificationMain` | claude/hooks/notification.py:78-103 | exit 0; the Jinx sound under `~/.dotfiles/soundtrack` is requested iff the payload's `message` is a string that is a permission request; a triggered run tries the backends and prints the diagnostics of playback; standard output is pygame's import banner when pygame is tried, then the Jinx line iff playback succeeds; malformed JSON, a non-object payload and a truthy non-string message are reported with the hook's prefix; any other message, and a terminal as input, do nothing |
| `NotificationHook.EmptyMessageNeverTriggers` | claude/hooks/notification.py:72-73 | the empty message never triggers |
| `NotificationHook.CaseInsensitive` | claude/hooks/notification.py:75-76 | messages that differ only in ASCII letter case get the same answer |
| `NotificationHook.UpperCaseSameVerdict` | claude/hooks/notification.py:75-76 | ASCII upper-casing a message does not change the answer |
| `NotificationHook.DotlessIUpperCaseTriggers` | claude/hooks/notification.py:75-76 | `'ınput'` does not trigger while its Python upper-case form `'INPUT'` does: the test ignores case for ASCII letters only |
| `NotificationHook.PrefixContained` | claude/hooks/notification.py:76 | a text containing a word contains each of its prefixes |
| `NotificationHook.LastTwoKeywordsRedundant` | claude/hooks/notification.py:60-70 | `approve this` and `allow this` add nothing: the first seven keywords give the same answer on every text |
| `NotificationHook.ConfirmTriggers` | claude/hooks/notification.py:64 | "Please confirm this action" triggers |
| `NotificationHook.OccurrenceLetters` | claude/hooks/notification.py:76 | every character of a contained word is a character of the text |
| `NotificationHook.NeedsAOrI` | claude/hooks/notification.py:60-76 | a text with neither `a` nor `i` never triggers |
| `NotificationHook.HelloDoesNotTrigger` | claude/hooks/notification.py:58-76 | "Hello world" does not trigger |
| `PreToolUseHook.IsTaskTool` | claude/hooks/pre_tool_use.py:58-60 | true iff the tool name is the string `Task`, case-sensitively |
| `PreToolUseHook.Decide` | claude/hooks/pre_tool_use.py:65-71 | triggers iff the payload's `tool_name` is the string `Task`; raises iff the payload cannot be read, with that error |
| `PreToolUseHook.PreToolUseMain` | claude/hooks/pre_tool_use.py:62-87 | exit 0; the Teemo sound is requested iff the payload's `tool_name` is exactly `Task`; a triggered run tries the backends and prints the diagnostics of playback; standard output is pygame's import banner when pygame is tried, then the Teemo line iff playback succeeds; malformed JSON and a non-object payload are reported; any other tool name, or none, does nothing |
| `PreToolUseHook.OtherSpellingsDoNotTrigger` | claude/hooks/pre_tool_use.py:60 | `task`, `TASK` and the empty name do not trigger |

## Left out

- `write_toml` (tomlkit with the manual writer as fallback) is not part of this model. `sync_configs` calls `write_toml_manual` directly.
- Floating-point and date/time TOML values are not in the value model. The top-level block would print a float, and `len` on either would raise.
- JSON numbers are integers only. Fractional numbers are not modelled.
- `ConfigSync.SyncConfigs`: a failure of the `print` calls themselves (a closed standard output) is not modelled.
- `Dispatch.SoundtrackPath`: `home` is the string of `Path.home()`, which `pathlib` has already normalised, so `.` is the only form the current directory takes there. Redundant separators inside it are not collapsed again.
- `ConfigSync.LoadToml`: the parse itself (`tomllib.load`) is not modelled. Its outcome is an input, and its error text is not kept.
- Every message `print` writes to standard output in `sync_configs` is left out: progress lines, the backup path, the project count, and the closing summary of synced sections. The count's `len` call is kept, because it can raise.
- The `--help` branch of the script's entry point is not modelled.
- `NotificationHook.UpperCaseSameVerdict` and `NotificationHook.Upper` cover ASCII upper-casing only. Python's `str.upper` also maps 'ı' to 'I', 'ſ' to 'S' and 'ﬁ' to "FI". So `is_permission_request('ınput')` is False while `is_permission_request('ınput'.upper())` is True (`NotificationHook.DotlessIUpperCaseTriggers`). The program itself is case-insensitive only for ASCII. This is not a gap in the model.
- `NotificationHook.Lower` covers ASCII letters only. In Python, U+0130 and U+212A also lower-case to ASCII letters, but neither can complete a keyword.
- `JsonPayload.ReadField`: the text of a JSON parse error is an input (`reason`), not computed.
- `Playback.PlayAudio`: the afplay child process and the pygame thread run in the background. Only whether each one starts is modelled, not the sound itself.
- `Playback.PlayAudio`: the pygame fallback catches every exception, so its failures are one boolean.
- `Playback.PlayAudio`: the text of pygame's import banner is an input (`pygameBanner`). It is empty when `PYGAME_HIDE_SUPPORT_PROMPT` is set or pygame is not installed.
- `PyText.ReprString`, `PyText.Plain` and `PyText.ReprStringPlain` treat every non-ASCII character as printable. Python's `repr` escapes some of them, such as U+00A0. For strings holding those characters, `PyText.PyRepr` and `PyText.PyStr` inherit the gap.
- `PyText.PyRepr` and `PyText.PyStr`: the contracts give only the brackets and the empty forms of lists and dicts. `PyText.ListReprAppend` and `PyText.TableReprAppend` state the items' text, and the two example lemmas pin whole outputs.
- `Playback.PlayAudio`: `Path.exists()` is one boolean. An exception it raises is not modelled, for example a PermissionError on an unsearchable `~/.dotfiles` in Python 3.8-3.12. In the hooks, the top-level handler would print it as a hook error and still exit 0.
- `Dispatch.SoundtrackPath`: `Path.home()` is always a string. The RuntimeError it raises when no home directory can be determined is not modelled. In the hooks it would be printed as a hook error with exit 0.
- `ConfigSync.SyncConfigs`: `Path.home()` at lines 92-94 and `Path.exists()` at lines 103 and 106 are taken not to raise. Such an exception would end the script with a traceback and exit status 1 before anything is written.
- The `session_start`, `user_prompt_submit` and `stop` hooks are not part of this model.
