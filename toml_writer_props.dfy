/**
 * What the manual serialiser promises about its output, proved of `Render`
 * (and so of `WriteTomlManual`, which produces exactly `Render`'s output).
 */
module TomlWriterProps {
  import opened Wrappers
  import opened TomlDoc
  import opened StrOrder
  import opened TomlWriter
  import opened PyText

  // ----- the header comes first -----

  lemma ThenKeepsPrefix(a: Written, b: Written, n: nat)
    requires n <= |a.lines|
    ensures |Then(a, b).lines| >= n && Then(a, b).lines[..n] == a.lines[..n]
  {
    if a.error.None? {
      assert (a.lines + b.lines)[..n] == a.lines[..n];
    }
  }

  /** The output always starts with the comment header, then the top-level block,
      whatever the tables hold and even when the serialiser raises later. */
  lemma {:induction false} RenderStartsWithTopLevel(data: Doc)
    ensures |Render(data).lines| >= |HeaderLines| + |TopBlock(data)|
    ensures Render(data).lines[..|HeaderLines| + |TopBlock(data)|] == HeaderLines + TopBlock(data)
  {
    var w0 := Written(HeaderLines + TopBlock(data), None);
    var n := |w0.lines|;
    var w1 := Then(w0, SectionLines(data, "projects"));
    var w2 := Then(w1, SectionLines(data, "model_providers"));
    var w3 := Then(w2, SectionLines(data, "profiles"));
    ThenKeepsPrefix(w0, SectionLines(data, "projects"), n);
    ThenKeepsPrefix(w1, SectionLines(data, "model_providers"), n);
    ThenKeepsPrefix(w2, SectionLines(data, "profiles"), n);
    ThenKeepsPrefix(w3, SectionLines(data, "mcp_servers"), n);
    assert w0.lines[..n] == w0.lines;
  }

  // ----- the top-level block -----

  /** `data[k]` is a string, a boolean or an integer, so the top-level block prints a line for it. */
  predicate PrintsLine(data: Doc, k: string)
  {
    Lookup(data, k).Some? && IsScalar(Lookup(data, k).value)
  }

  /** The line the top-level block prints for such a key. */
  function LineOf(data: Doc, k: string): string
    requires PrintsLine(data, k)
  {
    k + " = " + ScalarText(Lookup(data, k).value)
  }

  /** The keys among `keys` that print a line, in the order of `keys`. */
  function PrintedKeys(data: Doc, keys: seq<string>): (p: seq<string>)
    ensures forall x :: x in p ==> x in keys && PrintsLine(data, x)
  {
    if keys == [] then []
    else
      var last := keys[|keys| - 1];
      PrintedKeys(data, keys[..|keys| - 1]) + (if PrintsLine(data, last) then [last] else [])
  }

  /** The top-level keys holding a string, a boolean or an integer, in insertion order. */
  function ScalarKeys(data: Doc): seq<string>
  {
    if data == [] then []
    else
      var last := data[|data| - 1];
      ScalarKeys(data[..|data| - 1]) + (if IsScalar(last.1) then [last.0] else [])
  }

  lemma {:induction false} TopLinesArePrinted(data: Doc, keys: seq<string>)
    ensures |TopLines(data, keys)| == |PrintedKeys(data, keys)|
    ensures forall j :: 0 <= j < |PrintedKeys(data, keys)| ==>
              TopLines(data, keys)[j] == LineOf(data, PrintedKeys(data, keys)[j])
  {
    if keys != [] {
      TopLinesArePrinted(data, keys[..|keys| - 1]);
    }
  }

  lemma {:induction false} PrintedKeysSorted(data: Doc, keys: seq<string>)
    requires Sorted(keys)
    ensures Sorted(PrintedKeys(data, keys))
  {
    if keys != [] {
      var init := keys[..|keys| - 1];
      var last := keys[|keys| - 1];
      assert Sorted(init);
      PrintedKeysSorted(data, init);
      var p := PrintedKeys(data, init);
      if PrintsLine(data, last) && p != [] {
        var x := p[|p| - 1];
        assert x in init;
        var m :| 0 <= m < |init| && init[m] == x;
        SortedPairs(keys, m, |keys| - 1);
      }
    }
  }

  lemma {:induction false} PrintedKeysCount(data: Doc, keys: seq<string>, x: string)
    ensures multiset(PrintedKeys(data, keys))[x] == if PrintsLine(data, x) then multiset(keys)[x] else 0
  {
    if keys != [] {
      var init := keys[..|keys| - 1];
      PrintedKeysCount(data, init, x);
      assert keys == init + [keys[|keys| - 1]];
    }
  }

  /** Filtering the non-table keys by what prints gives exactly the scalar keys. */
  lemma {:induction false} PrintedNonTableKeys(data: Doc, n: nat)
    requires DistinctKeys(data) && n <= |data|
    ensures PrintedKeys(data, NonTableKeys(data[..n])) == ScalarKeys(data[..n])
  {
    if n > 0 {
      var prefix := data[..n];
      assert prefix[..n - 1] == data[..n - 1];
      PrintedNonTableKeys(data, n - 1);
      LookupDistinct(data, n - 1);
      var ks := NonTableKeys(data[..n - 1]);
      var last := data[n - 1];
      if !last.1.Table? {
        assert NonTableKeys(prefix) == ks + [last.0];
        assert (ks + [last.0])[..|ks|] == ks;
      } else {
        assert NonTableKeys(prefix) == ks;
      }
    }
  }

  /** The keys of the lines the top-level block prints. */
  function TopKeys(data: Doc): seq<string>
  {
    PrintedKeys(data, SortStrings(NonTableKeys(data)))
  }

  /** The printed keys are the scalar keys, each once, in sorted order. */
  lemma {:induction false} TopKeysSortedPermutation(data: Doc)
    requires DistinctKeys(data)
    ensures Sorted(TopKeys(data))
    ensures multiset(TopKeys(data)) == multiset(ScalarKeys(data))
  {
    var keys := NonTableKeys(data);
    var sorted := SortStrings(keys);
    var p := TopKeys(data);
    PrintedKeysSorted(data, sorted);
    assert data[..|data|] == data;
    PrintedNonTableKeys(data, |data|);
    forall x ensures multiset(p)[x] == multiset(ScalarKeys(data))[x] {
      PrintedKeysCount(data, sorted, x);
      PrintedKeysCount(data, keys, x);
    }
  }

  /** Some top-level value is not a table. */
  predicate HasNonTable(data: Doc)
  {
    exists i :: 0 <= i < |data| && !data[i].1.Table?
  }

  /**
   * The top-level block: one `key = value` line for each key holding a
   * string, boolean or integer, in sorted key order (see
   * `TopKeysSortedPermutation`), and then a blank line exactly when some
   * top-level value is not a table, printable or not.
   */
  lemma {:induction false} TopBlockLayout(data: Doc)
    ensures |TopBlock(data)| == |TopKeys(data)| + (if HasNonTable(data) then 1 else 0)
    ensures forall j :: 0 <= j < |TopKeys(data)| ==> TopBlock(data)[j] == LineOf(data, TopKeys(data)[j])
    ensures HasNonTable(data) ==> TopBlock(data)[|TopKeys(data)|] == ""
  {
    var keys := NonTableKeys(data);
    TopLinesArePrinted(data, SortStrings(keys));
    assert keys != [] ==> HasNonTable(data) by {
      if keys != [] {
        assert keys[0] in keys;
      }
    }
    assert HasNonTable(data) ==> keys != [] by {
      if HasNonTable(data) {
        var i :| 0 <= i < |data| && !data[i].1.Table?;
        assert data[i].0 in keys;
      }
    }
  }

  // ----- only the four named tables are written -----

  lemma {:induction false} TopLinesIgnoreAppended(data: Doc, p: (string, Value), keys: seq<string>)
    requires forall k :: k in keys ==> HasKey(data, k)
    ensures TopLines(data + [p], keys) == TopLines(data, keys)
  {
    if keys != [] {
      var init := keys[..|keys| - 1];
      assert forall k :: k in init ==> k in keys;
      TopLinesIgnoreAppended(data, p, init);
      LookupAppend(data, p, keys[|keys| - 1]);
    }
  }

  /** Documents with the same keys in the same places, tables where tables are, list the same non-table keys. */
  lemma {:induction false} NonTableKeysSameShape(a: Doc, b: Doc)
    requires |a| == |b|
    requires forall i :: 0 <= i < |a| ==> a[i].0 == b[i].0 && a[i].1.Table? == b[i].1.Table?
    ensures NonTableKeys(a) == NonTableKeys(b)
  {
    if a != [] {
      NonTableKeysSameShape(a[..|a| - 1], b[..|b| - 1]);
    }
  }

  /** Two documents that print each of `keys` alike print the same top-level lines. */
  lemma {:induction false} TopLinesSameKeyLines(a: Doc, b: Doc, keys: seq<string>)
    requires forall k :: k in keys ==> KeyLines(a, k) == KeyLines(b, k)
    ensures TopLines(a, keys) == TopLines(b, keys)
  {
    if keys != [] {
      var init := keys[..|keys| - 1];
      assert forall k :: k in init ==> k in keys;
      TopLinesSameKeyLines(a, b, init);
    }
  }

  /**
   * A table under any key other than the four named ones is silently
   * dropped: adding one to a document does not change a single line of the
   * output, nor whether the serialiser raises.
   */
  lemma {:induction false} UnlistedTableDropped(data: Doc, k: string, entries: Doc)
    requires k !in Sections && !HasKey(data, k)
    ensures Render(data + [(k, Table(entries))]) == Render(data)
  {
    var p := (k, Table(entries));
    TopBlockIgnoresTable(data, p);
    SectionIgnoresAppended(data, p, "projects");
    SectionIgnoresAppended(data, p, "model_providers");
    SectionIgnoresAppended(data, p, "profiles");
    SectionIgnoresAppended(data, p, "mcp_servers");
  }

  lemma TopBlockIgnoresTable(data: Doc, p: (string, Value))
    requires p.1.Table?
    ensures TopBlock(data + [p]) == TopBlock(data)
  {
    var data' := data + [p];
    assert data'[..|data'| - 1] == data;
    assert NonTableKeys(data') == NonTableKeys(data);
    var keys := SortStrings(NonTableKeys(data));
    forall x | x in keys ensures HasKey(data, x) {
      assert x in multiset(keys);
      assert x in NonTableKeys(data);
    }
    TopLinesIgnoreAppended(data, p, keys);
  }

  lemma SectionIgnoresAppended(data: Doc, p: (string, Value), section: string)
    requires p.0 != section
    ensures SectionLines(data + [p], section) == SectionLines(data, section)
  {
    LookupAppend(data, p, section);
  }

  // ----- when the serialiser raises -----

  /** A table entry the serialiser can write without raising. */
  predicate EntryOk(section: string, settings: Value)
  {
    && settings.Table?
    && (section == "mcp_servers" ==>
          && HasKey(settings.entries, "command")
          && (HasKey(settings.entries, "args") ==>
                !Lookup(settings.entries, "args").value.Bool? && !Lookup(settings.entries, "args").value.Int?))
  }

  /** One of the four tables is absent, or is a dict of writable entries. */
  predicate SectionOk(data: Doc, section: string)
  {
    match Lookup(data, section)
    case None => true
    case Some(v) => v.Table? && forall i :: 0 <= i < |v.entries| ==> EntryOk(section, v.entries[i].1)
  }

  lemma ServerOk(name: string, settings: Value)
    ensures ServerLines(name, settings).error.None? <==> EntryOk("mcp_servers", settings)
  {
    if settings.Table? && HasKey(settings.entries, "command") && HasKey(settings.entries, "args") {
      var args := Lookup(settings.entries, "args").value;
      assert ArgStrings(args).None? <==> args.Bool? || args.Int?;
    }
  }

  lemma EntryLinesOk(section: string, name: string, settings: Value)
    ensures EntryLines(section, name, settings).error.None? <==> EntryOk(section, settings)
  {
    if section == "mcp_servers" {
      ServerOk(name, settings);
    }
  }

  lemma EntriesErrorStep(section: string, entries: Doc)
    requires entries != []
    ensures EntriesLines(section, entries).error.None? <==>
              && EntriesLines(section, entries[..|entries| - 1]).error.None?
              && EntryLines(section, entries[|entries| - 1].0, entries[|entries| - 1].1).error.None?
  {
  }

  /** Every entry of `entries` is writable, stated entry by entry from the back. */
  predicate AllEntriesOk(section: string, entries: Doc)
  {
    entries == [] ||
    (AllEntriesOk(section, entries[..|entries| - 1]) && EntryOk(section, entries[|entries| - 1].1))
  }

  lemma {:induction false} AllEntriesOkIff(section: string, entries: Doc)
    ensures AllEntriesOk(section, entries) <==> forall i :: 0 <= i < |entries| ==> EntryOk(section, entries[i].1)
  {
    if entries != [] {
      var init := entries[..|entries| - 1];
      AllEntriesOkIff(section, init);
      assert forall i :: 0 <= i < |init| ==> init[i] == entries[i];
    }
  }

  lemma {:induction false} EntriesLinesOk(section: string, entries: Doc)
    ensures EntriesLines(section, entries).error.None? <==> AllEntriesOk(section, entries)
  {
    if entries != [] {
      var last := entries[|entries| - 1];
      EntriesErrorStep(section, entries);
      EntriesLinesOk(section, entries[..|entries| - 1]);
      EntryLinesOk(section, last.0, last.1);
    }
  }

  lemma EntriesOk(section: string, entries: Doc)
    ensures EntriesLines(section, entries).error.None? <==>
              forall i :: 0 <= i < |entries| ==> EntryOk(section, entries[i].1)
  {
    EntriesLinesOk(section, entries);
    AllEntriesOkIff(section, entries);
  }

  /**
   * The serialiser runs to the end exactly when each of the four tables is
   * absent or a dict whose entries are dicts, every `mcp_servers` entry has a
   * `command`, and no `args` is a number or a boolean.
   */
  lemma SectionLinesOk(data: Doc, section: string)
    ensures SectionLines(data, section).error.None? <==> SectionOk(data, section)
  {
    var found := Lookup(data, section);
    if found.Some? && found.value.Table? {
      EntriesOk(section, found.value.entries);
    }
  }

  lemma {:induction false} RenderSucceedsIff(data: Doc)
    ensures Render(data).error.None? <==> forall s :: s in Sections ==> SectionOk(data, s)
  {
    SectionLinesOk(data, "projects");
    SectionLinesOk(data, "model_providers");
    SectionLinesOk(data, "profiles");
    SectionLinesOk(data, "mcp_servers");
    assert forall s :: s in Sections <==> s == "projects" || s == "model_providers" || s == "profiles" || s == "mcp_servers";
  }

  /** An `mcp_servers` entry without a `command` makes the serialiser raise (a KeyError). */
  lemma ServerWithoutCommandRaises(data: Doc, i: nat)
    requires Lookup(data, "mcp_servers").Some? && Lookup(data, "mcp_servers").value.Table?
    requires i < |Lookup(data, "mcp_servers").value.entries|
    requires var server := Lookup(data, "mcp_servers").value.entries[i].1;
             server.Table? && !HasKey(server.entries, "command")
    ensures Render(data).error.Some?
  {
    RenderSucceedsIff(data);
    assert !SectionOk(data, "mcp_servers");
    assert "mcp_servers" in Sections;
  }

  /** When nothing raises, the output is the header, the top-level block and the four tables, in that order. */
  lemma RenderLayout(data: Doc)
    requires Render(data).error.None?
    ensures Render(data).lines
         == HeaderLines + TopBlock(data)
          + SectionLines(data, "projects").lines
          + SectionLines(data, "model_providers").lines
          + SectionLines(data, "profiles").lines
          + SectionLines(data, "mcp_servers").lines
  {
  }

  /**
   * Inside a table every value is written in quotes with Python's `str`, so a
   * boolean or an integer setting comes back as a string when the file is read.
   */
  lemma NestedScalarsBecomeStrings(key: string, n: nat)
    ensures QuotedLine(key, Bool(true)) == key + " = \"True\""
    ensures QuotedLine(key, Int(n)) == key + " = \"" + NatToDecimal(n) + "\""
  {
  }
}
