/**
 * The parsed configuration document of the Codex config sync script, as
 * `tomllib.load` hands it to the script: nested Python dicts, lists and
 * scalars. A dict is kept as a sequence of (key, value) pairs in insertion
 * order, because the serialiser iterates nested tables in that order.
 */
module TomlDoc {
  import opened Wrappers

  /**
   * A TOML value. `tomllib` rejects a repeated key at every level, but only
   * the top-level document carries that constraint here (`Dict`); a nested
   * table may repeat a key, so the serialiser's lemmas also cover inputs the
   * parser never produces.
   */
  datatype Value =
    | Str(s: string)
    | Bool(b: bool)
    | Int(i: int)
    | Table(entries: seq<(string, Value)>)
    | List(items: seq<Value>)

  /** A top-level document, or the contents of any table. */
  type Doc = seq<(string, Value)>

  /** The keys of `d`, in insertion order (`list(d.keys())`). */
  function Keys(d: Doc): (ks: seq<string>)
    ensures |ks| == |d|
    ensures forall i :: 0 <= i < |d| ==> ks[i] == d[i].0
  {
    seq(|d|, i requires 0 <= i < |d| => d[i].0)
  }

  /** `k in d` */
  predicate HasKey(d: Doc, k: string)
  {
    exists i :: 0 <= i < |d| && d[i].0 == k
  }

  /** A Python dict never holds the same key twice. */
  predicate DistinctKeys(d: Doc)
  {
    forall i, j :: 0 <= i < j < |d| ==> d[i].0 != d[j].0
  }

  /** A document as `tomllib` returns it: every key once. */
  type Dict = d: Doc | DistinctKeys(d)

  /** `d.get(k)`: the value stored under `k`, or `None` when `k` is absent. */
  function Lookup(d: Doc, k: string): (r: Option<Value>)
    ensures r.None? <==> !HasKey(d, k)
    ensures r.Some? ==> exists i :: 0 <= i < |d| && d[i] == (k, r.value)
  {
    if d == [] then None
    else if d[0].0 == k then Some(d[0].1)
    else
      var r := Lookup(d[1..], k);
      assert forall i :: 0 <= i < |d| - 1 ==> d[1..][i] == d[i + 1];
      r
  }

  /** In a document with distinct keys, every stored pair is what `d[k]` finds. */
  lemma {:induction false} LookupDistinct(d: Doc, i: nat)
    requires DistinctKeys(d) && i < |d|
    ensures Lookup(d, d[i].0) == Some(d[i].1)
  {
    if i > 0 {
      assert d[0].0 != d[i].0;
      LookupDistinct(d[1..], i - 1);
    }
  }

  /** Appending a pair never changes what an earlier key maps to. */
  lemma {:induction false} LookupAppend(d: Doc, p: (string, Value), k: string)
    ensures Lookup(d + [p], k) == if HasKey(d, k) then Lookup(d, k) else if p.0 == k then Some(p.1) else None
  {
    if d != [] {
      assert (d + [p])[1..] == d[1..] + [p];
      LookupAppend(d[1..], p, k);
    }
  }

  /**
   * `d[k] = v`: an existing key keeps its position and takes the new value;
   * a new key is appended at the end.
   */
  function Assign(d: Doc, k: string, v: Value): (r: Doc)
    ensures Lookup(r, k) == Some(v)
    ensures forall k' :: k' != k ==> Lookup(r, k') == Lookup(d, k')
    ensures |r| == if HasKey(d, k) then |d| else |d| + 1
    ensures forall i :: 0 <= i < |d| ==> r[i].0 == d[i].0
    ensures !HasKey(d, k) ==> r[|d|] == (k, v)
  {
    if d == [] then [(k, v)]
    else if d[0].0 == k then [(k, v)] + d[1..]
    else
      assert HasKey(d, k) <==> HasKey(d[1..], k) by {
        if HasKey(d, k) {
          var i :| 0 <= i < |d| && d[i].0 == k;
          assert d[1..][i - 1].0 == k;
        }
      }
      [d[0]] + Assign(d[1..], k, v)
  }

  /** Assigning keeps the keys in their order, appending a new key at the end. */
  lemma AssignKeys(d: Doc, k: string, v: Value)
    ensures HasKey(d, k) ==> Keys(Assign(d, k, v)) == Keys(d)
    ensures !HasKey(d, k) ==> Keys(Assign(d, k, v)) == Keys(d) + [k]
  {
  }

  /** Assigning keeps a dict's keys distinct. */
  lemma AssignDistinct(d: Doc, k: string, v: Value)
    requires DistinctKeys(d)
    ensures DistinctKeys(Assign(d, k, v))
  {
    var r := Assign(d, k, v);
    forall i, j | 0 <= i < j < |r| ensures r[i].0 != r[j].0 {
      if j == |d| {
        assert !HasKey(d, k);
      }
    }
  }

  /** The position of the first pair stored under `k`. */
  function IndexOf(d: Doc, k: string): (i: nat)
    requires HasKey(d, k)
    ensures i < |d| && d[i].0 == k && Lookup(d, k) == Some(d[i].1)
  {
    if d[0].0 == k then 0
    else
      assert HasKey(d[1..], k) by {
        var j :| 0 <= j < |d| && d[j].0 == k;
        assert d[1..][j - 1].0 == k;
      }
      1 + IndexOf(d[1..], k)
  }

  /** `d[k] = v` for a new key appends one pair and changes nothing else. */
  lemma {:induction false} AssignAppends(d: Doc, k: string, v: Value)
    requires !HasKey(d, k)
    ensures Assign(d, k, v) == d + [(k, v)]
  {
    if d != [] {
      forall j | 0 <= j < |d[1..]| ensures d[1..][j].0 != k {
        assert d[1..][j] == d[j + 1];
      }
      assert d[0].0 != k;
      assert Assign(d, k, v) == [d[0]] + Assign(d[1..], k, v);
      AssignAppends(d[1..], k, v);
      assert [d[0]] + (d[1..] + [(k, v)]) == d + [(k, v)];
    }
  }

  /** `d[k] = v` for a present key replaces the pair `d[k]` finds, in place. */
  lemma {:induction false} AssignReplaces(d: Doc, k: string, v: Value)
    requires HasKey(d, k)
    ensures Assign(d, k, v) == d[IndexOf(d, k) := (k, v)]
  {
    if d[0].0 != k {
      assert HasKey(d[1..], k) by {
        var j :| 0 <= j < |d| && d[j].0 == k;
        assert d[1..][j - 1].0 == k;
      }
      AssignReplaces(d[1..], k, v);
    }
  }
}
