/**
 * The Python built-ins the serialiser leans on when it formats values:
 * `str()` and `repr()` of the values a TOML document holds, and `', '.join`.
 */
module PyText {
  import opened TomlDoc

  /** `sep.join(parts)` */
  function Join(parts: seq<string>, sep: string): (r: string)
    ensures parts == [] ==> r == ""
    ensures |parts| == 1 ==> r == parts[0]
    ensures parts != [] ==> |parts[0]| <= |r| && r[..|parts[0]|] == parts[0]
  {
    if |parts| == 0 then ""
    else if |parts| == 1 then parts[0]
    else parts[0] + sep + Join(parts[1..], sep)
  }

  /** Joining one more part adds the separator and that part at the end. */
  lemma {:induction false} JoinAppend(parts: seq<string>, p: string, sep: string)
    requires parts != []
    ensures Join(parts + [p], sep) == Join(parts, sep) + sep + p
  {
    if |parts| > 1 {
      assert (parts + [p])[1..] == parts[1..] + [p];
      JoinAppend(parts[1..], p, sep);
    }
  }

  function DecimalDigit(d: nat): char
    requires d < 10
  {
    ('0' as int + d) as char
  }

  function HexDigit(d: nat): char
    requires d < 16
  {
    "0123456789abcdef"[d]
  }

  /** The value of a decimal digit. */
  function DigitValue(c: char): int
  {
    c as int - '0' as int
  }

  /** The number a string of decimal digits denotes, read most significant digit first. */
  function DecimalValue(s: string): int
  {
    if s == [] then 0 else 10 * DecimalValue(s[..|s| - 1]) + DigitValue(s[|s| - 1])
  }

  /** `int(s)` for an optional minus sign followed by decimal digits. */
  function ParseInt(s: string): int
  {
    if s != [] && s[0] == '-' then -DecimalValue(s[1..]) else DecimalValue(s)
  }

  /** A string of decimal digits. */
  predicate IsDigits(s: string)
  {
    forall k :: 0 <= k < |s| ==> '0' <= s[k] <= '9'
  }

  /** Digits as `str` prints a number: at least one, and no leading zero except in "0" itself. */
  predicate Canonical(s: string)
  {
    |s| >= 1 && IsDigits(s) && (s[0] == '0' ==> |s| == 1)
  }

  /** `str(n)` for a non-negative integer: its decimal digits, no leading zeros. */
  function NatToDecimal(n: nat): (r: string)
    ensures Canonical(r)
    ensures r[0] == '0' <==> n == 0
    ensures n == 0 ==> r == "0"
  {
    if n < 10 then [DecimalDigit(n)] else NatToDecimal(n / 10) + [DecimalDigit(n % 10)]
  }

  /** Reading the digits back gives the number. */
  lemma {:induction false} NatToDecimalRoundTrip(n: nat)
    ensures DecimalValue(NatToDecimal(n)) == n
  {
    var r := NatToDecimal(n);
    assert r[..|r| - 1] == if n < 10 then [] else NatToDecimal(n / 10);
    if n >= 10 {
      NatToDecimalRoundTrip(n / 10);
    }
  }

  /** A digit string is at least its leading digit's value. */
  lemma {:induction false} DecimalAtLeastLead(s: string)
    requires |s| >= 1 && IsDigits(s)
    ensures DecimalValue(s) >= DigitValue(s[0]) >= 0
  {
    if |s| > 1 {
      var init := s[..|s| - 1];
      assert init[0] == s[0];
      DecimalAtLeastLead(init);
    }
  }

  /** Two canonical digit strings with the same value are the same string:
      the digits `str` prints are the only ones it could print. */
  lemma {:induction false} CanonicalUnique(a: string, b: string)
    requires Canonical(a) && Canonical(b)
    requires DecimalValue(a) == DecimalValue(b)
    ensures a == b
  {
    if |a| == 1 && |b| == 1 {
      assert DecimalValue(a) == DigitValue(a[0]);
      assert DecimalValue(b) == DigitValue(b[0]);
    } else if |a| == 1 || |b| == 1 {
      var (long, short) := if |a| == 1 then (b, a) else (a, b);
      var init := long[..|long| - 1];
      assert init[0] == long[0] != '0';
      DecimalAtLeastLead(init);
      assert false;
    } else {
      var ia, ib := a[..|a| - 1], b[..|b| - 1];
      assert ia[0] == a[0] && ib[0] == b[0];
      var da, db := DigitValue(a[|a| - 1]), DigitValue(b[|b| - 1]);
      assert DecimalValue(a) == 10 * DecimalValue(ia) + da;
      assert DecimalValue(b) == 10 * DecimalValue(ib) + db;
      assert da == db && DecimalValue(ia) == DecimalValue(ib);
      CanonicalUnique(ia, ib);
      assert a == ia + [a[|a| - 1]] && b == ib + [b[|b| - 1]];
    }
  }

  /** The digits of `str(i)`: everything after the sign, if there is one. */
  function Magnitude(r: string, negative: bool): string
    requires negative ==> |r| >= 1
  {
    if negative then r[1..] else r
  }

  /** `str(i)` for an integer: a minus sign exactly for a negative `i`, then
      the canonical digits of its absolute value. */
  function IntToDecimal(i: int): (r: string)
    ensures |r| >= 1
    ensures r[0] == '-' <==> i < 0
    ensures Canonical(Magnitude(r, i < 0))
    ensures DecimalValue(Magnitude(r, i < 0)) == if i < 0 then -i else i
    ensures ParseInt(r) == i
  {
    var digits := NatToDecimal(if i < 0 then -i else i);
    NatToDecimalRoundTrip(if i < 0 then -i else i);
    if i < 0 then
      assert ("-" + digits)[1..] == digits;
      "-" + digits
    else digits
  }

  /** Any sign-and-digits text in the form `str` prints for `i` is `str(i)`. */
  lemma IntToDecimalUnique(i: int, s: string)
    requires |s| >= 1 && (s[0] == '-' <==> i < 0)
    requires Canonical(Magnitude(s, i < 0))
    requires DecimalValue(Magnitude(s, i < 0)) == if i < 0 then -i else i
    ensures s == IntToDecimal(i)
  {
    var r := IntToDecimal(i);
    CanonicalUnique(Magnitude(s, i < 0), Magnitude(r, i < 0));
    if i < 0 {
      assert s == [s[0]] + s[1..] && r == [r[0]] + r[1..];
    }
  }

  /** The quote `repr` puts around a string: double quotes only when the text
      holds a single quote and no double quote. */
  function ReprQuote(s: string): char
  {
    if '\'' in s && '"' !in s then '"' else '\''
  }

  /** How `repr` writes one character inside quotes `q`. */
  function ReprChar(c: char, q: char): string
  {
    if c == q || c == '\\' then ['\\', c]
    else if c == '\t' then "\\t"
    else if c == '\n' then "\\n"
    else if c == '\r' then "\\r"
    else if c < ' ' || c == '\U{7F}' then "\\x" + [HexDigit(c as int / 16), HexDigit(c as int % 16)]
    else [c]
  }

  function ReprBody(s: string, q: char): string
  {
    if s == [] then "" else ReprChar(s[0], q) + ReprBody(s[1..], q)
  }

  /** A character `repr` writes as itself whatever the quote. */
  predicate Plain(c: char)
  {
    ' ' <= c && c != '\U{7F}' && c != '\\' && c != '\'' && c != '"'
  }

  lemma {:induction false} ReprBodyPlain(s: string, q: char)
    requires forall k :: 0 <= k < |s| ==> Plain(s[k])
    requires q == '\'' || q == '"'
    ensures ReprBody(s, q) == s
  {
    if s != [] {
      ReprBodyPlain(s[1..], q);
    }
  }

  /** `repr(s)` for a string. */
  function ReprString(s: string): (r: string)
    ensures |r| >= 2 && r[0] == r[|r| - 1] == ReprQuote(s)
    ensures r[0] == '\'' || r[0] == '"'
  {
    var q := ReprQuote(s);
    [q] + ReprBody(s, q) + [q]
  }

  /** A string of plain characters is repr'd as itself between single quotes. */
  lemma ReprStringPlain(s: string)
    requires forall k :: 0 <= k < |s| ==> Plain(s[k])
    ensures ReprString(s) == "'" + s + "'"
  {
    assert '\'' !in s by {
      forall k | 0 <= k < |s| ensures s[k] != '\'' {
        assert Plain(s[k]);
      }
    }
    ReprBodyPlain(s, '\'');
  }

  /** `repr(v)`: how a value prints inside a list or dict. */
  function PyRepr(v: Value): (r: string)
    ensures |r| >= 1
    ensures v.List? ==> |r| >= 2 && r[0] == '[' && r[|r| - 1] == ']'
    ensures v.Table? ==> |r| >= 2 && r[0] == '{' && r[|r| - 1] == '}'
    ensures v.Str? ==> |r| >= 2 && (r[0] == '\'' || r[0] == '"') && r[|r| - 1] == r[0]
    ensures v.Bool? ==> r == if v.b then "True" else "False"
    ensures v.Int? ==> r == IntToDecimal(v.i)
    ensures v == List([]) ==> r == "[]"
    ensures v == Table([]) ==> r == "{}"
    decreases v
  {
    match v
    case Str(s) => ReprString(s)
    case Bool(b) => if b then "True" else "False"
    case Int(i) => IntToDecimal(i)
    case List(items) =>
      "[" + Join(seq(|items|, k requires 0 <= k < |items| => PyRepr(items[k])), ", ") + "]"
    case Table(entries) =>
      "{" + Join(seq(|entries|, k requires 0 <= k < |entries| =>
                       ReprString(entries[k].0) + ": " + PyRepr(entries[k].1)), ", ") + "}"
  }

  /** `str(v)`, which an f-string uses: a string is itself, anything else its `repr`. */
  function PyStr(v: Value): (r: string)
    ensures v.Str? ==> r == v.s
    ensures v.Bool? ==> r == if v.b then "True" else "False"
    ensures v.Int? ==> r == IntToDecimal(v.i)
    ensures v == List([]) ==> r == "[]"
    ensures v == Table([]) ==> r == "{}"
    ensures v.List? ==> |r| >= 2 && r[0] == '[' && r[|r| - 1] == ']'
    ensures v.Table? ==> |r| >= 2 && r[0] == '{' && r[|r| - 1] == '}'
  {
    if v.Str? then v.s else PyRepr(v)
  }

  /** A list prints its items with `repr`, choosing double quotes for a string holding a single quote. */
  lemma PyStrListExample()
    ensures PyStr(List([Str("it's"), Int(1)])) == "[\"it's\", 1]"
  {
    var reprs := ["\"it's\"", "1"];
    ExampleQuotedString();
    ExampleOne();
    ListRepr([Str("it's"), Int(1)], reprs);
    ExampleJoin(reprs);
  }

  lemma ExampleOne()
    ensures PyRepr(Int(1)) == "1"
  {
    assert NatToDecimal(1) == "1";
  }

  lemma ExampleJoin(reprs: seq<string>)
    requires reprs == ["\"it's\"", "1"]
    ensures "[" + Join(reprs, ", ") + "]" == "[\"it's\", 1]"
  {
    assert Join(reprs[1..], ", ") == "1";
  }

  lemma ListRepr(items: seq<Value>, reprs: seq<string>)
    requires |reprs| == |items|
    requires forall k :: 0 <= k < |items| ==> reprs[k] == PyRepr(items[k])
    ensures PyRepr(List(items)) == "[" + Join(reprs, ", ") + "]"
  {
    assert reprs == seq(|items|, k requires 0 <= k < |items| => PyRepr(items[k]));
  }

  /**
   * One more item in a list prints as `, ` and its `repr` before the closing
   * bracket; `reprs` is the text of the items already there.
   */
  lemma ListReprAppend(items: seq<Value>, reprs: seq<string>, x: Value)
    requires items != []
    requires |reprs| == |items|
    requires forall k :: 0 <= k < |items| ==> reprs[k] == PyRepr(items[k])
    ensures PyRepr(List(items)) == "[" + Join(reprs, ", ") + "]"
    ensures PyRepr(List(items + [x])) == "[" + (Join(reprs, ", ") + ", " + PyRepr(x)) + "]"
  {
    var more := items + [x];
    var reprsMore := reprs + [PyRepr(x)];
    forall k | 0 <= k < |more| ensures reprsMore[k] == PyRepr(more[k]) {
      if k < |items| {
        assert more[k] == items[k];
      }
    }
    ListRepr(items, reprs);
    ListRepr(more, reprsMore);
    JoinAppend(reprs, PyRepr(x), ", ");
  }

  /**
   * One more entry in a dict prints as `, ` and `'key': repr(value)` before the
   * closing brace; `shown` is the text of the entries already there.
   */
  lemma TableReprAppend(entries: seq<(string, Value)>, shown: seq<string>, key: string, v: Value)
    requires entries != []
    requires |shown| == |entries|
    requires forall k :: 0 <= k < |entries| ==> shown[k] == ReprString(entries[k].0) + ": " + PyRepr(entries[k].1)
    ensures PyRepr(Table(entries)) == "{" + Join(shown, ", ") + "}"
    ensures PyRepr(Table(entries + [(key, v)])) == "{" + (Join(shown, ", ") + ", " + (ReprString(key) + ": " + PyRepr(v))) + "}"
  {
    var more := entries + [(key, v)];
    var item := ReprString(key) + ": " + PyRepr(v);
    var shownMore := shown + [item];
    forall k | 0 <= k < |more|
      ensures shownMore[k] == ReprString(more[k].0) + ": " + PyRepr(more[k].1)
    {
      if k < |entries| {
        assert more[k] == entries[k];
      }
    }
    TableRepr(entries, shown);
    TableRepr(more, shownMore);
    JoinAppend(shown, item, ", ");
    assert PyRepr(Table(more)) == "{" + (Join(shown, ", ") + ", " + item) + "}";
  }

  lemma TableRepr(entries: seq<(string, Value)>, shown: seq<string>)
    requires |shown| == |entries|
    requires forall k :: 0 <= k < |entries| ==> shown[k] == ReprString(entries[k].0) + ": " + PyRepr(entries[k].1)
    ensures PyRepr(Table(entries)) == "{" + Join(shown, ", ") + "}"
  {
    assert shown == seq(|entries|, k requires 0 <= k < |entries| =>
                          ReprString(entries[k].0) + ": " + PyRepr(entries[k].1));
  }


  lemma ExampleQuotedString()
    ensures PyRepr(Str("it's")) == "\"it's\""
  {
    assert ReprQuote("it's") == '"';
    ReprBodyPlain("s", '"');
    assert "it's"[1..] == "t's";
    assert "t's"[1..] == "'s";
    assert "'s"[1..] == "s";
  }

  /** A dict prints as `{'key': value}` with the value's `repr`: a boolean as `True`. */
  lemma PyStrTableExample()
    ensures PyStr(Table([("k", Bool(true))])) == "{'k': True}"
  {
    ReprStringPlain("k");
    var entries := [("k", Bool(true))];
    var shown := seq(|entries|, k requires 0 <= k < |entries| =>
                       ReprString(entries[k].0) + ": " + PyRepr(entries[k].1));
    assert shown[0] == "'k': True";
    assert shown == ["'k': True"];
  }
}
