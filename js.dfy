/** JavaScript values and the few built-in string operations the front end
    relies on: truthiness, number-to-text conversion, `Array.prototype.join`,
    `String.prototype.split` with a one-character separator and
    `String.prototype.length` in UTF-16 code units, together with the cell
    predicate `CellsFreeOf` that both CSV serialisers use. The route handlers
    take only `Option` from here. */
module Js {

  datatype Option<+T> = None | Some(value: T)

  /** A JavaScript value as the CSV code receives it from a JSON response.
      Numbers are integers here: fractional prices are not modelled. */
  datatype Value = Undefined | Null | Number(n: int) | Str(s: string)

  /** JavaScript truthiness: `undefined`, `null`, `0` and `""` are falsy. */
  predicate Truthy(v: Value) {
    match v
    case Undefined => false
    case Null => false
    case Number(n) => n != 0
    case Str(s) => s != ""
  }

  predicate IsDigit(c: char) {
    '0' <= c <= '9'
  }

  /** No character of `s` is in `cs`. */
  predicate FreeOf(s: string, cs: set<char>) {
    forall i :: 0 <= i < |s| ==> s[i] !in cs
  }

  function Digit(d: nat): char
    requires d < 10
  {
    ('0' as int + d) as char
  }

  /** The numeral `String(n)` gives for a non-negative integer. */
  function NatToDecimal(n: nat): (r: string)
    ensures |r| > 0
    ensures forall i :: 0 <= i < |r| ==> IsDigit(r[i])
    ensures r[0] == '0' ==> n == 0
  {
    if n < 10 then [Digit(n)] else NatToDecimal(n / 10) + [Digit(n % 10)]
  }

  /** The number a string of decimal digits denotes. */
  function DecimalValue(s: string): nat
    requires forall i :: 0 <= i < |s| ==> IsDigit(s[i])
  {
    if s == [] then 0
    else
      assert IsDigit(s[|s| - 1]);
      DecimalValue(s[..|s| - 1]) * 10 + (s[|s| - 1] as int - '0' as int)
  }

  /** Reading the numeral back gives the number printed. */
  lemma {:induction false} DecimalRoundTrip(n: nat)
    ensures DecimalValue(NatToDecimal(n)) == n
  {
    if n >= 10 {
      var s := NatToDecimal(n);
      assert s[..|s| - 1] == NatToDecimal(n / 10);
      DecimalRoundTrip(n / 10);
    }
  }

  /** `String(n)` for an integer: a minus sign and the numeral of `-n` when negative. */
  function IntToText(n: int): (r: string)
    ensures |r| > 0
    ensures forall i :: 0 <= i < |r| ==> IsDigit(r[i]) || r[i] == '-'
  {
    if n < 0 then "-" + NatToDecimal(-n) else NatToDecimal(n)
  }

  /** The text `Array.prototype.join` writes for an element: nothing for
      `undefined` and `null`, the numeral for a number, the string itself. */
  function ToText(v: Value): string {
    match v
    case Undefined => ""
    case Null => ""
    case Number(n) => IntToText(n)
    case Str(s) => s
  }

  /** `s.length`: the number of UTF-16 code units, two for each character
      beyond U+FFFF (a surrogate pair) and one for every other. */
  function Utf16Length(s: string): nat {
    if s == [] then 0 else (if s[0] as int >= 0x1_0000 then 2 else 1) + Utf16Length(s[1..])
  }

  /** A single character takes two code units beyond U+FFFF and one otherwise. */
  lemma Utf16LengthOne(c: char)
    ensures Utf16Length([c]) == if c as int >= 0x1_0000 then 2 else 1
  {
    assert [c][1..] == [];
  }

  /** The length of a concatenation is the sum of the lengths; with
      `Utf16LengthOne` this fixes the count of every string. */
  lemma {:induction false} Utf16LengthAppend(a: string, b: string)
    ensures Utf16Length(a + b) == Utf16Length(a) + Utf16Length(b)
  {
    if a == [] {
      assert a + b == b;
    } else {
      assert (a + b)[1..] == a[1..] + b;
      Utf16LengthAppend(a[1..], b);
    }
  }

  /** Each character takes one or two code units, exactly one when none lies
      beyond the Basic Multilingual Plane, and more than `|s|` when one does. */
  lemma {:induction false} Utf16LengthBounds(s: string)
    ensures |s| <= Utf16Length(s) <= 2 * |s|
    ensures (forall i :: 0 <= i < |s| ==> s[i] as int < 0x1_0000) ==> Utf16Length(s) == |s|
    ensures (exists i :: 0 <= i < |s| && s[i] as int >= 0x1_0000) ==> Utf16Length(s) > |s|
  {
    if s != [] {
      Utf16LengthBounds(s[1..]);
      if s[0] as int < 0x1_0000 && exists i :: 0 <= i < |s| && s[i] as int >= 0x1_0000 {
        var i :| 0 <= i < |s| && s[i] as int >= 0x1_0000;
        assert s[1..][i - 1] == s[i];
      }
    }
  }

  function Texts(vs: seq<Value>): (r: seq<string>)
    ensures |r| == |vs|
  {
    seq(|vs|, i requires 0 <= i < |vs| => ToText(vs[i]))
  }

  /** `cells.join(sep)`. */
  function Join(cells: seq<string>, sep: char): string {
    if |cells| == 0 then ""
    else if |cells| == 1 then cells[0]
    else cells[0] + [sep] + Join(cells[1..], sep)
  }

  /** A join of four cells written out. */
  lemma JoinFour(a: string, b: string, c: string, d: string, sep: char)
    ensures Join([a, b, c, d], sep) == a + [sep] + b + [sep] + c + [sep] + d
  {
    assert [c, d][1..] == [d];
    assert Join([c, d], sep) == c + [sep] + d;
    assert [b, c, d][1..] == [c, d];
    assert Join([b, c, d], sep) == b + [sep] + (c + [sep] + d);
    assert [a, b, c, d][1..] == [b, c, d];
    assert Join([a, b, c, d], sep) == a + [sep] + (b + [sep] + (c + [sep] + d));
  }

  /** `s.split(sep)`: the pieces between separators; `"".split(sep)` is `[""]`. */
  function Split(s: string, sep: char): (r: seq<string>)
    ensures |r| > 0
  {
    if s == [] then [""]
    else
      var rest := Split(s[1..], sep);
      if s[0] == sep then [""] + rest else [[s[0]] + rest[0]] + rest[1..]
  }

  lemma {:induction false} SplitWithoutSeparator(s: string, sep: char)
    requires sep !in s
    ensures Split(s, sep) == [s]
  {
    if s != [] {
      SplitWithoutSeparator(s[1..], sep);
      assert [s[0]] + s[1..] == s;
    }
  }

  lemma {:induction false} SplitAtFirst(a: string, b: string, sep: char)
    requires sep !in a
    ensures Split(a + [sep] + b, sep) == [a] + Split(b, sep)
  {
    if a == [] {
      assert a + [sep] + b == [sep] + b;
      assert ([sep] + b)[1..] == b;
    } else {
      assert (a + [sep] + b)[1..] == a[1..] + [sep] + b;
      SplitAtFirst(a[1..], b, sep);
      assert [a[0]] + a[1..] == a;
    }
  }

  /** Splitting what `join` wrote gives the cells back, provided no cell
      contains the separator (neither serialiser quotes its cells). */
  lemma {:induction false} SplitJoin(cells: seq<string>, sep: char)
    requires |cells| > 0
    requires forall k :: 0 <= k < |cells| ==> sep !in cells[k]
    ensures Split(Join(cells, sep), sep) == cells
  {
    if |cells| == 1 {
      SplitWithoutSeparator(cells[0], sep);
    } else {
      SplitJoin(cells[1..], sep);
      SplitAtFirst(cells[0], Join(cells[1..], sep), sep);
      assert [cells[0]] + cells[1..] == cells;
    }
  }

  /** `join` writes exactly one separator between consecutive cells. */
  lemma {:induction false} JoinSeparatorCount(cells: seq<string>, sep: char)
    requires |cells| > 0
    requires forall k :: 0 <= k < |cells| ==> sep !in cells[k]
    ensures multiset(Join(cells, sep))[sep] == |cells| - 1
  {
    assert sep !in multiset(cells[0]);
    if |cells| > 1 {
      JoinSeparatorCount(cells[1..], sep);
      assert multiset(Join(cells, sep)) == multiset(cells[0]) + multiset([sep]) + multiset(Join(cells[1..], sep));
    }
  }

  /** `split` yields one piece more than there are separators in `s`. */
  lemma {:induction false} SplitCount(s: string, sep: char)
    ensures |Split(s, sep)| == multiset(s)[sep] + 1
  {
    if s != [] {
      SplitCount(s[1..], sep);
      assert s == [s[0]] + s[1..];
      assert multiset(s) == multiset([s[0]]) + multiset(s[1..]);
    }
  }

  /** A join holds its `|cells| - 1` separators plus those already inside
      any one cell. */
  lemma {:induction false} JoinCountAtLeast(cells: seq<string>, sep: char, j: nat)
    requires j < |cells|
    ensures multiset(Join(cells, sep))[sep] >= |cells| - 1 + multiset(cells[j])[sep]
  {
    if |cells| > 1 {
      JoinCountAtLeast(cells[1..], sep, if j == 0 then 0 else j - 1);
      assert multiset(Join(cells, sep)) == multiset(cells[0]) + multiset([sep]) + multiset(Join(cells[1..], sep));
    }
  }

  /** A separator inside any cell makes `split` return more pieces than `join`
      was given: without quoting, the cell boundaries are lost. */
  lemma SeparatorInCellAddsPieces(cells: seq<string>, sep: char, j: nat)
    requires j < |cells|
    requires sep in cells[j]
    ensures |Split(Join(cells, sep), sep)| > |cells|
  {
    assert multiset(cells[j])[sep] >= 1;
    JoinCountAtLeast(cells, sep, j);
    SplitCount(Join(cells, sep), sep);
  }

  /** A join of cells free of `c` is free of `c` when the separator is not `c`. */
  lemma {:induction false} JoinFreeOf(cells: seq<string>, sep: char, c: char)
    requires c != sep
    requires forall k :: 0 <= k < |cells| ==> c !in cells[k]
    ensures c !in Join(cells, sep)
  {
    if |cells| > 1 {
      JoinFreeOf(cells[1..], sep, c);
    }
  }

  /** The characters a cell must not hold for a comma-separated,
      line-feed-terminated file to read back: neither serialiser quotes cells. */
  const CsvBreaking: set<char> := {',', '\n'}

  /** The text of every value in `vs` is free of the characters `cs`. */
  predicate CellsFreeOf(vs: seq<Value>, cs: set<char>) {
    forall k :: 0 <= k < |vs| ==> FreeOf(ToText(vs[k]), cs)
  }

  lemma CellsFreeOfFewer(vs: seq<Value>, cs: set<char>, ds: set<char>)
    requires ds <= cs
    requires CellsFreeOf(vs, cs)
    ensures CellsFreeOf(vs, ds)
  {
    forall k, i | 0 <= k < |vs| && 0 <= i < |ToText(vs[k])| ensures ToText(vs[k])[i] !in ds {
      assert FreeOf(ToText(vs[k]), cs);
    }
  }

  /** Joining values whose texts lack `c` gives a line without `c`. */
  lemma JoinTextsFreeOf(vs: seq<Value>, sep: char, c: char)
    requires c != sep
    requires CellsFreeOf(vs, {c})
    ensures c !in Join(Texts(vs), sep)
  {
    var cells := Texts(vs);
    forall k | 0 <= k < |cells| ensures c !in cells[k] {
      assert FreeOf(cells[k], {c});
    }
    JoinFreeOf(cells, sep, c);
  }

  /** Joining values whose texts lack the separator splits back into those texts. */
  lemma SplitJoinTexts(vs: seq<Value>, sep: char)
    requires |vs| > 0
    requires CellsFreeOf(vs, {sep})
    ensures Split(Join(Texts(vs), sep), sep) == Texts(vs)
  {
    var cells := Texts(vs);
    forall k | 0 <= k < |cells| ensures sep !in cells[k] {
      assert FreeOf(cells[k], {sep});
    }
    SplitJoin(cells, sep);
  }
}
