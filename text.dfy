/** The few string operations of Python's `str` that the pipeline relies on:
    `s.split(sep)`, `sep.join(parts)` and zero-padded decimal formatting (`%04d`). */
module Text {

  /** `s.split(sep)` for a one-character separator: never empty, and empty
      segments are kept (`"a//b"` gives three segments, `""` gives `[""]`). */
  function Split(s: string, sep: char): (parts: seq<string>)
    ensures |parts| >= 1
  {
    if s == [] then [""]
    else
      var rest := Split(s[1..], sep);
      if s[0] == sep then [""] + rest
      else [[s[0]] + rest[0]] + rest[1..]
  }

  /** `sep.join(parts)`: the parts in order, a separator between neighbours. It
      opens with the first part and holds at least one character per separator. */
  function Join(parts: seq<string>, sep: char): (s: string)
    ensures parts != [] ==> parts[0] <= s
    ensures |s| >= |parts| - 1
  {
    if parts == [] then ""
    else if |parts| == 1 then parts[0]
    else parts[0] + [sep] + Join(parts[1..], sep)
  }

  /** Separator-free parts joined contain the separator exactly when there are
      at least two of them. */
  lemma {:induction false} JoinSeparator(parts: seq<string>, sep: char)
    requires forall k :: 0 <= k < |parts| ==> sep !in parts[k]
    ensures sep in Join(parts, sep) <==> |parts| >= 2
  {
    if |parts| >= 2 {
      var s := Join(parts, sep);
      assert s == parts[0] + [sep] + Join(parts[1..], sep);
      assert s[|parts[0]|] == sep;
    }
  }

  /** `sep.join([a, b, c])`. */
  lemma JoinThree(a: string, b: string, c: string, sep: char)
    ensures Join([a, b, c], sep) == a + [sep] + b + [sep] + c
  {
    var parts := [a, b, c];
    assert parts[1..] == [b, c] && parts[1..][1..] == [c];
    assert Join([c], sep) == c;
    assert Join([b, c], sep) == b + [sep] + c;
    assert Join(parts, sep) == a + [sep] + (b + [sep] + c);
  }

  /** A split has exactly one segment, the whole string, exactly when the
      separator does not occur. */
  lemma {:induction false} SplitWhole(s: string, sep: char)
    ensures sep !in s <==> |Split(s, sep)| == 1
    ensures sep !in s ==> Split(s, sep) == [s]
  {
    if s != [] {
      SplitWhole(s[1..], sep);
      assert s == [s[0]] + s[1..];
    }
  }

  /** No segment produced by `Split` contains the separator. */
  lemma {:induction false} SplitSegmentsFree(s: string, sep: char)
    ensures forall k :: 0 <= k < |Split(s, sep)| ==> sep !in Split(s, sep)[k]
  {
    if s != [] {
      SplitSegmentsFree(s[1..], sep);
    }
  }

  /** Joining the segments of a split gives the string back: `Split` loses nothing. */
  lemma {:induction false} JoinSplit(s: string, sep: char)
    ensures Join(Split(s, sep), sep) == s
  {
    if s != [] {
      JoinSplit(s[1..], sep);
      if s[0] == sep {
        JoinSplitAtSeparator(s, sep);
      } else {
        JoinSplitAtOther(s, sep);
      }
    }
  }

  /** The step of `JoinSplit` for a string that opens with the separator. */
  lemma JoinSplitAtSeparator(s: string, sep: char)
    requires s != [] && s[0] == sep
    requires Join(Split(s[1..], sep), sep) == s[1..]
    ensures Join(Split(s, sep), sep) == s
  {
    SplitCons(s[0], s[1..], sep);
    assert s == [s[0]] + s[1..];
    JoinEmptyFirst(Split(s[1..], sep), sep);
  }

  /** An empty first part leaves a leading separator. */
  lemma JoinEmptyFirst(rest: seq<string>, sep: char)
    requires rest != []
    ensures Join([""] + rest, sep) == [sep] + Join(rest, sep)
  {
    var parts := [""] + rest;
    assert parts[1..] == rest;
  }

  /** The step of `JoinSplit` for a string that opens with another character. */
  lemma JoinSplitAtOther(s: string, sep: char)
    requires s != [] && s[0] != sep
    requires Join(Split(s[1..], sep), sep) == s[1..]
    ensures Join(Split(s, sep), sep) == s
  {
    var rest := Split(s[1..], sep);
    SplitCons(s[0], s[1..], sep);
    assert s == [s[0]] + s[1..];
    JoinConsFirst(s[0], rest[0], rest[1..], sep);
    assert [rest[0]] + rest[1..] == rest;
  }

  /** A character put in front of the first part comes out in front of the join. */
  lemma JoinConsFirst(c: char, first: string, rest: seq<string>, sep: char)
    ensures Join([[c] + first] + rest, sep) == [c] + Join([first] + rest, sep)
  {
    var parts, orig := [[c] + first] + rest, [first] + rest;
    if rest != [] {
      assert parts[1..] == rest && orig[1..] == rest;
      assert Join(parts, sep) == [c] + first + [sep] + Join(rest, sep);
      assert Join(orig, sep) == first + [sep] + Join(rest, sep);
    }
  }

  /** One step of `Split` on a string written as a first character and the rest. */
  lemma SplitCons(c: char, t: string, sep: char)
    ensures c == sep ==> Split([c] + t, sep) == [""] + Split(t, sep)
    ensures c != sep ==> Split([c] + t, sep) == [[c] + Split(t, sep)[0]] + Split(t, sep)[1..]
  {
    assert ([c] + t)[0] == c && ([c] + t)[1..] == t;
  }

  /** Splitting a string that starts with a separator-free prefix `a`: the prefix
      opens the first segment. */
  lemma {:induction false} SplitPrefix(a: string, t: string, sep: char)
    requires sep !in a
    ensures Split(a + t, sep) == [a + Split(t, sep)[0]] + Split(t, sep)[1..]
  {
    var r := Split(t, sep);
    if a == [] {
      assert a + t == t && a + r[0] == r[0];
      assert r == [r[0]] + r[1..];
    } else {
      SplitPrefix(a[1..], t, sep);
      SplitPrefixStep(a[0], a[1..] + t, sep, a[1..] + r[0], r[1..]);
      assert a + t == [a[0]] + (a[1..] + t);
      assert [a[0]] + (a[1..] + r[0]) == a + r[0];
    }
  }

  /** The step of `SplitPrefix`: a character other than the separator in front
      joins the first segment. */
  lemma SplitPrefixStep(c: char, u: string, sep: char, first: string, rest: seq<string>)
    requires c != sep
    requires Split(u, sep) == [first] + rest
    ensures Split([c] + u, sep) == [[c] + first] + rest
  {
    SplitCons(c, u, sep);
  }

  /** Splitting what was joined gives the parts back, provided there is at least
      one part and none contains the separator. */
  lemma {:induction false} SplitJoin(parts: seq<string>, sep: char)
    requires parts != []
    requires forall k :: 0 <= k < |parts| ==> sep !in parts[k]
    ensures Split(Join(parts, sep), sep) == parts
  {
    if |parts| == 1 {
      assert Join(parts, sep) == parts[0];
      SplitWhole(parts[0], sep);
    } else {
      var tail := Join(parts[1..], sep);
      SplitJoin(parts[1..], sep);
      SplitJoinStep(parts[0], tail, sep, parts[1..]);
      assert Join(parts, sep) == parts[0] + ([sep] + tail);
      assert [parts[0]] + parts[1..] == parts;
    }
  }

  /** The step of `SplitJoin`: a separator-free part and a separator in front of
      a string add that part in front of its segments. */
  lemma SplitJoinStep(a: string, tail: string, sep: char, rest: seq<string>)
    requires sep !in a
    requires Split(tail, sep) == rest
    ensures Split(a + ([sep] + tail), sep) == [a] + rest
  {
    SplitPrefix(a, [sep] + tail, sep);
    SplitCons(sep, tail, sep);
    assert a + "" == a;
  }

  predicate IsDigit(c: char)
  {
    '0' <= c <= '9'
  }

  function DigitChar(d: nat): (c: char)
    requires d < 10
    ensures IsDigit(c) && c as int - '0' as int == d
  {
    ('0' as int + d) as char
  }

  function DigitValue(c: char): nat
    requires IsDigit(c)
  {
    c as int - '0' as int
  }

  /** `str(n)` for a non-negative integer: its shortest decimal spelling. */
  function Digits(n: nat): (s: string)
    ensures |s| >= 1
    ensures forall k :: 0 <= k < |s| ==> IsDigit(s[k])
  {
    if n < 10 then [DigitChar(n)] else Digits(n / 10) + [DigitChar(n % 10)]
  }

  /** `'%0*d' % (width, n)`: the decimal spelling left-padded with zeros to `width`. */
  function Padded(n: nat, width: nat): (s: string)
    ensures forall k :: 0 <= k < |s| ==> IsDigit(s[k])
  {
    var d := Digits(n);
    if |d| >= width then d else seq(width - |d|, _ => '0') + d
  }

  /** The number a string of decimal digits denotes. */
  function Value(s: string): nat
    requires forall k :: 0 <= k < |s| ==> IsDigit(s[k])
  {
    if s == [] then 0 else Value(s[..|s| - 1]) * 10 + DigitValue(s[|s| - 1])
  }

  function Pow10(k: nat): nat
  {
    if k == 0 then 1 else 10 * Pow10(k - 1)
  }

  lemma {:induction false} ValueOfDigits(n: nat)
    ensures Value(Digits(n)) == n
  {
    if n >= 10 {
      ValueOfDigits(n / 10);
      var s := Digits(n);
      assert s[..|s| - 1] == Digits(n / 10);
    }
  }

  lemma {:induction false} ValueOfZeros(z: string, s: string)
    requires forall k :: 0 <= k < |z| ==> z[k] == '0'
    requires forall k :: 0 <= k < |s| ==> IsDigit(s[k])
    ensures forall k :: 0 <= k < |z + s| ==> IsDigit((z + s)[k])
    ensures Value(z + s) == Value(s)
  {
    if s == [] {
      assert z + s == z;
      if z != [] {
        ValueOfZeros(z[..|z| - 1], s);
        assert z[..|z| - 1] + s == z[..|z| - 1];
      }
    } else {
      ValueOfZeros(z, s[..|s| - 1]);
      assert (z + s)[..|z + s| - 1] == z + s[..|s| - 1];
    }
  }

  lemma {:induction false} DigitsLength(n: nat, width: nat)
    requires 1 <= width && n < Pow10(width)
    ensures |Digits(n)| <= width
  {
    if n >= 10 {
      assert Pow10(1) == 10;
      assert width >= 2;
      assert n / 10 < Pow10(width - 1);
      DigitsLength(n / 10, width - 1);
    }
  }

  /** Zero-padding loses nothing, and a number below `10^width` fills exactly
      `width` characters: so equal padded texts of one width mean equal numbers. */
  lemma PaddedSpec(n: nat, width: nat)
    requires 1 <= width && n < Pow10(width)
    ensures |Padded(n, width)| == width
    ensures Value(Padded(n, width)) == n
  {
    var d := Digits(n);
    DigitsLength(n, width);
    ValueOfDigits(n);
    if |d| < width {
      ValueOfZeros(seq(width - |d|, _ => '0'), d);
    }
  }
}
