/** The few Python string operations the emulator driver relies on, with
    the properties the rest of the model needs: str.split on one character,
    str.join, str.startswith, slicing, str.rstrip, int() and str() on
    integers, and str.splitlines. */
module Text {
  import opened Wrappers

  /** s.startswith(p) */
  predicate StartsWith(s: string, p: string) {
    |p| <= |s| && s[..|p|] == p
  }

  /** The slice s[n:], which Python makes empty when n is past the end. */
  function From(s: string, n: nat): (r: string)
    ensures n <= |s| ==> s == s[..n] + r
    ensures n >= |s| ==> r == ""
  {
    if n <= |s| then s[n..] else ""
  }

  /** s.rstrip(c): every trailing copy of c removed, nothing else. */
  function RStrip(s: string, c: char): string
    decreases |s|
  {
    if |s| > 0 && s[|s| - 1] == c then RStrip(s[..|s| - 1], c) else s
  }

  /** rstrip leaves a prefix that does not end in c, and removes nothing
      when there is no c at the end. */
  lemma {:induction false} RStripPrefix(s: string, c: char)
    ensures var r := RStrip(s, c);
      && |r| <= |s| && r == s[..|r|]
      && (|r| > 0 ==> r[|r| - 1] != c)
      && ((|s| == 0 || s[|s| - 1] != c) ==> r == s)
    decreases |s|
  {
    if |s| > 0 && s[|s| - 1] == c {
      RStripPrefix(s[..|s| - 1], c);
      var r := RStrip(s, c);
      assert s[..|s| - 1][..|r|] == s[..|r|];
    }
  }

  /** The number of occurrences of c in s. */
  function Count(s: string, c: char): nat
    decreases |s|
  {
    if |s| == 0 then 0 else (if s[0] == c then 1 else 0) + Count(s[1..], c)
  }

  /** s.split(c) for a one-character separator: empty fields are kept, so
      there is always one field more than there are separators. */
  function Split(s: string, c: char): (r: seq<string>)
    ensures |r| == Count(s, c) + 1
    ensures forall i :: 0 <= i < |r| ==> c !in r[i]
    decreases |s|
  {
    if |s| == 0 then [""]
    else
      var rest := Split(s[1..], c);
      if s[0] == c then [""] + rest
      else [[s[0]] + rest[0]] + rest[1..]
  }

  /** sep.join(xs) */
  function Join(xs: seq<string>, sep: string): string
    decreases |xs|
  {
    if |xs| == 0 then ""
    else if |xs| == 1 then xs[0]
    else xs[0] + sep + Join(xs[1..], sep)
  }

  lemma JoinCons(x: string, xs: seq<string>, sep: string)
    requires |xs| >= 1
    ensures Join([x] + xs, sep) == x + sep + Join(xs, sep)
  {
    assert ([x] + xs)[1..] == xs;
  }

  lemma {:induction false} JoinAppend(xs: seq<string>, ys: seq<string>, sep: string)
    requires |xs| >= 1 && |ys| >= 1
    ensures Join(xs + ys, sep) == Join(xs, sep) + sep + Join(ys, sep)
    decreases |xs|
  {
    if |xs| == 1 {
      JoinCons(xs[0], ys, sep);
      assert xs + ys == [xs[0]] + ys;
    } else {
      JoinAppend(xs[1..], ys, sep);
      assert (xs + ys)[1..] == xs[1..] + ys;
    }
  }

  lemma {:induction false} JoinExtendFirst(p: string, xs: seq<string>, sep: string)
    requires |xs| >= 1
    ensures Join([p + xs[0]] + xs[1..], sep) == p + Join(xs, sep)
  {
    var ys := [p + xs[0]] + xs[1..];
    assert ys[1..] == xs[1..];
  }

  /** Appending one more field to a join puts one more separator in front of it. */
  lemma {:induction false} JoinSnoc(xs: seq<string>, x: string, sep: string)
    requires |xs| >= 1
    ensures Join(xs + [x], sep) == Join(xs, sep) + sep + x
    decreases |xs|
  {
    if |xs| == 1 {
      assert (xs + [x])[1..] == [x];
    } else {
      assert (xs + [x])[1..] == xs[1..] + [x];
      JoinSnoc(xs[1..], x, sep);
    }
  }

  /** Joining the fields of a split with the same separator gives the text back. */
  lemma {:induction false} JoinSplit(s: string, c: char)
    ensures Join(Split(s, c), [c]) == s
    decreases |s|
  {
    if |s| > 0 {
      var rest := Split(s[1..], c);
      JoinSplit(s[1..], c);
      if s[0] == c {
        assert ([""] + rest)[1..] == rest;
      } else {
        JoinExtendFirst([s[0]], rest, [c]);
      }
    }
  }

  /** Splitting text that starts with a separator-free part a keeps a at the
      front of the first field. */
  lemma {:induction false} SplitPrefix(a: string, t: string, c: char)
    requires c !in a
    ensures Split(a + t, c) == [a + Split(t, c)[0]] + Split(t, c)[1..]
    decreases |a|
  {
    if |a| > 0 {
      assert a[0] in a;
      assert (a + t)[1..] == a[1..] + t;
      assert c !in a[1..] by {
        forall i | 0 <= i < |a[1..]| ensures a[1..][i] != c {
          assert a[1..][i] == a[i + 1];
        }
      }
      SplitPrefix(a[1..], t, c);
      var rest := Split(a[1..] + t, c);
      assert rest[0] == a[1..] + Split(t, c)[0];
      assert rest[1..] == Split(t, c)[1..];
      assert (a + t)[0] == a[0];
      assert Split(a + t, c) == [[a[0]] + rest[0]] + rest[1..];
      assert [a[0]] + a[1..] == a;
      assert [a[0]] + (a[1..] + Split(t, c)[0]) == a + Split(t, c)[0];
    } else {
      assert a + t == t && a + Split(t, c)[0] == Split(t, c)[0];
      assert [Split(t, c)[0]] + Split(t, c)[1..] == Split(t, c);
    }
  }

  /** Fields that do not contain the separator come back from a split of
      their join unchanged: no field is lost, merged or added. */
  lemma {:induction false} SplitJoin(xs: seq<string>, c: char)
    requires |xs| >= 1
    requires forall i :: 0 <= i < |xs| ==> c !in xs[i]
    ensures Split(Join(xs, [c]), c) == xs
    decreases |xs|
  {
    if |xs| == 1 {
      SplitPrefix(xs[0], "", c);
      assert xs[0] + "" == xs[0];
    } else {
      var j := Join(xs[1..], [c]);
      SplitJoin(xs[1..], c);
      assert ([c] + j)[1..] == j;
      assert Split([c] + j, c) == [""] + xs[1..];
      assert xs[0] + [c] + j == xs[0] + ([c] + j);
      SplitPrefix(xs[0], [c] + j, c);
      assert xs[0] + "" == xs[0];
    }
  }

  /** A separator between two texts separates their fields: the split of the
      whole is the split of the part before it followed by that of the part
      after it. */
  lemma {:induction false} SplitAppend(a: string, b: string, c: char)
    ensures Split(a + [c] + b, c) == Split(a, c) + Split(b, c)
    decreases |a|
  {
    if |a| == 0 {
      assert a + [c] + b == [c] + b;
      assert ([c] + b)[1..] == b;
    } else {
      assert (a + [c] + b)[1..] == a[1..] + [c] + b;
      SplitAppend(a[1..], b, c);
    }
  }

  // ---- integers as decimal text: str(n) and int(s) ----

  predicate IsDigit(ch: char) {
    '0' <= ch <= '9'
  }

  /** A non-empty run of ASCII decimal digits. */
  predicate IsDecimal(s: string) {
    |s| > 0 && forall i :: 0 <= i < |s| ==> IsDigit(s[i])
  }

  function DigitChar(d: nat): (ch: char)
    requires d < 10
    ensures IsDigit(ch)
  {
    ('0' as int + d) as char
  }

  function DigitValue(ch: char): (d: nat)
    requires IsDigit(ch)
    ensures d < 10
  {
    ch as int - '0' as int
  }

  /** The number a run of digits denotes, leading zeros allowed. */
  function DigitsValue(s: string): nat
    requires forall i :: 0 <= i < |s| ==> IsDigit(s[i])
    decreases |s|
  {
    if |s| == 0 then 0 else DigitsValue(s[..|s| - 1]) * 10 + DigitValue(s[|s| - 1])
  }

  /** str(n) for a non-negative n. */
  function NatToString(n: nat): (r: string)
    ensures IsDecimal(r)
    decreases n
  {
    if n < 10 then [DigitChar(n)] else NatToString(n / 10) + [DigitChar(n % 10)]
  }

  /** str(i), which is also what "{}".format(i) gives. */
  function IntToString(i: int): (r: string)
    ensures |r| >= 1 && (IsDigit(r[0]) || r[0] == '-')
    ensures forall k :: 0 <= k < |r| ==> IsDigit(r[k]) || r[k] == '-'
  {
    if i < 0 then "-" + NatToString(-i) else NatToString(i)
  }

  /** int(s) on a decimal literal with an optional sign; None where Python
      raises ValueError. */
  function ParseInt(s: string): Option<int> {
    if |s| > 0 && (s[0] == '-' || s[0] == '+') then
      if IsDecimal(s[1..]) then
        var v: int := if s[0] == '-' then 0 - DigitsValue(s[1..]) else DigitsValue(s[1..]);
        Some(v)
      else None
    else if IsDecimal(s) then Some(DigitsValue(s))
    else None
  }

  lemma {:induction false} DigitsOfNat(n: nat)
    ensures DigitsValue(NatToString(n)) == n
    decreases n
  {
    var s := NatToString(n);
    if n >= 10 {
      DigitsOfNat(n / 10);
      assert s[..|s| - 1] == NatToString(n / 10);
    }
  }

  /** int(str(i)) == i */
  lemma ParseIntToString(i: int)
    ensures ParseInt(IntToString(i)) == Some(i)
  {
    if i < 0 {
      assert IntToString(i)[1..] == NatToString(-i);
      DigitsOfNat(-i);
    } else {
      DigitsOfNat(i);
    }
  }

  /** Different integers are written differently. */
  lemma IntToStringInjective(i: int, j: int)
    requires IntToString(i) == IntToString(j)
    ensures i == j
  {
    ParseIntToString(i);
    ParseIntToString(j);
  }

  // ---- str.splitlines ----

  /** The characters at which Python's str.splitlines breaks a line. */
  predicate IsLineBoundary(ch: char) {
    ch == '\n' || ch == '\r' || ch == '\U{000B}' || ch == '\U{000C}'
    || ch == '\U{001C}' || ch == '\U{001D}' || ch == '\U{001E}'
    || ch == '\U{0085}' || ch == '\U{2028}' || ch == '\U{2029}'
  }

  /** The index of the first line boundary in s, or |s| when there is none. */
  function LineEnd(s: string): (k: nat)
    ensures k <= |s|
    ensures forall i :: 0 <= i < k ==> !IsLineBoundary(s[i])
    ensures k < |s| ==> IsLineBoundary(s[k])
    decreases |s|
  {
    if |s| == 0 then 0
    else if IsLineBoundary(s[0]) then 0
    else 1 + LineEnd(s[1..])
  }

  /** s.splitlines(): "\r\n" counts as one boundary and a boundary at the very
      end does not start an empty last line. */
  function SplitLines(s: string): seq<string>
    decreases |s|
  {
    if |s| == 0 then []
    else
      var k := LineEnd(s);
      if k == |s| then [s]
      else
        var next := if s[k] == '\r' && k + 1 < |s| && s[k + 1] == '\n' then k + 2 else k + 1;
        [s[..k]] + SplitLines(s[next..])
  }

  predicate NoLineBoundary(s: string) {
    forall i :: 0 <= i < |s| ==> !IsLineBoundary(s[i])
  }

  lemma {:induction false} LineEndAfter(a: string, t: string)
    requires NoLineBoundary(a)
    requires |t| > 0 && IsLineBoundary(t[0])
    ensures LineEnd(a + t) == |a|
    decreases |a|
  {
    if |a| > 0 {
      assert (a + t)[1..] == a[1..] + t;
      LineEndAfter(a[1..], t);
    }
  }

  /** Lines joined with "\n" split back into the same lines, provided none
      contains a boundary and the last is not empty. */
  lemma {:induction false} SplitLinesJoin(ps: seq<string>)
    requires |ps| >= 1 && ps[|ps| - 1] != ""
    requires forall i :: 0 <= i < |ps| ==> NoLineBoundary(ps[i])
    ensures SplitLines(Join(ps, "\n")) == ps
    decreases |ps|
  {
    if |ps| == 1 {
      assert LineEnd(ps[0]) == |ps[0]|;
    } else {
      var j := Join(ps[1..], "\n");
      var s := ps[0] + "\n" + j;
      assert s == ps[0] + ("\n" + j);
      LineEndAfter(ps[0], "\n" + j);
      assert s[|ps[0]|] == '\n';
      assert s[..|ps[0]|] == ps[0];
      assert s[|ps[0]| + 1..] == j;
      SplitLinesJoin(ps[1..]);
      assert ps == [ps[0]] + ps[1..];
    }
  }
}
