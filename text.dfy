/**
 * The string operations of Python's standard library that the JavaScript
 * executors rely on: `str.split` on one character, `str(int)`, the
 * `in` test on strings, and `os.path.join` / `basename` / `dirname` /
 * `isabs` for POSIX paths.
 */
module Text {

  // ---------------------------------------------------------------------
  // Splitting on a separator character (`s.split("@")`)
  // ---------------------------------------------------------------------

  /** Index of the first occurrence of `c` in `s`. */
  function IndexOf(s: string, c: char): (i: nat)
    requires c in s
    ensures i < |s| && s[i] == c && c !in s[..i]
  {
    if s[0] == c then 0
    else
      var j := IndexOf(s[1..], c);
      assert s[..j + 1] == [s[0]] + s[1..][..j];
      j + 1
  }

  /** Number of occurrences of `c` in `s` (`s.count(c)`). */
  function Count(s: string, c: char): nat
  {
    if s == [] then 0 else (if s[0] == c then 1 else 0) + Count(s[1..], c)
  }

  /** Inverse of `Split`: the pieces glued back together with `sep`. */
  function Join(parts: seq<string>, sep: char): string
  {
    if |parts| == 0 then ""
    else if |parts| == 1 then parts[0]
    else parts[0] + [sep] + Join(parts[1..], sep)
  }

  /**
   * Python's `s.split(sep)` for a one-character separator: the maximal
   * separator-free pieces, in order, always at least one of them.
   */
  function Split(s: string, sep: char): (parts: seq<string>)
    ensures |parts| >= 1 && parts[0] <= s
    ensures sep in s <==> |parts| >= 2
    ensures forall k :: 0 <= k < |parts| ==> sep !in parts[k]
    ensures Join(parts, sep) == s
    decreases |s|
  {
    if sep !in s then [s]
    else
      var i := IndexOf(s, sep);
      var rest := Split(s[i + 1..], sep);
      var parts := [s[..i]] + rest;
      assert parts[1..] == rest;
      assert s == s[..i] + [sep] + s[i + 1..];
      parts
  }

  lemma {:induction false} CountAppend(a: string, b: string, c: char)
    ensures Count(a + b, c) == Count(a, c) + Count(b, c)
  {
    if a == [] {
      assert a + b == b;
    } else {
      assert (a + b)[1..] == a[1..] + b;
      CountAppend(a[1..], b, c);
    }
  }

  lemma {:induction false} CountAbsent(s: string, c: char)
    requires c !in s
    ensures Count(s, c) == 0
  {
    if s != [] {
      assert c !in s[1..] by {
        forall k | 0 <= k < |s[1..]| ensures s[1..][k] != c {
          assert s[1..][k] == s[k + 1];
        }
      }
      CountAbsent(s[1..], c);
    }
  }

  /** `s.split(sep)` yields one piece more than there are separators. */
  lemma {:induction false} SplitLength(s: string, sep: char)
    ensures |Split(s, sep)| == Count(s, sep) + 1
    decreases |s|
  {
    if sep !in s {
      CountAbsent(s, sep);
    } else {
      var i := IndexOf(s, sep);
      SplitLength(s[i + 1..], sep);
      assert s == s[..i] + ([sep] + s[i + 1..]);
      CountAppend(s[..i], [sep] + s[i + 1..], sep);
      CountAppend([sep], s[i + 1..], sep);
      CountAbsent(s[..i], sep);
    }
  }

  /** The first separator after a separator-free head is the one right after it. */
  lemma {:induction false} IndexOfAfterHead(a: string, sep: char, b: string)
    requires sep !in a
    ensures IndexOf(a + [sep] + b, sep) == |a|
  {
    if a != [] {
      assert sep !in a[1..] by {
        forall k | 0 <= k < |a[1..]| ensures a[1..][k] != sep {
          assert a[1..][k] == a[k + 1];
        }
      }
      assert (a + [sep] + b)[1..] == a[1..] + [sep] + b;
      IndexOfAfterHead(a[1..], sep, b);
    }
  }

  /** Splitting after a separator-free head peels that head off as the first piece. */
  lemma SplitAfterHead(a: string, sep: char, b: string)
    requires sep !in a
    ensures Split(a + [sep] + b, sep) == [a] + Split(b, sep)
  {
    var s := a + [sep] + b;
    IndexOfAfterHead(a, sep, b);
    assert s[..|a|] == a;
    assert s[|a| + 1..] == b;
  }

  // ---------------------------------------------------------------------
  // Substring test (`needle in hay`)
  // ---------------------------------------------------------------------

  /** Python's `needle in hay` on strings. */
  predicate Contains(hay: string, needle: string)
    decreases |hay|
  {
    needle <= hay || (|hay| > 0 && Contains(hay[1..], needle))
  }

  /** Whatever surrounds it, a string that embeds `needle` contains it. */
  lemma {:induction false} ContainsInside(pre: string, needle: string, post: string)
    ensures Contains(pre + needle + post, needle)
    decreases |pre|
  {
    if pre == [] {
      assert pre + needle + post == needle + post;
      assert (needle + post)[..|needle|] == needle;
    } else {
      assert (pre + needle + post)[1..] == pre[1..] + needle + post;
      ContainsInside(pre[1..], needle, post);
    }
  }

  // ---------------------------------------------------------------------
  // Decimal rendering (`str(n)` for a Python int) and its inverse
  // ---------------------------------------------------------------------

  predicate IsDigit(c: char) { '0' <= c <= '9' }

  predicate AllDigits(s: string) { forall k :: 0 <= k < |s| ==> IsDigit(s[k]) }

  function Digit(d: nat): (c: char)
    requires d < 10
    ensures IsDigit(c)
  {
    (48 + d) as char
  }

  function DigitValue(c: char): (d: nat)
    requires IsDigit(c)
    ensures d < 10
  {
    c as int - 48
  }

  /** `str(n)` for a non-negative int: digits only, no leading zero. */
  function NatToString(n: nat): (s: string)
    ensures |s| >= 1 && AllDigits(s)
    ensures s[0] == '0' <==> n == 0
  {
    if n < 10 then [Digit(n)] else NatToString(n / 10) + [Digit(n % 10)]
  }

  /** `str(i)` for any int: a minus sign in front of the magnitude when negative. */
  function IntToString(i: int): (s: string)
    ensures |s| >= 1
    ensures s[0] == '-' <==> i < 0
    ensures i < 0 ==> |s| >= 2 && AllDigits(s[1..])
    ensures i >= 0 ==> AllDigits(s)
  {
    if i < 0 then "-" + NatToString(-i) else NatToString(i)
  }

  /** The value of a string of decimal digits (an independent reading of `str`). */
  function ParseNat(s: string): nat
    requires AllDigits(s)
  {
    if s == [] then 0 else 10 * ParseNat(s[..|s| - 1]) + DigitValue(s[|s| - 1])
  }

  /** `int(s)` for the strings `IntToString` produces. */
  function ParseInt(s: string): int
    requires |s| >= 1
    requires s[0] == '-' ==> AllDigits(s[1..])
    requires s[0] != '-' ==> AllDigits(s)
  {
    if s[0] == '-' then 0 - ParseNat(s[1..]) as int else ParseNat(s)
  }

  lemma {:induction false} NatToStringRoundTrip(n: nat)
    ensures ParseNat(NatToString(n)) == n
  {
    if n >= 10 {
      var s := NatToString(n);
      assert s[..|s| - 1] == NatToString(n / 10);
      NatToStringRoundTrip(n / 10);
    }
  }

  /** `int(str(i)) == i`: the rendered number carries its value. */
  lemma IntToStringRoundTrip(i: int)
    ensures ParseInt(IntToString(i)) == i
  {
    if i < 0 {
      var t := NatToString(-i);
      assert IntToString(i) == "-" + t;
      assert ("-" + t)[1..] == t;
      NatToStringRoundTrip(-i);
    } else {
      NatToStringRoundTrip(i);
    }
  }

  /** A flag starts with two dashes. */
  predicate IsFlag(s: string) { |s| >= 2 && s[0] == '-' && s[1] == '-' }

  /** A rendered number is never mistaken for a flag: after a minus sign comes a digit. */
  lemma NumberIsNotFlag(i: int)
    ensures !IsFlag(IntToString(i))
  {
    var s := IntToString(i);
    if i < 0 {
      assert s[1..][0] == s[1];
    }
  }

  // ---------------------------------------------------------------------
  // POSIX paths (`posixpath`)
  // ---------------------------------------------------------------------

  /** `os.path.isabs` */
  predicate IsAbs(p: string) { |p| > 0 && p[0] == '/' }

  /** `os.path.join(a, b)` */
  function PathJoin(a: string, b: string): (r: string)
    ensures IsAbs(b) ==> r == b
    ensures !IsAbs(b) ==> a <= r
    ensures IsAbs(a) ==> IsAbs(r)
  {
    if IsAbs(b) then b
    else if a == "" || a[|a| - 1] == '/' then a + b
    else a + "/" + b
  }

  /** One past the last '/' in `p` (0 when there is none): where basename begins. */
  function SplitPoint(p: string): (i: nat)
    ensures i <= |p|
    ensures '/' !in p[i..]
    ensures i > 0 ==> p[i - 1] == '/'
  {
    if p == [] then 0
    else if p[|p| - 1] == '/' then |p|
    else
      var i := SplitPoint(p[..|p| - 1]);
      assert p[i..] == p[..|p| - 1][i..] + [p[|p| - 1]];
      i
  }

  /** `os.path.basename` */
  function Basename(p: string): (b: string)
    ensures '/' !in b
    ensures |b| <= |p| && b == p[|p| - |b|..]
  {
    p[SplitPoint(p)..]
  }

  function RStripSlashes(s: string): (r: string)
    ensures r <= s
    ensures r == [] || r[|r| - 1] != '/'
  {
    if s != [] && s[|s| - 1] == '/' then RStripSlashes(s[..|s| - 1]) else s
  }

  predicate AllSlashes(s: string) { forall k :: 0 <= k < |s| ==> s[k] == '/' }

  /** `os.path.dirname` */
  function Dirname(p: string): (d: string)
    ensures d <= p
  {
    var head := p[..SplitPoint(p)];
    if head != "" && !AllSlashes(head) then RStripSlashes(head) else head
  }

  /**
   * A file named by `basename` inside the directory named by `dirname`
   * is the original path again, whenever the last '/' of the path is a
   * single separator that is not the root.
   */
  lemma DirnameJoinBasename(p: string)
    requires SplitPoint(p) >= 2 && p[SplitPoint(p) - 2] != '/'
    ensures PathJoin(Dirname(p), Basename(p)) == p
  {
    var i := SplitPoint(p);
    var head := p[..i];
    var dir := p[..i - 1];
    assert head[i - 2] != '/';
    assert !AllSlashes(head);
    assert head[..|head| - 1] == dir;
    assert dir[|dir| - 1] != '/';
    assert RStripSlashes(dir) == dir;
    assert RStripSlashes(head) == dir;
    assert Dirname(p) == dir;
    assert PathJoin(dir, p[i..]) == dir + "/" + p[i..];
    assert p == dir + "/" + p[i..];
  }
}
