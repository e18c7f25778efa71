/** String helpers shared by the Python services and the web form: joining and
    splitting on a separator, substring tests and decimal rendering of integers. */
module Text {

  /** The parts separated by `sep`, as Python's `str.join` and JavaScript's
      `Array.prototype.join` build it (no separator before the first part or
      after the last). */
  function Join(parts: seq<string>, sep: string): string
  {
    if |parts| == 0 then ""
    else if |parts| == 1 then parts[0]
    else parts[0] + sep + Join(parts[1..], sep)
  }

  /** The pieces of `s` between occurrences of `c`, as Python's `s.split(c)`
      gives them: never empty, and one more piece than there are `c`s. */
  function Split(s: string, c: char): (r: seq<string>)
    ensures |r| >= 1
    decreases |s|
  {
    if |s| == 0 then [""]
    else if s[0] == c then [""] + Split(s[1..], c)
    else
      var rest := Split(s[1..], c);
      [[s[0]] + rest[0]] + rest[1..]
  }

  /** The pieces of every part, one part after the other. */
  function SplitEach(parts: seq<string>, c: char): seq<string>
  {
    if |parts| == 0 then [] else Split(parts[0], c) + SplitEach(parts[1..], c)
  }

  lemma {:induction false} JoinAppend(a: seq<string>, b: seq<string>, sep: string)
    requires |a| >= 1 && |b| >= 1
    ensures Join(a + b, sep) == Join(a, sep) + sep + Join(b, sep)
  {
    if |a| == 1 {
      assert (a + b)[0] == a[0];
      assert (a + b)[1..] == b;
    } else {
      assert (a + b)[0] == a[0];
      assert (a + b)[1..] == a[1..] + b;
      JoinAppend(a[1..], b, sep);
    }
  }

  /** A string without the separator is a single piece. */
  lemma {:induction false} SplitWithout(s: string, c: char)
    requires c !in s
    ensures Split(s, c) == [s]
  {
    if |s| > 0 {
      assert c !in s[1..];
      SplitWithout(s[1..], c);
      assert [s[0]] + s[1..] == s;
    }
  }

  /** Splitting on the separator between two strings splits each side on its own. */
  lemma {:induction false} SplitConcat(a: string, c: char, b: string)
    ensures Split(a + [c] + b, c) == Split(a, c) + Split(b, c)
  {
    var s := a + [c] + b;
    if |a| == 0 {
      assert s == [c] + b;
      assert s[1..] == b;
    } else {
      assert s[0] == a[0];
      assert s[1..] == a[1..] + [c] + b;
      SplitConcat(a[1..], c, b);
      var ra, rb := Split(a[1..], c), Split(b, c);
      assert Split(s[1..], c) == ra + rb;
      if a[0] == c {
        assert Split(s, c) == [""] + (ra + rb);
        assert Split(a, c) == [""] + ra;
        SeqAssoc([""], ra, rb);
      } else {
        assert Split(s, c) == [[a[0]] + (ra + rb)[0]] + (ra + rb)[1..];
        assert (ra + rb)[0] == ra[0];
        assert (ra + rb)[1..] == ra[1..] + rb;
        assert Split(a, c) == [[a[0]] + ra[0]] + ra[1..];
        SeqAssoc([[a[0]] + ra[0]], ra[1..], rb);
      }
    }
  }

  lemma SeqAssoc<T>(x: seq<T>, y: seq<T>, z: seq<T>)
    ensures x + (y + z) == (x + y) + z
  {
  }

  /** The pieces of a joined sequence are the pieces of its parts, in order. */
  lemma {:induction false} SplitJoinEach(parts: seq<string>, c: char)
    requires |parts| >= 1
    ensures Split(Join(parts, [c]), c) == SplitEach(parts, c)
  {
    if |parts| == 1 {
      assert parts[1..] == [];
    } else {
      SplitJoinEach(parts[1..], c);
      SplitConcat(parts[0], c, Join(parts[1..], [c]));
    }
  }

  /** Joining parts free of the separator and splitting again gives the parts back. */
  lemma {:induction false} SplitJoin(parts: seq<string>, c: char)
    requires |parts| >= 1
    requires forall i :: 0 <= i < |parts| ==> c !in parts[i]
    ensures Split(Join(parts, [c]), c) == parts
  {
    if |parts| == 1 {
      SplitWithout(parts[0], c);
    } else {
      SplitJoin(parts[1..], c);
      SplitConcat(parts[0], c, Join(parts[1..], [c]));
      SplitWithout(parts[0], c);
      assert [parts[0]] + parts[1..] == parts;
    }
  }

  /** Every line followed by a newline, as a block of header lines is written. */
  function Terminated(lines: seq<string>): string
  {
    if |lines| == 0 then "" else lines[0] + "\n" + Terminated(lines[1..])
  }

  lemma {:induction false} SplitEachAppend(a: seq<string>, b: seq<string>, c: char)
    ensures SplitEach(a + b, c) == SplitEach(a, c) + SplitEach(b, c)
  {
    if |a| > 0 {
      assert (a + b)[0] == a[0];
      assert (a + b)[1..] == a[1..] + b;
      SplitEachAppend(a[1..], b, c);
    } else {
      assert a + b == b;
    }
  }

  /** Parts free of the separator split into themselves. */
  lemma {:induction false} SplitEachWithout(parts: seq<string>, c: char)
    requires forall i :: 0 <= i < |parts| ==> c !in parts[i]
    ensures SplitEach(parts, c) == parts
  {
    if |parts| > 0 {
      SplitWithout(parts[0], c);
      SplitEachWithout(parts[1..], c);
      assert [parts[0]] + parts[1..] == parts;
    }
  }

  /** Header lines free of newlines, then a body: the lines are the header
      lines followed by the lines of the body. */
  lemma {:induction false} SplitTerminated(header: seq<string>, body: string)
    requires forall i :: 0 <= i < |header| ==> '\n' !in header[i]
    ensures Split(Terminated(header) + body, '\n') == header + Split(body, '\n')
  {
    if |header| > 0 {
      var h, tail := header[0], header[1..];
      var rest := Terminated(tail);
      assert Terminated(header) == h + ['\n'] + rest;
      Regroup(h, ['\n'], rest, body);
      SplitConcat(h, '\n', rest + body);
      assert '\n' !in h;
      SplitWithout(h, '\n');
      assert forall i :: 0 <= i < |tail| ==> '\n' !in tail[i] by {
        forall i | 0 <= i < |tail| ensures '\n' !in tail[i] {
          assert tail[i] == header[i + 1];
        }
      }
      SplitTerminated(tail, body);
      calc {
        Split(Terminated(header) + body, '\n');
        Split(h + ['\n'] + (rest + body), '\n');
        [h] + (tail + Split(body, '\n'));
        ([h] + tail) + Split(body, '\n');
        { assert [h] + tail == header; }
        header + Split(body, '\n');
      }
    } else {
      assert Terminated(header) + body == body;
    }
  }

  /** Header lines, then parts joined by newlines: the lines are the header
      lines followed by the lines of every part, or by one empty line when
      there are no parts. */
  lemma SplitHeaderAndJoin(header: seq<string>, parts: seq<string>)
    requires forall i :: 0 <= i < |header| ==> '\n' !in header[i]
    ensures parts == [] ==> Split(Terminated(header) + Join(parts, "\n"), '\n') == header + [""]
    ensures parts != [] ==> Split(Terminated(header) + Join(parts, "\n"), '\n') == header + SplitEach(parts, '\n')
  {
    SplitTerminated(header, Join(parts, "\n"));
    if parts != [] {
      SplitJoinEach(parts, '\n');
    }
  }

  lemma Regroup(a: string, b: string, c: string, d: string)
    ensures (a + b + c) + d == a + b + (c + d)
  {
  }

  predicate StartsWith(s: string, prefix: string)
  {
    |prefix| <= |s| && s[..|prefix|] == prefix
  }

  predicate EndsWith(s: string, suffix: string)
  {
    |suffix| <= |s| && s[|s| - |suffix|..] == suffix
  }

  /** Python's `sub in s` on strings: `sub` occurs somewhere in `s`. */
  predicate Contains(s: string, sub: string)
    decreases |s|
  {
    StartsWith(s, sub) || (|s| > 0 && Contains(s[1..], sub))
  }

  lemma {:induction false} ContainsInside(pre: string, sub: string, post: string)
    ensures Contains(pre + sub + post, sub)
  {
    var s := pre + sub + post;
    if |pre| == 0 {
      assert s == sub + post;
      assert s[..|sub|] == sub;
    } else {
      assert s[1..] == pre[1..] + sub + post;
      ContainsInside(pre[1..], sub, post);
    }
  }

  /** The position of the first `c` in `s`. */
  function FirstIndex(s: string, c: char): (i: nat)
    requires c in s
    ensures i < |s| && s[i] == c && c !in s[..i]
  {
    if s[0] == c then 0
    else
      var j := FirstIndex(s[1..], c);
      assert s[..j + 1] == [s[0]] + s[1..][..j];
      j + 1
  }

  /** The first `c` in `a + [c] + b` is the one after `a` when `a` has none. */
  lemma {:induction false} FirstIndexAfterFree(a: string, c: char, b: string)
    requires c !in a
    ensures c in a + [c] + b && FirstIndex(a + [c] + b, c) == |a|
  {
    var s := a + [c] + b;
    assert s[|a|] == c;
    if |a| > 0 {
      assert s[1..] == a[1..] + [c] + b;
      FirstIndexAfterFree(a[1..], c, b);
    }
  }

  predicate IsDigit(ch: char)
  {
    '0' <= ch <= '9'
  }

  predicate AllDigits(s: string)
  {
    forall i :: 0 <= i < |s| ==> IsDigit(s[i])
  }

  function DigitValue(ch: char): nat
    requires IsDigit(ch)
  {
    ch as int - '0' as int
  }

  function DigitChar(d: nat): (ch: char)
    requires d < 10
    ensures IsDigit(ch) && DigitValue(ch) == d
  {
    ('0' as int + d) as char
  }

  /** The decimal digits of `n`, most significant first, without leading zeros
      (Python's `str(n)` and JavaScript's `String(n)` for a non-negative integer). */
  function NatToString(n: nat): (r: string)
    ensures |r| >= 1 && AllDigits(r)
    ensures r[0] == '0' ==> n == 0
    decreases n
  {
    if n < 10 then [DigitChar(n)] else NatToString(n / 10) + [DigitChar(n % 10)]
  }

  /** The decimal rendering of any integer, with a leading minus sign when negative. */
  function IntToString(i: int): string
  {
    if i < 0 then "-" + NatToString(-i) else NatToString(i)
  }

  /** The number a string of decimal digits denotes. */
  function DigitsValue(s: string): nat
    requires AllDigits(s)
  {
    if |s| == 0 then 0 else DigitsValue(s[..|s| - 1]) * 10 + DigitValue(s[|s| - 1])
  }

  lemma {:induction false} DigitsValueOfNatToString(n: nat)
    ensures DigitsValue(NatToString(n)) == n
  {
    if n >= 10 {
      var s := NatToString(n);
      assert s[..|s| - 1] == NatToString(n / 10);
      DigitsValueOfNatToString(n / 10);
    }
  }

  function Pow10(k: nat): (p: nat)
    ensures p >= 1
  {
    if k == 0 then 1 else 10 * Pow10(k - 1)
  }

  /** A number with exactly `k` decimal digits renders as `k` characters. */
  lemma {:induction false} NatToStringLength(n: nat, k: nat)
    requires k >= 1 && n < Pow10(k)
    requires k > 1 ==> Pow10(k - 1) <= n
    ensures |NatToString(n)| == k
  {
    if k > 1 {
      assert Pow10(k) == 10 * Pow10(k - 1);
      if k > 2 {
        assert Pow10(k - 1) == 10 * Pow10(k - 2);
      }
      assert n >= 10;
      NatToStringLength(n / 10, k - 1);
    }
  }
}
