/** Text helpers shared by the reader, the printer and the transpiler: JavaScript's
    `Array.prototype.join`, `String.prototype.split` with a one-character separator,
    and decimal numerals. */
module Strings {

  /** `parts.join(sep)`. */
  function Join(parts: seq<string>, sep: string): string
  {
    if |parts| == 0 then ""
    else if |parts| == 1 then parts[0]
    else parts[0] + sep + Join(parts[1..], sep)
  }

  /** `s.split(c)`: the maximal runs between occurrences of `c`, empty runs included. */
  function Split(s: string, c: char): (r: seq<string>)
    ensures |r| >= 1
    ensures forall k :: 0 <= k < |r| ==> c !in r[k]
  {
    if s == [] then [""]
    else if s[0] == c then [""] + Split(s[1..], c)
    else
      var rest := Split(s[1..], c);
      [[s[0]] + rest[0]] + rest[1..]
  }

  /** A separator that occurs in the text splits it into at least two segments. */
  lemma {:induction false} SplitAtLeastTwo(s: string, c: char)
    requires c in s
    ensures |Split(s, c)| >= 2
  {
    if s[0] != c {
      assert c in s[1..];
      SplitAtLeastTwo(s[1..], c);
    }
  }

  /** Splitting the joined segments gives the segments back when none contains the separator. */
  lemma {:induction false} SplitJoin(parts: seq<string>, c: char)
    requires |parts| >= 1
    requires forall k :: 0 <= k < |parts| ==> c !in parts[k]
    ensures Split(Join(parts, [c]), c) == parts
  {
    if |parts| == 1 {
      SplitNoSeparator(parts[0], c);
    } else {
      SplitJoin(parts[1..], c);
      SplitPrefix(parts[0], Join(parts[1..], [c]), c);
      assert Join(parts, [c]) == parts[0] + [c] + Join(parts[1..], [c]);
    }
  }

  /** Joining the segments of a split with the separator gives the text back. */
  lemma {:induction false} JoinSplit(s: string, c: char)
    ensures Join(Split(s, c), [c]) == s
  {
    if s != [] {
      JoinSplit(s[1..], c);
      var rest := Split(s[1..], c);
      if s[0] != c {
        var r := [[s[0]] + rest[0]] + rest[1..];
        if |rest| == 1 {
          assert Join(r, [c]) == [s[0]] + rest[0];
        } else {
          assert r[1..] == rest[1..];
          assert Join(r, [c]) == [s[0]] + rest[0] + [c] + Join(rest[1..], [c]);
          assert Join(rest, [c]) == rest[0] + [c] + Join(rest[1..], [c]);
        }
        assert [s[0]] + s[1..] == s;
      } else {
        var r := [""] + rest;
        assert r[1..] == rest;
        assert [s[0]] + s[1..] == s;
      }
    }
  }

  lemma {:induction false} SplitNoSeparator(s: string, c: char)
    requires c !in s
    ensures Split(s, c) == [s]
  {
    if s != [] {
      assert c != s[0];
      SplitNoSeparator(s[1..], c);
      assert [s[0]] + s[1..] == s;
    }
  }

  lemma {:induction false} SplitPrefix(a: string, b: string, c: char)
    requires c !in a
    ensures Split(a + [c] + b, c) == [a] + Split(b, c)
  {
    if a == [] {
      assert a + [c] + b == [c] + b;
      assert ([c] + b)[1..] == b;
    } else {
      assert (a + [c] + b)[1..] == a[1..] + [c] + b;
      SplitPrefix(a[1..], b, c);
      assert [a[0]] + a[1..] == a;
    }
  }

  predicate IsDigit(c: char)
  {
    '0' <= c <= '9'
  }

  /** One or more decimal digits: `[0-9]+`. */
  predicate IsDigits(s: string)
  {
    |s| >= 1 && forall k :: 0 <= k < |s| ==> IsDigit(s[k])
  }

  function DigitValue(c: char): (d: nat)
    requires IsDigit(c)
    ensures d < 10
  {
    (c as int) - ('0' as int)
  }

  function DigitChar(d: nat): (c: char)
    requires d < 10
    ensures IsDigit(c) && DigitValue(c) == d
  {
    (('0' as int) + d) as char
  }

  /** The value of a run of decimal digits, most significant first. */
  function DecimalValue(s: string): nat
    requires forall k :: 0 <= k < |s| ==> IsDigit(s[k])
  {
    if s == [] then 0 else DecimalValue(s[..|s| - 1]) * 10 + DigitValue(s[|s| - 1])
  }

  /** `n.toString()` for a natural number. */
  function ShowNat(n: nat): (s: string)
    ensures IsDigits(s)
  {
    if n < 10 then [DigitChar(n)] else ShowNat(n / 10) + [DigitChar(n % 10)]
  }

  /** `n.toString()` for an integer: a leading `-` for negatives. */
  function ShowInt(n: int): (s: string)
    ensures n >= 0 ==> IsDigits(s)
    ensures n < 0 ==> |s| >= 2 && s[0] == '-' && IsDigits(s[1..])
  {
    if n < 0 then "-" + ShowNat(-n) else ShowNat(n)
  }

  /** Reading a printed natural number gives it back. */
  lemma {:induction false} DecimalValueShowNat(n: nat)
    ensures DecimalValue(ShowNat(n)) == n
  {
    if n >= 10 {
      DecimalValueShowNat(n / 10);
      var s := ShowNat(n / 10) + [DigitChar(n % 10)];
      assert s[..|s| - 1] == ShowNat(n / 10);
    }
  }
}
