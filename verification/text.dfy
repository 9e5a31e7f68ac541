/** String operations the pages use: JavaScript's `toLowerCase`, `includes`,
    `String(n)`, `padStart`, `split(c)[0]` and `slice(0, n)`, over `seq<char>`. */
module Text {

  /** Lower-cases one character (ASCII letters only, see README). */
  function LowerChar(c: char): char
  {
    if 'A' <= c <= 'Z' then (c as int + 32) as char else c
  }

  /** `s.toLowerCase()`: the same length, each character lower-cased. */
  function Lower(s: string): (r: string)
    ensures |r| == |s|
    ensures forall i :: 0 <= i < |s| ==> r[i] == LowerChar(s[i])
    decreases |s|
  {
    if |s| == 0 then "" else [LowerChar(s[0])] + Lower(s[1..])
  }

  /** `p` is a prefix of `s`. */
  predicate IsPrefix(p: string, s: string)
  {
    |p| <= |s| && s[..|p|] == p
  }

  /** `hay.includes(needle)`: some suffix of `hay` starts with `needle`. */
  predicate Contains(hay: string, needle: string)
    decreases |hay|
  {
    IsPrefix(needle, hay) || (|hay| > 0 && Contains(hay[1..], needle))
  }

  /** `Contains` agrees with the positional reading: `needle` occurs at some offset. */
  lemma {:induction false} ContainsAt(hay: string, needle: string)
    ensures Contains(hay, needle) <==>
      exists k :: 0 <= k <= |hay| - |needle| && IsPrefix(needle, hay[k..])
    decreases |hay|
  {
    if Contains(hay, needle) {
      if IsPrefix(needle, hay) {
        assert hay[0..] == hay;
      } else {
        ContainsAt(hay[1..], needle);
        var k :| 0 <= k <= |hay[1..]| - |needle| && IsPrefix(needle, hay[1..][k..]);
        assert hay[1..][k..] == hay[k + 1..];
      }
    }
    if exists k :: 0 <= k <= |hay| - |needle| && IsPrefix(needle, hay[k..]) {
      var k :| 0 <= k <= |hay| - |needle| && IsPrefix(needle, hay[k..]);
      if k == 0 {
        assert hay[0..] == hay;
      } else {
        assert hay[1..][k - 1..] == hay[k..];
        ContainsAt(hay[1..], needle);
      }
    }
  }

  /** The empty string occurs in every string. */
  lemma ContainsEmpty(hay: string)
    ensures Contains(hay, "")
  {
    assert IsPrefix("", hay);
  }

  /** An occurrence of an occurrence is an occurrence. */
  lemma {:induction false} ContainsTransitive(a: string, b: string, c: string)
    requires Contains(b, a)
    requires Contains(c, b)
    ensures Contains(c, a)
    decreases |c|
  {
    if IsPrefix(b, c) {
      PrefixContains(a, b, c);
    } else {
      ContainsTransitive(a, b, c[1..]);
    }
  }

  /** If `b` is a prefix of `c`, whatever occurs in `b` occurs in `c`. */
  lemma {:induction false} PrefixContains(a: string, b: string, c: string)
    requires Contains(b, a)
    requires IsPrefix(b, c)
    ensures Contains(c, a)
    decreases |b|
  {
    if IsPrefix(a, b) {
      assert c[..|a|] == b[..|a|];
    } else {
      assert |b| > 0;
      assert IsPrefix(b[1..], c[1..]) by {
        assert c[1..][..|b| - 1] == c[..|b|][1..];
      }
      PrefixContains(a, b[1..], c[1..]);
    }
  }

  /** Lower-casing both sides preserves an occurrence. */
  lemma {:induction false} LowerContains(hay: string, needle: string)
    requires Contains(hay, needle)
    ensures Contains(Lower(hay), Lower(needle))
    decreases |hay|
  {
    if IsPrefix(needle, hay) {
      assert Lower(hay)[..|needle|] == Lower(needle);
    } else {
      LowerContains(hay[1..], needle);
      assert Lower(hay)[1..] == Lower(hay[1..]);
    }
  }

  /** A character is one of `0`..`9`. */
  predicate IsDigit(c: char)
  {
    '0' <= c <= '9'
  }

  function DigitChar(d: nat): char
    requires d < 10
  {
    ('0' as int + d) as char
  }

  function DigitValue(c: char): nat
    requires IsDigit(c)
  {
    c as int - '0' as int
  }

  /** `String(n)` for a natural number: its decimal digits, no leading zero. */
  function NatToString(n: nat): (r: string)
    ensures |r| >= 1
    ensures forall i :: 0 <= i < |r| ==> IsDigit(r[i])
    ensures |r| > 1 ==> r[0] != '0'
    decreases n
  {
    if n < 10 then [DigitChar(n)] else NatToString(n / 10) + [DigitChar(n % 10)]
  }

  /** Reads a string of decimal digits back as a number. */
  function ParseDigits(s: string): nat
    requires forall i :: 0 <= i < |s| ==> IsDigit(s[i])
    decreases |s|
  {
    if |s| == 0 then 0 else ParseDigits(s[..|s| - 1]) * 10 + DigitValue(s[|s| - 1])
  }

  /** Reading back what `NatToString` wrote gives the number. */
  lemma {:induction false} ParseNatToString(n: nat)
    ensures ParseDigits(NatToString(n)) == n
    decreases n
  {
    if n >= 10 {
      var s := NatToString(n);
      assert s[..|s| - 1] == NatToString(n / 10);
      ParseNatToString(n / 10);
    }
  }

  /** Leading zeros do not change the value of a digit string. */
  lemma {:induction false} ParseLeadingZeros(z: string, s: string)
    requires forall i :: 0 <= i < |z| ==> z[i] == '0'
    requires forall i :: 0 <= i < |s| ==> IsDigit(s[i])
    ensures forall i :: 0 <= i < |z + s| ==> IsDigit((z + s)[i])
    ensures ParseDigits(z + s) == ParseDigits(s)
    decreases |s|, |z|
  {
    var t := z + s;
    if |s| > 0 {
      assert t[..|t| - 1] == z + s[..|s| - 1];
      ParseLeadingZeros(z, s[..|s| - 1]);
    } else if |z| > 0 {
      assert t == z;
      assert t[..|t| - 1] == z[..|z| - 1] + "";
      ParseLeadingZeros(z[..|z| - 1], "");
    }
  }

  /** Numbers from 100 to 999 print as exactly three digits. */
  lemma ThreeDigits(n: nat)
    requires 100 <= n <= 999
    ensures |NatToString(n)| == 3
  {
    assert NatToString(n) == NatToString(n / 10) + [DigitChar(n % 10)];
    assert NatToString(n / 10) == NatToString(n / 100) + [DigitChar(n / 10 % 10)];
  }

  /** Numbers below 1000 print with at most three digits. */
  lemma AtMostThreeDigits(n: nat)
    requires n < 1000
    ensures |NatToString(n)| <= 3
  {
    if n >= 10 {
      assert NatToString(n) == NatToString(n / 10) + [DigitChar(n % 10)];
      if n >= 100 {
        assert NatToString(n / 10) == NatToString(n / 100) + [DigitChar(n / 10 % 10)];
      }
    }
  }

  /** `n` copies of `c`. */
  function Repeat(c: char, n: nat): (r: string)
    ensures |r| == n
    ensures forall i :: 0 <= i < n ==> r[i] == c
  {
    seq(n, _ => c)
  }

  /** `s.padStart(width, c)` for a one-character fill. */
  function PadStart(s: string, width: nat, c: char): (r: string)
    ensures |r| == if |s| < width then width else |s|
    ensures exists z :: r == z + s && forall i :: 0 <= i < |z| ==> z[i] == c
  {
    if |s| < width then
      var z := Repeat(c, width - |s|);
      assert z + s == z + s;
      z + s
    else
      assert s == "" + s;
      s
  }

  /** `s.split(c)[0]`: everything before the first `c`, or all of `s`. */
  function Before(s: string, c: char): (r: string)
    ensures IsPrefix(r, s)
    ensures c !in r
    ensures |r| < |s| ==> s[|r|] == c
    decreases |s|
  {
    if |s| == 0 then ""
    else if s[0] == c then ""
    else [s[0]] + Before(s[1..], c)
  }

  /** Cutting at the first `c` is taking the first part of the split. */
  lemma {:induction false} BeforeIsFirstPart(s: string, c: char)
    ensures Before(s, c) == Split(s, c)[0]
    decreases |s|
  {
    if |s| > 0 && s[0] != c {
      BeforeIsFirstPart(s[1..], c);
    }
  }

  /** `s.replace(/from/g, to)` for single characters. */
  function ReplaceAll(s: string, from: char, to: char): (r: string)
    ensures |r| == |s|
    ensures forall i :: 0 <= i < |s| ==> r[i] == if s[i] == from then to else s[i]
    decreases |s|
  {
    if |s| == 0 then "" else [if s[0] == from then to else s[0]] + ReplaceAll(s[1..], from, to)
  }

  /** `s.split(c)`: the pieces between the separators, one more than there are separators. */
  function Split(s: string, c: char): (parts: seq<string>)
    ensures |parts| >= 1
    ensures forall i :: 0 <= i < |parts| ==> c !in parts[i]
    decreases |s|
  {
    if |s| == 0 then [""]
    else if s[0] == c then [""] + Split(s[1..], c)
    else
      var rest := Split(s[1..], c);
      [[s[0]] + rest[0]] + rest[1..]
  }

  /** `parts.join(c)`. */
  function Join(parts: seq<string>, c: char): string
    requires |parts| >= 1
    decreases |parts|
  {
    if |parts| == 1 then parts[0] else parts[0] + [c] + Join(parts[1..], c)
  }

  /** Joining the pieces of a split gives back the string. */
  lemma {:induction false} JoinSplit(s: string, c: char)
    ensures Join(Split(s, c), c) == s
    decreases |s|
  {
    if |s| > 0 {
      JoinSplit(s[1..], c);
      var rest := Split(s[1..], c);
      if s[0] == c {
        assert Split(s, c)[1..] == rest;
      } else {
        var parts := Split(s, c);
        assert parts[1..] == rest[1..];
        if |rest| > 1 {
          assert Join(rest, c) == rest[0] + [c] + Join(rest[1..], c);
        }
      }
    }
  }

  /** Splitting at a separator splits the two sides independently. */
  lemma {:induction false} SplitAround(a: string, b: string, c: char)
    ensures Split(a + [c] + b, c) == Split(a, c) + Split(b, c)
    decreases |a|
  {
    var s := a + [c] + b;
    if |a| == 0 {
      assert s[1..] == b;
    } else {
      assert s[1..] == a[1..] + [c] + b;
      SplitAround(a[1..], b, c);
    }
  }
}
