/**
 * The pieces of Go's `strings` and `fmt` packages that the tool relies on,
 * over strings as sequences of characters.
 */
module Text {

  /** strings.HasPrefix */
  predicate HasPrefix(s: string, prefix: string) {
    |prefix| <= |s| && s[..|prefix|] == prefix
  }

  /** strings.HasSuffix */
  predicate HasSuffix(s: string, suffix: string) {
    |suffix| <= |s| && s[|s| - |suffix|..] == suffix
  }

  /** strings.Contains: `sub` occurs somewhere in `s` as a contiguous substring. */
  predicate Contains(s: string, sub: string) {
    exists i :: 0 <= i <= |s| && HasPrefix(s[i..], sub)
  }

  /** A string contains every piece it is made of. */
  lemma ContainsPiece(a: string, sub: string, b: string)
    ensures Contains(a + sub + b, sub)
  {
    assert (a + sub + b)[|a|..][..|sub|] == sub;
  }

  /** A string that contains `p + q` contains `p`. */
  lemma ContainsStart(s: string, p: string, q: string)
    requires Contains(s, p + q)
    ensures Contains(s, p)
  {
    var i :| 0 <= i <= |s| && HasPrefix(s[i..], p + q);
    assert s[i..][..|p|] == (p + q)[..|p|];
  }

  /** strings.TrimPrefix: drops `prefix` when `s` starts with it, otherwise returns `s`. */
  function TrimPrefix(s: string, prefix: string): (r: string)
    ensures HasPrefix(s, prefix) ==> prefix + r == s
    ensures !HasPrefix(s, prefix) ==> r == s
  {
    if HasPrefix(s, prefix) then s[|prefix|..] else s
  }

  /**
   * strings.Split(s, string(sep)): the pieces between consecutive separators;
   * there is always one more piece than there are separators, so "" gives [""].
   */
  function Split(s: string, sep: char): (r: seq<string>)
    ensures |r| >= 1
    ensures forall k :: 0 <= k < |r| ==> sep !in r[k]
    decreases |s|
  {
    if s == [] then [""]
    else
      var rest := Split(s[1..], sep);
      if s[0] == sep then [""] + rest
      else [[s[0]] + rest[0]] + rest[1..]
  }

  /** A string without the separator is a single piece. */
  lemma {:induction false} SplitWithoutSeparator(s: string, sep: char)
    requires sep !in s
    ensures Split(s, sep) == [s]
    decreases |s|
  {
    if s != [] {
      assert sep !in s[1..] && s[0] != sep;
      SplitWithoutSeparator(s[1..], sep);
      assert [s[0]] + s[1..] == s;
    }
  }

  /** Splitting at one separator splits the two sides independently. */
  lemma {:induction false} SplitAround(a: string, sep: char, b: string)
    ensures Split(a + [sep] + b, sep) == Split(a, sep) + Split(b, sep)
    decreases |a|
  {
    if a == [] {
      assert a + [sep] + b == [sep] + b;
      assert ([sep] + b)[1..] == b;
    } else {
      assert (a + [sep] + b)[1..] == a[1..] + [sep] + b;
      SplitAround(a[1..], sep, b);
    }
  }

  /** strings.Join: the parts with `sep` between consecutive ones; [] gives "". */
  function Join(parts: seq<string>, sep: string): (r: string)
    ensures parts == [] ==> r == ""
    ensures |parts| == 1 ==> r == parts[0]
  {
    if parts == [] then ""
    else if |parts| == 1 then parts[0]
    else parts[0] + sep + Join(parts[1..], sep)
  }

  /** Joining the pieces with the separator gives back the string. */
  lemma {:induction false} JoinSplit(s: string, sep: char)
    ensures Join(Split(s, sep), [sep]) == s
    decreases |s|
  {
    if s != [] {
      var rest := Split(s[1..], sep);
      JoinSplit(s[1..], sep);
      if s[0] != sep && |rest| > 1 {
        assert Join(rest, [sep]) == rest[0] + [sep] + Join(rest[1..], [sep]);
        assert ([s[0]] + rest[0]) + [sep] + Join(rest[1..], [sep]) == [s[0]] + (rest[0] + [sep] + Join(rest[1..], [sep]));
      }
      assert [s[0]] + s[1..] == s;
    }
  }

  /** Pieces without the separator, joined with it, split back into the same pieces. */
  lemma {:induction false} SplitJoin(parts: seq<string>, sep: char)
    requires |parts| >= 1 && forall k :: 0 <= k < |parts| ==> sep !in parts[k]
    ensures Split(Join(parts, [sep]), sep) == parts
    decreases |parts|
  {
    SplitWithoutSeparator(parts[0], sep);
    if |parts| > 1 {
      SplitJoin(parts[1..], sep);
      SplitAround(parts[0], sep, Join(parts[1..], [sep]));
      assert parts == [parts[0]] + parts[1..];
    }
  }

  /** fmt.Errorf("<context>: %w", err) */
  function Wrap(context: string, e: string): string {
    context + ": " + e
  }

  /** The decimal digit for 0 <= d < 10. */
  function Digit(d: nat): (c: char)
    requires d < 10
    ensures '0' <= c <= '9' && c as int - '0' as int == d
  {
    ['0', '1', '2', '3', '4', '5', '6', '7', '8', '9'][d]
  }

  predicate IsDigit(c: char) {
    '0' <= c <= '9'
  }

  /** The value of a string of decimal digits. */
  function DigitsValue(s: string): (v: nat)
    requires forall k :: 0 <= k < |s| ==> IsDigit(s[k])
  {
    if s == [] then 0
    else
      assert IsDigit(s[|s| - 1]);
      10 * DigitsValue(s[..|s| - 1]) + (s[|s| - 1] as int - '0' as int)
  }

  /** fmt's `%d` of a non-negative integer: its decimal digits without leading zeros. */
  function NatToString(n: nat): (r: string)
    ensures |r| >= 1
    ensures forall k :: 0 <= k < |r| ==> IsDigit(r[k])
    ensures DigitsValue(r) == n
    ensures |r| > 1 ==> r[0] != '0'
  {
    if n < 10 then [Digit(n)]
    else
      var r := NatToString(n / 10) + [Digit(n % 10)];
      assert r[..|r| - 1] == NatToString(n / 10);
      r
  }
}
