/**
 * The few `java.lang.String` / `Integer` operations the loader and its panels
 * rely on, written out over `seq<char>`. Only ASCII digits and ASCII letters
 * are treated specially (see README, "Left out").
 */
module JavaStrings {
  import opened Wrappers

  /** Java's 32-bit `int`. */
  const INT_MIN: int := -0x8000_0000
  const INT_MAX: int := 0x7fff_ffff
  type Int32 = x: int | INT_MIN <= x <= INT_MAX

  // ---------------------------------------------------------------- prefixes

  /** `s.startsWith(p)`: a plain character prefix, no separator logic. */
  predicate StartsWith(s: string, p: string) {
    |p| <= |s| && s[..|p|] == p
  }

  /** `s.endsWith(p)`. */
  predicate EndsWith(s: string, p: string) {
    |p| <= |s| && s[|s| - |p|..] == p
  }

  /** `s.replace(from, to)` for single characters, one character at a time from the front. */
  function ReplaceChar(s: string, from: char, to: char): (r: string)
    ensures |r| == |s|
    ensures forall i :: 0 <= i < |s| ==> r[i] == (if s[i] == from then to else s[i])
    ensures from != to ==> from !in r
  {
    if s == [] then []
    else [if s[0] == from then to else s[0]] + ReplaceChar(s[1..], from, to)
  }

  /** ASCII `toLowerCase` of one character. */
  function LowerChar(c: char): char {
    if 'A' <= c <= 'Z' then (c as int + 32) as char else c
  }

  /** `s.toLowerCase()`, restricted to ASCII letters: no upper-case letter is left. */
  function ToLower(s: string): (r: string)
    ensures |r| == |s|
    ensures forall i :: 0 <= i < |s| ==> r[i] == LowerChar(s[i])
    ensures forall i :: 0 <= i < |r| ==> !('A' <= r[i] <= 'Z')
  {
    if s == [] then [] else [LowerChar(s[0])] + ToLower(s[1..])
  }

  /** Lower-casing twice is lower-casing once. */
  lemma {:induction false} ToLowerIdempotent(s: string)
    ensures ToLower(ToLower(s)) == ToLower(s)
  {
    if s != [] {
      ToLowerIdempotent(s[1..]);
      assert ToLower(s)[1..] == ToLower(s[1..]);
    }
  }

  // ---------------------------------------------------------------- joining

  /** `String.join(sep, parts)` / `Collectors.joining(sep)`. */
  function Join(parts: seq<string>, sep: string): string {
    if parts == [] then ""
    else if |parts| == 1 then parts[0]
    else parts[0] + sep + Join(parts[1..], sep)
  }

  // ---------------------------------------------------------------- splitting

  /** Every piece between occurrences of `c`, including empty ones. */
  function SplitAll(s: string, c: char): (parts: seq<string>)
    ensures |parts| >= 1
  {
    if s == [] then [""]
    else
      var rest := SplitAll(s[1..], c);
      if s[0] == c then [""] + rest else [[s[0]] + rest[0]] + rest[1..]
  }

  /** Drops the empty strings at the end of `parts`. */
  function DropTrailingEmpty(parts: seq<string>): (r: seq<string>)
    ensures |r| <= |parts| && r == parts[..|r|]
    ensures r != [] ==> r[|r| - 1] != ""
    ensures forall i :: |r| <= i < |parts| ==> parts[i] == ""
  {
    if parts == [] then []
    else if parts[|parts| - 1] == "" then DropTrailingEmpty(parts[..|parts| - 1])
    else parts
  }

  /**
   * `s.split(String.valueOf(c))` with Java's default limit 0: when `c` does not
   * occur the whole string is the only piece; otherwise trailing empty pieces
   * are removed (so `" ".split(" ")` is empty and `"a  b"` keeps its middle "").
   */
  function JavaSplit(s: string, c: char): seq<string> {
    if c !in s then [s] else DropTrailingEmpty(SplitAll(s, c))
  }

  /** `count` copies of `c`. */
  function Repeat(c: char, count: nat): (r: string)
    ensures |r| == count && forall i :: 0 <= i < count ==> r[i] == c
  {
    seq(count, _ => c)
  }

  lemma {:induction false} SplitAllPiecesFree(s: string, c: char)
    ensures forall p :: p in SplitAll(s, c) ==> c !in p
  {
    if s != [] {
      SplitAllPiecesFree(s[1..], c);
    }
  }

  lemma {:induction false} SplitAllJoin(s: string, c: char)
    ensures Join(SplitAll(s, c), [c]) == s
  {
    if s != [] {
      var rest := SplitAll(s[1..], c);
      SplitAllJoin(s[1..], c);
      if s[0] == c {
        assert SplitAll(s, c) == [""] + rest;
        assert ([""] + rest)[1..] == rest;
      } else {
        var parts := [[s[0]] + rest[0]] + rest[1..];
        assert SplitAll(s, c) == parts;
        if |rest| == 1 {
          assert Join(rest, [c]) == rest[0];
        } else {
          assert Join(rest, [c]) == rest[0] + [c] + Join(rest[1..], [c]);
          assert parts[1..] == rest[1..];
        }
      }
    }
  }

  /** Joining `parts` followed by `k` empty pieces adds `k` separators. */
  lemma {:induction false} JoinTrailingEmpty(parts: seq<string>, k: nat, c: char)
    requires parts != []
    ensures Join(parts + seq(k, _ => ""), [c]) == Join(parts, [c]) + Repeat(c, k)
  {
    if |parts| == 1 {
      if k > 0 {
        var tail: seq<string> := seq(k, _ => "");
        assert (parts + tail)[1..] == tail;
        assert Join(parts + tail, [c]) == parts[0] + [c] + Join(tail, [c]);
        JoinEmpties(k, c);
      }
    } else {
      var tail: seq<string> := seq(k, _ => "");
      assert (parts + tail)[1..] == parts[1..] + tail;
      JoinTrailingEmpty(parts[1..], k, c);
    }
  }

  /** `k >= 1` empty pieces joined give `k - 1` separators. */
  lemma {:induction false} JoinEmpties(k: nat, c: char)
    requires k >= 1
    ensures Join(seq(k, _ => ""), [c]) == Repeat(c, k - 1)
  {
    if k > 1 {
      var tail: seq<string> := seq(k, _ => "");
      assert tail[1..] == seq(k - 1, _ => "");
      JoinEmpties(k - 1, c);
    }
  }

  /**
   * What `split` keeps: no piece contains the separator, and rejoining the
   * pieces gives the string back up to a run of trailing separators.
   */
  lemma JavaSplitReassembles(s: string, c: char)
    ensures forall p :: p in JavaSplit(s, c) ==> c !in p
    ensures exists k: nat :: s == Join(JavaSplit(s, c), [c]) + Repeat(c, k)
  {
    SplitAllPiecesFree(s, c);
    if c !in s {
      assert s == Join(JavaSplit(s, c), [c]) + Repeat(c, 0);
    } else {
      var all := SplitAll(s, c);
      var kept := DropTrailingEmpty(all);
      SplitAllJoin(s, c);
      var k := |all| - |kept|;
      assert all == kept + seq(k, _ => "");
      if kept == [] {
        JoinEmpties(|all|, c);
        assert s == Join(kept, [c]) + Repeat(c, k - 1);
      } else {
        JoinTrailingEmpty(kept, k, c);
        assert s == Join(kept, [c]) + Repeat(c, k);
      }
    }
  }

  // ---------------------------------------------------------------- integers

  predicate IsDigit(c: char) { '0' <= c <= '9' }

  predicate AllDigits(s: string) { forall i :: 0 <= i < |s| ==> IsDigit(s[i]) }

  function DigitChar(d: nat): (c: char)
    requires d < 10
    ensures IsDigit(c)
  {
    ('0' as int + d) as char
  }

  function DigitValue(c: char): (d: nat)
    requires IsDigit(c)
    ensures d < 10 && DigitChar(d) == c
  {
    c as int - '0' as int
  }

  /** The decimal value of a digit string, most significant digit first. */
  function DigitsValue(s: string): nat
    requires AllDigits(s)
  {
    if s == [] then 0 else DigitsValue(s[..|s| - 1]) * 10 + DigitValue(s[|s| - 1])
  }

  /** Shortest decimal form of `n` (`Integer.toString` for non-negative values). */
  function NatToString(n: nat): (r: string)
    ensures r != [] && AllDigits(r)
    ensures |r| > 1 ==> r[0] != '0'
  {
    if n < 10 then [DigitChar(n)] else NatToString(n / 10) + [DigitChar(n % 10)]
  }

  /** `Integer.toString(n)`: a minus sign only for negative values. */
  function IntToString(n: int): string {
    if n < 0 then "-" + NatToString(-n) else NatToString(n)
  }

  lemma {:induction false} NatToStringValue(n: nat)
    ensures DigitsValue(NatToString(n)) == n
  {
    if n >= 10 {
      var s := NatToString(n);
      NatToStringValue(n / 10);
      assert s[..|s| - 1] == NatToString(n / 10);
    }
  }

  /**
   * `Integer.parseInt(s)` / `Integer.valueOf(s)`: an optional sign followed by
   * at least one digit, with the value inside the 32-bit range; anything else
   * raises `NumberFormatException` (here `None`).
   */
  function ParseInt(s: string): (r: Option<Int32>)
    ensures r.Some? ==> s != [] && (s[0] == '-' || s[0] == '+' || IsDigit(s[0]))
  {
    if s == [] then None
    else if s[0] == '-' || s[0] == '+' then
      if |s| == 1 || !AllDigits(s[1..]) then None
      else
        var v: int := if s[0] == '-' then -(DigitsValue(s[1..]) as int) else DigitsValue(s[1..]);
        if INT_MIN <= v <= INT_MAX then Some(v) else None
    else if AllDigits(s) && DigitsValue(s) <= INT_MAX then Some(DigitsValue(s))
    else None
  }

  /** Printing a 32-bit value and parsing it back gives the value. */
  lemma IntToStringParses(n: Int32)
    ensures ParseInt(IntToString(n)) == Some(n)
  {
    if n < 0 {
      NegativeParses(n);
    } else {
      NatToStringValue(n);
      assert IsDigit(NatToString(n)[0]);
    }
  }

  lemma NegativeParses(n: Int32)
    requires n < 0
    ensures ParseInt(IntToString(n)) == Some(n)
  {
    var m: nat := -(n as int);
    var s := IntToString(n);
    NatToStringValue(m);
    assert s[1..] == NatToString(m);
    var v: int := -(DigitsValue(s[1..]) as int);
    assert v == n;
  }
}
