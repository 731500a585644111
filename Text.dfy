/**
 * Decimal printing and parsing, splitting and joining, as the two front ends use
 * them: JavaScript's `String(n)`, `padStart(2, '0')`, `split` and `Number`, and
 * Swift's string interpolation of integers, `Int(String)`, `split(separator:)`,
 * `components(separatedBy:)` and `joined(separator:)`.
 */
module Text {
  import opened Wrappers

  predicate IsDigit(c: char) {
    '0' <= c <= '9'
  }

  predicate AllDigits(s: string) {
    forall i :: 0 <= i < |s| ==> IsDigit(s[i])
  }

  function DigitChar(d: nat): (c: char)
    requires d < 10
    ensures IsDigit(c) && c as int - '0' as int == d
  {
    ('0' as int + d) as char
  }

  /** The decimal digits of `n` without leading zeros ("0" for zero). */
  function NatToString(n: nat): (s: string)
    ensures |s| >= 1 && AllDigits(s)
    ensures n < 10 <==> |s| == 1
    ensures n >= 10 ==> s[0] != '0'
  {
    if n < 10 then [DigitChar(n)] else NatToString(n / 10) + [DigitChar(n % 10)]
  }

  /** The value of a string of decimal digits (leading zeros allowed, "" is 0). */
  function DigitsValue(s: string): nat
    requires AllDigits(s)
  {
    if s == [] then 0 else DigitsValue(s[..|s| - 1]) * 10 + (s[|s| - 1] as int - '0' as int)
  }

  /** Printing a natural number and reading it back gives the number. */
  lemma {:induction false} NatToStringValue(n: nat)
    ensures DigitsValue(NatToString(n)) == n
  {
    if n >= 10 {
      var s := NatToString(n);
      assert s[..|s| - 1] == NatToString(n / 10);
      NatToStringValue(n / 10);
    }
  }

  /** A leading '0' does not change the value of a digit string. */
  lemma {:induction false} LeadingZeroValue(s: string)
    requires AllDigits(s)
    ensures AllDigits("0" + s) && DigitsValue("0" + s) == DigitsValue(s)
  {
    if s != [] {
      var t := "0" + s;
      assert t[..|t| - 1] == "0" + s[..|s| - 1];
      LeadingZeroValue(s[..|s| - 1]);
    }
  }

  /** `NatToString` is injective. */
  lemma NatToStringInjective(m: nat, n: nat)
    requires NatToString(m) == NatToString(n)
    ensures m == n
  {
    NatToStringValue(m);
    NatToStringValue(n);
  }

  /** Interpolating an integer, as Swift's "\(i)" and JavaScript's `String(i)` do. */
  function IntToString(i: int): (s: string)
    ensures |s| >= 1
    ensures i >= 0 <==> s[0] != '-'
  {
    if i < 0 then "-" + NatToString(-i) else NatToString(i)
  }

  /** JavaScript's `s.padStart(2, '0')`: zeros on the left up to length 2; longer strings unchanged. */
  function PadStart2(s: string): (r: string)
    ensures |r| == if |s| < 2 then 2 else |s|
    ensures r[|r| - |s|..] == s
    ensures forall i :: 0 <= i < |r| - |s| ==> r[i] == '0'
  {
    if |s| == 0 then "00" else if |s| == 1 then "0" + s else s
  }

  /** `String(n).padStart(2, '0')` for a natural number `n`. */
  function Pad2(n: nat): string {
    PadStart2(NatToString(n))
  }

  /** Two-digit padding has exactly two digits below 100 and reads back as `n`. */
  lemma Pad2Value(n: nat)
    ensures AllDigits(Pad2(n)) && DigitsValue(Pad2(n)) == n
    ensures n < 100 ==> |Pad2(n)| == 2
  {
    NatToStringValue(n);
    if n < 10 {
      LeadingZeroValue(NatToString(n));
    } else if n < 100 {
      assert NatToString(n) == NatToString(n / 10) + [DigitChar(n % 10)];
    }
  }

  /**
   * An optional '+' or '-' followed by at least one decimal digit, read as an
   * integer; anything else (empty, spaces, other characters) is None.
   */
  function SignedDigits(s: string): (r: Option<int>)
    ensures r.Some? ==> |s| >= 1
    ensures AllDigits(s) && s != "" ==> r == Some(DigitsValue(s))
  {
    if |s| >= 2 && (s[0] == '+' || s[0] == '-') && AllDigits(s[1..]) then
      var magnitude: int := DigitsValue(s[1..]);
      Some(if s[0] == '-' then -magnitude else magnitude)
    else if s != "" && AllDigits(s) then
      Some(DigitsValue(s))
    else
      None
  }

  /** Printed integers read back: `SignedDigits(IntToString(i)) == i`. */
  lemma SignedDigitsOfIntToString(i: int)
    ensures SignedDigits(IntToString(i)) == Some(i)
  {
    var s := IntToString(i);
    if i < 0 {
      var digits := NatToString(-i);
      assert s == "-" + digits && s[1..] == digits;
      NatToStringValue(-i);
      assert DigitsValue(digits) == -i;
    } else {
      assert s == NatToString(i) && IsDigit(s[0]);
      NatToStringValue(i);
    }
  }

  const IntMin := -0x8000_0000_0000_0000
  const IntMax := 0x7FFF_FFFF_FFFF_FFFF

  /** Swift's `Int(String)` on a 64-bit platform: signed digits whose value fits in `Int`, else nil. */
  function SwiftInt(s: string): (r: Option<int>)
    ensures r.Some? ==> IntMin <= r.value <= IntMax && SignedDigits(s) == r
  {
    var v := SignedDigits(s);
    if v.Some? && IntMin <= v.value <= IntMax then v else None
  }

  /** Swift reads back what it prints: `Int("\(i)") == i`. */
  lemma SwiftIntOfIntToString(i: int)
    requires IntMin <= i <= IntMax
    ensures SwiftInt(IntToString(i)) == Some(i)
  {
    SignedDigitsOfIntToString(i);
  }

  /** `Int(String)` of a zero-padded two-digit field. */
  lemma SwiftIntOfPad2(n: nat)
    requires n < 100
    ensures SwiftInt(Pad2(n)) == Some(n)
  {
    Pad2Value(n);
  }

  predicate IsJsSpace(c: char) {
    c == ' ' || c == '\t' || c == '\n' || c == '\r'
  }

  function TrimStart(s: string): (r: string)
    ensures |r| <= |s| && r == s[|s| - |r|..]
    ensures r != "" ==> !IsJsSpace(r[0])
  {
    if s != "" && IsJsSpace(s[0]) then TrimStart(s[1..]) else s
  }

  function TrimEnd(s: string): (r: string)
    ensures |r| <= |s| && r == s[..|r|]
    ensures r != "" ==> !IsJsSpace(r[|r| - 1])
  {
    if s != "" && IsJsSpace(s[|s| - 1]) then TrimEnd(s[..|s| - 1]) else s
  }

  /**
   * JavaScript's `Number(s)` on the strings this model distinguishes: surrounding
   * white space is ignored, the empty string is 0, an optional sign followed by
   * decimal digits is that integer, and anything else is NaN (None).
   */
  function JsNumber(s: string): Option<int> {
    var t := TrimEnd(TrimStart(s));
    if t == "" then Some(0) else SignedDigits(t)
  }

  /** A string with no surrounding space reads the same under `Number` as under `Int`. */
  lemma JsNumberOfDigits(s: string)
    requires s != "" && AllDigits(s)
    ensures JsNumber(s) == Some(DigitsValue(s))
  {
    assert TrimStart(s) == s;
    assert TrimEnd(s) == s;
  }

  /**
   * `s.split(sep)` for a one-character separator, as JavaScript and Swift's
   * `components(separatedBy:)` do it: empty pieces are kept.
   */
  function Split(s: string, sep: char): (parts: seq<string>)
    ensures |parts| >= 1
    ensures forall k :: 0 <= k < |parts| ==> sep !in parts[k]
  {
    if s == "" then [""]
    else
      var rest := Split(s[1..], sep);
      if s[0] == sep then [""] + rest else [[s[0]] + rest[0]] + rest[1..]
  }

  /** The pieces joined with the separator, as `joined(separator:)` and `join` do. */
  function Join(parts: seq<string>, sep: char): string {
    if parts == [] then ""
    else if |parts| == 1 then parts[0]
    else parts[0] + [sep] + Join(parts[1..], sep)
  }

  /** Splitting a joined string recovers the pieces when no piece holds the separator. */
  lemma {:induction false} SplitJoin(parts: seq<string>, sep: char)
    requires parts != []
    requires forall k :: 0 <= k < |parts| ==> sep !in parts[k]
    ensures Split(Join(parts, sep), sep) == parts
  {
    if |parts| == 1 {
      SplitNoSep(parts[0], sep);
    } else {
      SplitJoin(parts[1..], sep);
      SplitPrefix(parts[0], Join(parts[1..], sep), sep);
    }
  }

  /** A string without the separator splits into itself. */
  lemma {:induction false} SplitNoSep(s: string, sep: char)
    requires sep !in s
    ensures Split(s, sep) == [s]
  {
    if s != "" {
      assert s[0] in s && sep !in s[1..];
      SplitNoSep(s[1..], sep);
      assert [s[0]] + s[1..] == s;
    }
  }

  /** Splitting `a + [sep] + b` where `a` holds no separator. */
  lemma {:induction false} SplitPrefix(a: string, b: string, sep: char)
    requires sep !in a
    ensures Split(a + [sep] + b, sep) == [a] + Split(b, sep)
  {
    if a != "" {
      var t := a + [sep] + b;
      assert t[0] == a[0] && a[0] in a;
      assert t[1..] == a[1..] + [sep] + b;
      assert sep !in a[1..];
      SplitPrefix(a[1..], b, sep);
      assert [a[0]] + a[1..] == a;
    } else {
      assert a + [sep] + b == [sep] + b;
      assert ([sep] + b)[1..] == b;
    }
  }

  /** Joining the pieces of a split recovers the string. */
  lemma {:induction false} JoinSplit(s: string, sep: char)
    ensures Join(Split(s, sep), sep) == s
  {
    if s != "" {
      JoinSplit(s[1..], sep);
      var rest := Split(s[1..], sep);
      if s[0] != sep {
        if |rest| == 1 {
          assert Join([[s[0]] + rest[0]], sep) == [s[0]] + rest[0];
        } else {
          assert Join(rest, sep) == rest[0] + [sep] + Join(rest[1..], sep);
          assert ([[s[0]] + rest[0]] + rest[1..])[1..] == rest[1..];
        }
      } else {
        assert ([""] + rest)[1..] == rest;
      }
    }
  }

  /** The non-empty pieces, in order. */
  function NonEmpty(parts: seq<string>): (r: seq<string>)
    ensures |r| <= |parts|
    ensures forall k :: 0 <= k < |r| ==> r[k] != ""
  {
    if parts == [] then []
    else if parts[0] == "" then NonEmpty(parts[1..])
    else [parts[0]] + NonEmpty(parts[1..])
  }

  /** Swift's `split(separator:)`: like `Split`, but empty pieces are dropped. */
  function SplitOmittingEmpty(s: string, sep: char): seq<string> {
    NonEmpty(Split(s, sep))
  }

  /** The part of `s` before the first `sep` (all of `s` when there is none). */
  function Before(s: string, sep: char): (r: string)
    ensures sep !in r
    ensures r <= s
    ensures sep !in s ==> r == s
    ensures |r| < |s| ==> s[|r|] == sep
  {
    if s == "" || s[0] == sep then "" else [s[0]] + Before(s[1..], sep)
  }

  /** `components(separatedBy:).first` is the part before the first separator. */
  lemma {:induction false} FirstComponent(s: string, sep: char)
    ensures Split(s, sep)[0] == Before(s, sep)
  {
    if s != "" && s[0] != sep {
      FirstComponent(s[1..], sep);
    }
  }

  /** The part before the first separator of `a + [sep] + b` is `a` when `a` holds none. */
  lemma {:induction false} BeforePrefix(a: string, b: string, sep: char)
    requires sep !in a
    ensures Before(a + [sep] + b, sep) == a
  {
    if a != "" {
      var t := a + [sep] + b;
      assert t[0] == a[0] && a[0] in a;
      assert t[1..] == a[1..] + [sep] + b;
      assert sep !in a[1..];
      BeforePrefix(a[1..], b, sep);
      assert [a[0]] + a[1..] == a;
    }
  }

  /** The fields of `a + sep + b + sep + c` for two-character `a` and `b`, as a reader slices them. */
  lemma ThreeFields(a: string, b: string, c: string, sep: char)
    requires |a| == 2 && |b| == 2
    ensures var r := a + [sep] + b + [sep] + c;
      && |r| == 6 + |c| && r[2] == sep && r[5] == sep
      && r[0..2] == a && r[3..5] == b && r[6..] == c
  {
  }

  /** The two two-character fields around `sep` in `a + [sep] + b`. */
  lemma TwoFields(a: string, b: string, sep: char)
    requires |a| == 2 && |b| == 2
    ensures var r := a + [sep] + b;
      |r| == 5 && r[2] == sep && r[0..2] == a && r[3..5] == b
  {
  }

  /** The two padded numbers at the head of `Pad2(x) + sep + Pad2(y) + sep + c` read back as `x` and `y`. */
  lemma PaddedFields(x: nat, y: nat, c: string, sep: char)
    requires x < 100 && y < 100
    ensures var r := Pad2(x) + [sep] + Pad2(y) + [sep] + c;
      && |r| == 6 + |c| && r[2] == sep && r[5] == sep
      && AllDigits(r[0..2]) && DigitsValue(r[0..2]) == x
      && AllDigits(r[3..5]) && DigitsValue(r[3..5]) == y
      && r[6..] == c
  {
    Pad2Value(x);
    Pad2Value(y);
    ThreeFields(Pad2(x), Pad2(y), c, sep);
  }
}
