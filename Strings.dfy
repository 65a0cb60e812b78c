/**
 * The JavaScript string primitives the invoice tool relies on: `trim`, `split` on one
 * character, `join`, `includes`, ASCII `toLowerCase`, `padStart`, `String(n)` for a
 * natural number and `parseInt(digits, 10)`.
 */
module Strings {

  // ---------------------------------------------------------------------------
  // Decimal digits
  // ---------------------------------------------------------------------------

  predicate IsDigit(c: char) { '0' <= c <= '9' }

  predicate AllDigits(s: string) { forall i :: 0 <= i < |s| ==> IsDigit(s[i]) }

  function DigitValue(c: char): (d: nat)
    requires IsDigit(c)
    ensures d < 10
  {
    (c as int) - ('0' as int)
  }

  function DigitChar(d: nat): (c: char)
    requires d < 10
    ensures IsDigit(c) && DigitValue(c) == d
  {
    (('0' as int) + d) as char
  }

  function Pow10(k: nat): (p: nat)
    ensures p >= 1
  {
    if k == 0 then 1 else 10 * Pow10(k - 1)
  }

  /** `parseInt(s, 10)` of a string made only of decimal digits: leading zeros count for nothing. */
  function DecimalValue(s: string): nat
    requires AllDigits(s)
  {
    if s == [] then 0 else DecimalValue(s[..|s| - 1]) * 10 + DigitValue(s[|s| - 1])
  }

  /** `String(n)` for a natural number: its decimal digits, without leading zeros. */
  function NatToString(n: nat): (r: string)
    ensures |r| >= 1 && AllDigits(r)
    ensures |r| > 1 ==> r[0] != '0'
  {
    if n < 10 then [DigitChar(n)] else NatToString(n / 10) + [DigitChar(n % 10)]
  }

  lemma {:induction false} NatToStringValue(n: nat)
    ensures DecimalValue(NatToString(n)) == n
  {
    if n >= 10 {
      var r := NatToString(n);
      assert r[..|r| - 1] == NatToString(n / 10);
      NatToStringValue(n / 10);
    }
  }

  /** Fewer than `Pow10(k)` iff at most `k` digits: the width `String(n)` takes. */
  lemma {:induction false} NatToStringLength(n: nat, k: nat)
    ensures |NatToString(n)| <= k <==> (k >= 1 && n < Pow10(k))
  {
    if n >= 10 && k >= 1 {
      NatToStringLength(n / 10, k - 1);
    }
  }

  lemma {:induction false} DecimalValueConcat(a: string, b: string)
    requires AllDigits(a) && AllDigits(b)
    ensures AllDigits(a + b)
    ensures DecimalValue(a + b) == DecimalValue(a) * Pow10(|b|) + DecimalValue(b)
  {
    assert AllDigits(a + b) by {
      forall i | 0 <= i < |a + b| ensures IsDigit((a + b)[i]) {
        if i < |a| { assert (a + b)[i] == a[i]; } else { assert (a + b)[i] == b[i - |a|]; }
      }
    }
    if b == [] {
      assert a + b == a;
    } else {
      var b' := b[..|b| - 1];
      var d := DigitValue(b[|b| - 1]);
      assert (a + b)[..|a + b| - 1] == a + b';
      assert (a + b)[|a + b| - 1] == b[|b| - 1];
      DecimalValueConcat(a, b');
      var x, p, y := DecimalValue(a), Pow10(|b'|), DecimalValue(b');
      assert DecimalValue(a + b) == DecimalValue(a + b') * 10 + d;
      assert DecimalValue(b) == y * 10 + d;
      assert Pow10(|b|) == p * 10;
      ShiftDigit(x, p, y, d);
    }
  }

  lemma ShiftDigit(x: int, p: int, y: int, d: int)
    ensures (x * p + y) * 10 + d == x * (p * 10) + (y * 10 + d)
  {
  }

  lemma {:induction false} ZerosValue(k: nat)
    ensures AllDigits(seq(k, _ => '0')) && DecimalValue(seq(k, _ => '0')) == 0
  {
    if k > 0 {
      var z := seq(k, _ => '0');
      assert z[..k - 1] == seq(k - 1, _ => '0');
      ZerosValue(k - 1);
    }
  }

  // ---------------------------------------------------------------------------
  // padStart
  // ---------------------------------------------------------------------------

  /** `s.padStart(width, fill)`: never truncates; fills on the left up to `width`. */
  function PadStart(s: string, width: nat, fill: char): (r: string)
    ensures |r| == if |s| >= width then |s| else width
    ensures r[|r| - |s|..] == s
    ensures forall i :: 0 <= i < |r| - |s| ==> r[i] == fill
  {
    if |s| >= width then s else seq(width - |s|, _ => fill) + s
  }

  /** Zero padding keeps the digits and their value: `parseInt` undoes `padStart(_, '0')`. */
  lemma ZeroPadValue(s: string, width: nat)
    requires AllDigits(s)
    ensures AllDigits(PadStart(s, width, '0'))
    ensures DecimalValue(PadStart(s, width, '0')) == DecimalValue(s)
  {
    if |s| < width {
      var z := seq(width - |s|, _ => '0');
      ZerosValue(width - |s|);
      DecimalValueConcat(z, s);
    }
  }

  // ---------------------------------------------------------------------------
  // Whitespace and trim
  // ---------------------------------------------------------------------------

  /** The characters `String.prototype.trim` removes (white space and line terminators). */
  predicate IsSpace(c: char) {
    c == ' ' || c == '\t' || c == '\n' || c == '\r' || c == '\U{000B}' || c == '\U{000C}'
    || c == '\U{00A0}' || c == '\U{FEFF}' || c == '\U{1680}' || ('\U{2000}' <= c <= '\U{200A}')
    || c == '\U{2028}' || c == '\U{2029}' || c == '\U{202F}' || c == '\U{205F}' || c == '\U{3000}'
  }

  predicate AllSpace(s: string) { forall i :: 0 <= i < |s| ==> IsSpace(s[i]) }

  function TrimStart(s: string): (r: string)
    ensures |r| <= |s| && r == s[|s| - |r|..]
    ensures AllSpace(s[..|s| - |r|])
    ensures r == [] || !IsSpace(r[0])
  {
    if s != [] && IsSpace(s[0]) then TrimStart(s[1..]) else s
  }

  function TrimEnd(s: string): (r: string)
    ensures |r| <= |s| && r == s[..|r|]
    ensures AllSpace(s[|r|..])
    ensures r == [] || !IsSpace(r[|r| - 1])
  {
    if s != [] && IsSpace(s[|s| - 1]) then TrimEnd(s[..|s| - 1]) else s
  }

  /** `s.trim()`. */
  function Trim(s: string): (r: string)
    ensures r == [] || (!IsSpace(r[0]) && !IsSpace(r[|r| - 1]))
  {
    TrimEnd(TrimStart(s))
  }

  /** The trimmed text is empty exactly when every character was white space. */
  lemma TrimEmpty(s: string)
    ensures Trim(s) == [] <==> AllSpace(s)
  {
    var t := TrimStart(s);
    if Trim(s) == [] {
      assert s == s[..|s| - |t|] + t;
      assert t == t[..0] + t[0..];
    }
  }

  lemma {:induction false} TrimStartNoop(s: string)
    requires s == [] || !IsSpace(s[0])
    ensures TrimStart(s) == s
  {
  }

  /** Trimming twice is trimming once. */
  lemma TrimIdempotent(s: string)
    ensures Trim(Trim(s)) == Trim(s)
  {
    var t := Trim(s);
    TrimStartNoop(t);
  }

  // ---------------------------------------------------------------------------
  // split and join on one character
  // ---------------------------------------------------------------------------

  /** `s.split(sep)` for a one-character separator: always at least one part. */
  function Split(s: string, sep: char): (parts: seq<string>)
    ensures |parts| >= 1
    ensures forall k :: 0 <= k < |parts| ==> sep !in parts[k]
  {
    if s == [] then [""]
    else
      var rest := Split(s[1..], sep);
      if s[0] == sep then [""] + rest else [[s[0]] + rest[0]] + rest[1..]
  }

  /** `parts.join(sep)`. */
  function Join(parts: seq<string>, sep: string): string
  {
    if parts == [] then "" else if |parts| == 1 then parts[0] else parts[0] + sep + Join(parts[1..], sep)
  }

  /** Splitting and joining back with the same separator gives the text back. */
  lemma {:induction false} JoinSplit(s: string, sep: char)
    ensures Join(Split(s, sep), [sep]) == s
  {
    if s != [] {
      var rest := Split(s[1..], sep);
      JoinSplit(s[1..], sep);
      if s[0] == sep {
        assert Split(s, sep)[1..] == rest;
      } else {
        var parts := Split(s, sep);
        assert parts[1..] == rest[1..];
        if |rest| == 1 {
          assert parts == [[s[0]] + rest[0]];
        } else {
          assert Join(rest, [sep]) == rest[0] + [sep] + Join(rest[1..], [sep]);
          assert Join(parts, [sep]) == [s[0]] + rest[0] + [sep] + Join(rest[1..], [sep]);
        }
      }
    }
  }

  /** A text without the separator is one part. */
  lemma {:induction false} SplitNoSeparator(s: string, sep: char)
    requires sep !in s
    ensures Split(s, sep) == [s]
  {
    if s != [] {
      SplitNoSeparator(s[1..], sep);
      assert [s[0]] + s[1..] == s;
    }
  }

  // ---------------------------------------------------------------------------
  // includes and toLowerCase
  // ---------------------------------------------------------------------------

  predicate IsPrefix(p: string, s: string) { |p| <= |s| && s[..|p|] == p }

  /** `sub` occurs in `s` starting at index `i`. */
  predicate OccursAt(s: string, sub: string, i: int) { 0 <= i && i + |sub| <= |s| && s[i..i + |sub|] == sub }

  lemma OccursStep(s: string, sub: string)
    requires s != []
    ensures (exists i :: OccursAt(s, sub, i)) <==> (IsPrefix(sub, s) || exists i :: OccursAt(s[1..], sub, i))
  {
    if i :| OccursAt(s, sub, i) {
      if i > 0 {
        assert s[1..][i - 1..i - 1 + |sub|] == s[i..i + |sub|];
        assert OccursAt(s[1..], sub, i - 1);
      }
    }
    if i :| OccursAt(s[1..], sub, i) {
      assert s[i + 1..i + 1 + |sub|] == s[1..][i..i + |sub|];
      assert OccursAt(s, sub, i + 1);
    }
    if IsPrefix(sub, s) {
      assert OccursAt(s, sub, 0);
    }
  }

  /** `s.includes(sub)`. */
  function Contains(s: string, sub: string): (b: bool)
    ensures b <==> exists i :: OccursAt(s, sub, i)
  {
    if s == [] then
      assert IsPrefix(sub, s) ==> OccursAt(s, sub, 0);
      IsPrefix(sub, s)
    else
      OccursStep(s, sub);
      IsPrefix(sub, s) || Contains(s[1..], sub)
  }

  function LowerChar(c: char): char
  {
    if 'A' <= c <= 'Z' then ((c as int) + 32) as char else c
  }

  /** `s.toLowerCase()` on the ASCII letters. */
  function ToLower(s: string): (r: string)
    ensures |r| == |s| && forall i :: 0 <= i < |s| ==> r[i] == LowerChar(s[i])
  {
    seq(|s|, i requires 0 <= i < |s| => LowerChar(s[i]))
  }

  // ---------------------------------------------------------------------------
  // Prefixes of bounded length
  // ---------------------------------------------------------------------------

  /** `s.substring(0, n)` (and `list.slice(0, n)`): the first `n` elements, or all when fewer. */
  function Take<T>(s: seq<T>, n: nat): (r: seq<T>)
    ensures |r| == if |s| < n then |s| else n
    ensures r == s[..|r|]
  {
    if |s| < n then s else s[..n]
  }
}
