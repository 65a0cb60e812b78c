/**
 * Invoice numbers: "INV-" followed by the number zero-padded to at least four digits, as the
 * local counter of app.js writes them, and the server-side rule of src/database.js that
 * reads the newest invoice's number back and adds one.
 */
module Numbering {
  import opened Wrappers
  import opened Strings

  const Prefix: string := "INV-"

  /** What the server rule falls back to. */
  const FirstNumber: string := "INV-0001"

  /** `INV-${String(n).padStart(4, '0')}`. */
  function InvoiceNumber(n: nat): string
  {
    Prefix + PadStart(NatToString(n), 4, '0')
  }

  /** The run of digits at the start of `s`: what a greedy `\d+` takes. */
  function DigitRun(s: string): (r: string)
    ensures AllDigits(r) && IsPrefix(r, s)
    ensures |r| < |s| ==> !IsDigit(s[|r|])
  {
    if s != [] && IsDigit(s[0]) then [s[0]] + DigitRun(s[1..]) else []
  }

  /** `/INV-(\d+)/` can match at `i`: "INV-" there, followed by at least one digit. */
  predicate MatchesAt(s: string, i: nat)
  {
    OccursAt(s, Prefix, i) && i + 4 < |s| && IsDigit(s[i + 4])
  }

  /** The leftmost match position at or after `from`; the pattern is not anchored. */
  function FindMatch(s: string, from: nat): (r: Option<nat>)
    ensures r.Some? ==> from <= r.value && MatchesAt(s, r.value)
    ensures r.Some? ==> forall j :: from <= j < r.value ==> !MatchesAt(s, j)
    ensures r.None? ==> forall j :: from <= j ==> !MatchesAt(s, j)
    decreases |s| - from
  {
    if from + 4 >= |s| then None
    else if MatchesAt(s, from) then Some(from)
    else FindMatch(s, from + 1)
  }

  /** `parseInt(match[1], 10)` for the leftmost match, when there is one. */
  function MatchedNumber(s: string): Option<nat>
  {
    match FindMatch(s, 0)
    case None => None
    case Some(i) => Some(DecimalValue(DigitRun(s[i + 4..])))
  }

  /**
   * What the query for the user's newest invoice returned: an error, or the invoice numbers
   * ordered by creation time, newest first (the query keeps only the first).
   */
  datatype Query = Failed | Found(newestFirst: seq<string>)

  /** `getNextInvoiceNumber`: refuses without a user, else reads the newest number and adds one. */
  function NextInvoiceNumber(signedIn: bool, q: Query): (r: Result<string>)
    ensures r.Err? <==> !signedIn
    ensures signedIn && (q.Failed? || q.newestFirst == []) ==> r == Ok(FirstNumber)
    ensures signedIn && q.Found? && q.newestFirst != [] && MatchedNumber(q.newestFirst[0]).Some? ==>
              r.Ok? && MatchedNumber(r.value) == Some(MatchedNumber(q.newestFirst[0]).value + 1)
  {
    if !signedIn then Err("Not authenticated")
    else
      match q
      case Failed => Ok(FirstNumber)
      case Found(ns) =>
        if ns == [] then Ok(FirstNumber)
        else
          match MatchedNumber(ns[0])
          case Some(n) => MatchedInvoiceNumber(n + 1); Ok(InvoiceNumber(n + 1))
          case None => Ok(FirstNumber)
  }

  // ---------------------------------------------------------------------------
  // Properties
  // ---------------------------------------------------------------------------

  lemma {:induction false} DigitRunAll(s: string)
    requires AllDigits(s)
    ensures DigitRun(s) == s
  {
    if s != [] {
      DigitRunAll(s[1..]);
      assert [s[0]] + s[1..] == s;
    }
  }

  /** The digits after "INV-": never fewer than four, never truncated, and worth `n`. */
  lemma InvoiceNumberDigits(n: nat)
    ensures var r, d := InvoiceNumber(n), PadStart(NatToString(n), 4, '0');
            r == Prefix + d && AllDigits(d) && DecimalValue(d) == n
            && |d| == (if |NatToString(n)| > 4 then |NatToString(n)| else 4)
            && (n < 10000 ==> |d| == 4)
  {
    ZeroPadValue(NatToString(n), 4);
    NatToStringValue(n);
    NatToStringLength(n, 4);
  }

  /** The server rule reads every number the counter writes back as that number. */
  lemma MatchedInvoiceNumber(n: nat)
    ensures MatchedNumber(InvoiceNumber(n)) == Some(n)
  {
    var s := InvoiceNumber(n);
    var d := PadStart(NatToString(n), 4, '0');
    InvoiceNumberDigits(n);
    assert s[0..4] == Prefix;
    assert s[4] == d[0];
    assert MatchesAt(s, 0);
    assert FindMatch(s, 0) == Some(0);
    assert s[4..] == d;
    DigitRunAll(d);
  }

  /** Distinct counters give distinct invoice numbers. */
  lemma InvoiceNumberInjective(m: nat, n: nat)
    requires InvoiceNumber(m) == InvoiceNumber(n)
    ensures m == n
  {
    MatchedInvoiceNumber(m);
    MatchedInvoiceNumber(n);
  }

  /** After an invoice numbered n, the next is numbered n + 1. */
  lemma NextAfter(n: nat, newestFirst: seq<string>)
    requires newestFirst != [] && newestFirst[0] == InvoiceNumber(n)
    ensures NextInvoiceNumber(true, Found(newestFirst)) == Ok(InvoiceNumber(n + 1))
  {
    MatchedInvoiceNumber(n);
  }

  /** Without a user nothing is derived; without a usable number the result is INV-0001. */
  lemma Fallbacks(q: Query, latest: string, older: seq<string>)
    ensures NextInvoiceNumber(false, q).Err?
    ensures NextInvoiceNumber(true, Failed) == Ok(FirstNumber)
    ensures NextInvoiceNumber(true, Found([])) == Ok(FirstNumber)
    ensures MatchedNumber(latest).None? ==> NextInvoiceNumber(true, Found([latest] + older)) == Ok(FirstNumber)
  {
    assert ([latest] + older)[0] == latest;
  }

  /** The numbers the examples below use, written out. */
  lemma SmallNumbers()
    ensures InvoiceNumber(5) == "INV-0005" && InvoiceNumber(6) == "INV-0006"
    ensures InvoiceNumber(42) == "INV-0042" && InvoiceNumber(43) == "INV-0043"
  {
    assert NatToString(42) == "42" && NatToString(43) == "43";
  }

  lemma LargeNumbers()
    ensures InvoiceNumber(9999) == "INV-9999" && InvoiceNumber(10000) == "INV-10000"
  {
    assert 9999 / 10 == 999 && 999 / 10 == 99 && 99 / 10 == 9;
    assert NatToString(99) == "99";
    assert NatToString(999) == "999";
    assert NatToString(9999) == "9999";
    assert PadStart("9999", 4, '0') == "9999";
  }

  /** INV-0042 is followed by INV-0043. */
  lemma ExampleNext()
    ensures NextInvoiceNumber(true, Found(["INV-0042"])) == Ok("INV-0043")
  {
    SmallNumbers();
    NextAfter(42, ["INV-0042"]);
  }

  /** INV-9999 is followed by INV-10000: padding never truncates. */
  lemma ExampleWidening()
    ensures NextInvoiceNumber(true, Found(["INV-9999"])) == Ok("INV-10000")
  {
    LargeNumbers();
    NextAfter(9999, ["INV-9999"]);
  }

  /** Only the newest invoice counts, even when an older one carries a larger number. */
  lemma NewestNotLargest()
    ensures NextInvoiceNumber(true, Found(["INV-0005", "INV-0042"])) == Ok("INV-0006")
  {
    SmallNumbers();
    NextAfter(5, ["INV-0005", "INV-0042"]);
  }

  /** The leftmost position where the pattern matches decides the number. */
  lemma {:induction false} FirstMatch(s: string, i: nat)
    requires MatchesAt(s, i)
    requires forall j :: 0 <= j < i ==> !MatchesAt(s, j)
    ensures MatchedNumber(s) == Some(DecimalValue(DigitRun(s[i + 4..])))
  {
    var r := FindMatch(s, 0);
    assert r.Some?;
    assert r.value == i;
  }

  lemma MatchStartsWithI(s: string, j: nat)
    ensures MatchesAt(s, j) ==> s[j] == 'I'
  {
    if MatchesAt(s, j) {
      assert s[j..j + 4][0] == s[j];
    }
  }

  /** Without a capital 'I' there is no match. */
  lemma NoMatchWithoutPrefix(s: string)
    requires forall k :: 0 <= k < |s| ==> s[k] != 'I'
    ensures MatchedNumber(s) == None
  {
    forall j: nat | 0 <= j
      ensures !MatchesAt(s, j)
    {
      MatchStartsWithI(s, j);
    }
  }

  lemma {:induction false} DigitRunStops(digits: string, rest: string)
    requires AllDigits(digits)
    requires rest == [] || !IsDigit(rest[0])
    ensures DigitRun(digits + rest) == digits
  {
    if digits != [] {
      assert (digits + rest)[1..] == digits[1..] + rest;
      DigitRunStops(digits[1..], rest);
      assert [digits[0]] + digits[1..] == digits;
    } else {
      assert digits + rest == rest;
    }
  }

  /**
   * The pattern is not anchored: "INV-" may follow any text without a capital 'I'. The number
   * is the run of digits after it, up to the first non-digit, leading zeros counting for nothing.
   */
  lemma MatchAfterText(pre: string, digits: string, rest: string)
    requires forall k :: 0 <= k < |pre| ==> pre[k] != 'I'
    requires digits != [] && AllDigits(digits)
    requires rest == [] || !IsDigit(rest[0])
    ensures MatchedNumber(pre + Prefix + digits + rest) == Some(DecimalValue(digits))
  {
    var tail := digits + rest;
    var s := pre + (Prefix + tail);
    assert pre + Prefix + digits + rest == s;
    var i := |pre|;
    forall j | 0 <= j < i
      ensures !MatchesAt(s, j)
    {
      MatchStartsWithI(s, j);
      assert s[j] == pre[j];
    }
    assert s[i..] == Prefix + tail;
    assert s[i..i + 4] == Prefix;
    assert s[i + 4..] == tail;
    assert s[i + 4] == digits[0];
    FirstMatch(s, i);
    DigitRunStops(digits, rest);
  }

  /** The match is case-sensitive: a lower-case prefix is no match. */
  lemma ExampleLowerCase()
    ensures MatchedNumber("inv-0042") == None
  {
    NoMatchWithoutPrefix("inv-0042");
  }
}
