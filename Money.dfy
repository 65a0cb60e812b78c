/**
 * `formatCurrency(amount, currencyCode = 'USD')`: a symbol looked up in a fixed table,
 * followed by the amount in en-US notation with exactly two fraction digits
 * (`toLocaleString('en-US', {minimumFractionDigits: 2, maximumFractionDigits: 2})`).
 * Amounts are exact reals; the two fraction digits come from rounding half away from zero.
 */
module Money {
  import opened Wrappers
  import opened Strings

  const DefaultCurrency: string := "USD"

  /** The `CURRENCY_SYMBOLS` table. */
  const Symbols: map<string, string> := map["USD" := "$", "EUR" := "€", "GBP" := "£", "INR" := "₹", "CAD" := "$"]

  /** `CURRENCY_SYMBOLS[code] || '$'`. */
  function CurrencySymbol(code: string): (sym: string)
  {
    if code in Symbols then Symbols[code] else "$"
  }

  /** The symbol is one of the four in the table, and only EUR, GBP and INR leave the dollar sign. */
  lemma SymbolTable(code: string)
    ensures CurrencySymbol(code) in {"$", "€", "£", "₹"}
    ensures CurrencySymbol(code) == "€" <==> code == "EUR"
    ensures CurrencySymbol(code) == "£" <==> code == "GBP"
    ensures CurrencySymbol(code) == "₹" <==> code == "INR"
    ensures code !in {"EUR", "GBP", "INR"} ==> CurrencySymbol(code) == "$"
  {
  }

  /** The absolute amount in whole cents, rounded half away from zero. */
  function Cents(amount: real): (c: nat)
    ensures var a := if amount < 0.0 then -amount else amount;
            a * 100.0 - 0.5 < c as real <= a * 100.0 + 0.5
  {
    var a := if amount < 0.0 then -amount else amount;
    (a * 100.0 + 0.5).Floor
  }

  /** The amount the display stands for, in cents and with its sign. */
  function SignedCents(amount: real): int
  {
    if amount < 0.0 then -(Cents(amount) as int) else Cents(amount)
  }

  /** Digits with a ',' before every group of three counted from the right: "1234567" to "1,234,567". */
  function GroupDigits(s: string): string
  {
    if |s| <= 3 then s else GroupDigits(s[..|s| - 3]) + "," + s[|s| - 3..]
  }

  /** A natural number in en-US notation: its digits, grouped by thousands. */
  function Grouped(n: nat): string
  {
    GroupDigits(NatToString(n))
  }

  /** Two fraction digits: "05". */
  function TwoDigits(n: nat): (r: string)
    requires n < 100
    ensures |r| == 2 && AllDigits(r)
  {
    NatToStringLength(n, 2);
    PadStart(NatToString(n), 2, '0')
  }

  /** Whole units, grouped, then '.' and two fraction digits: 123456 cents to "1,234.56". */
  function CentsDisplay(c: nat): string
  {
    Grouped(c / 100) + "." + TwoDigits(c % 100)
  }

  /** The number part of the display: '-' for a negative amount, then the rounded cents. */
  function FormatAmount(amount: real): string
  {
    (if amount < 0.0 then "-" else "") + CentsDisplay(Cents(amount))
  }

  /** `formatCurrency(amount, code)`: the symbol, immediately followed by the amount. */
  function FormatCurrency(amount: real, code: string): (r: string)
    ensures |r| >= |CurrencySymbol(code)| + 4 && r[..|CurrencySymbol(code)|] == CurrencySymbol(code)
    ensures EndsInCents(r)
  {
    FormatAmountShape(amount);
    SymbolThenAmount(CurrencySymbol(code), FormatAmount(amount));
    CurrencySymbol(code) + FormatAmount(amount)
  }

  /**
   * A display starts with the currency's symbol, ends in '.' and exactly two digits, and what
   * follows the symbol reads back as the amount rounded to the cent.
   */
  lemma FormatCurrencyReadsBack(amount: real, code: string)
    ensures var r, sym := FormatCurrency(amount, code), CurrencySymbol(code);
            |r| >= |sym| + 4 && r[..|sym|] == sym
            && ParseAmount(r[|sym|..]) == Some(SignedCents(amount))
            && EndsInCents(r)
  {
    var sym := CurrencySymbol(code);
    var body := FormatAmount(amount);
    assert FormatCurrency(amount, code) == sym + body;
    FormatAmountShape(amount);
    FormatAmountParses(amount);
    SymbolThenAmount(sym, body);
  }

  /** Ends in '.' and two digits, with at least one character before them. */
  predicate EndsInCents(s: string)
  {
    |s| >= 4 && s[|s| - 3] == '.' && AllDigits(s[|s| - 2..])
  }

  lemma SymbolThenAmount(sym: string, body: string)
    requires EndsInCents(body)
    ensures var r := sym + body;
            |r| >= |sym| + 4 && r[..|sym|] == sym && r[|sym|..] == body && EndsInCents(r)
  {
    var r := sym + body;
    assert r[|r| - 2..] == body[|body| - 2..];
  }

  // ---------------------------------------------------------------------------
  // Reading a display back
  // ---------------------------------------------------------------------------

  function RemoveCommas(s: string): string
  {
    if s == [] then [] else (if s[0] == ',' then [] else [s[0]]) + RemoveCommas(s[1..])
  }

  /** Reads "1,234.56" back as 123456 cents. */
  function ParseUnsigned(s: string): Option<nat>
  {
    if |s| < 4 || s[|s| - 3] != '.' then None
    else
      var whole := RemoveCommas(s[..|s| - 3]);
      var frac := s[|s| - 2..];
      if whole != [] && AllDigits(whole) && AllDigits(frac)
      then Some(DecimalValue(whole) * 100 + DecimalValue(frac))
      else None
  }

  /** Reads "-1,234.56" back as -123456 cents. */
  function ParseAmount(s: string): Option<int>
  {
    if |s| >= 1 && s[0] == '-' then
      match ParseUnsigned(s[1..])
      case Some(c) => Some(-(c as int))
      case None => None
    else
      match ParseUnsigned(s)
      case Some(c) => Some(c as int)
      case None => None
  }

  lemma {:induction false} RemoveCommasConcat(a: string, b: string)
    ensures RemoveCommas(a + b) == RemoveCommas(a) + RemoveCommas(b)
  {
    if a == [] {
      assert a + b == b;
    } else {
      assert (a + b)[0] == a[0];
      assert (a + b)[1..] == a[1..] + b;
      RemoveCommasConcat(a[1..], b);
    }
  }

  /** The comma joining a group to the last three digits is the only thing removed there. */
  lemma RemoveCommasJoin(g: string, lo: string)
    requires AllDigits(lo)
    ensures RemoveCommas((g + ",") + lo) == RemoveCommas(g) + lo
  {
    var gc := g + ",";
    assert RemoveCommas(gc) == RemoveCommas(g) by {
      RemoveCommasConcat(g, ",");
      assert RemoveCommas(",") == [];
    }
    assert RemoveCommas(gc + lo) == RemoveCommas(gc) + lo by {
      RemoveCommasConcat(gc, lo);
      RemoveCommasNone(lo);
    }
  }

  lemma {:induction false} RemoveCommasNone(s: string)
    requires AllDigits(s)
    ensures RemoveCommas(s) == s
  {
    if s != [] {
      RemoveCommasNone(s[1..]);
    }
  }

  /** Dropping the separators gives the digits back. */
  lemma {:induction false} GroupDigitsUngroup(s: string)
    requires AllDigits(s)
    ensures RemoveCommas(GroupDigits(s)) == s
    ensures |s| >= 1 ==> |GroupDigits(s)| >= 1 && GroupDigits(s)[0] == s[0]
  {
    if |s| <= 3 {
      RemoveCommasNone(s);
    } else {
      var hi, lo := s[..|s| - 3], s[|s| - 3..];
      var g := GroupDigits(hi);
      assert GroupDigits(s) == (g + ",") + lo;
      GroupDigitsUngroup(hi);
      RemoveCommasJoin(g, lo);
      assert hi + lo == s;
      assert ((g + ",") + lo)[0] == g[0];
    }
  }

  /** The grouped digits, separators dropped, are the number's digits. */
  lemma GroupedValue(n: nat)
    ensures var d := RemoveCommas(Grouped(n)); d != [] && AllDigits(d) && DecimalValue(d) == n
    ensures Grouped(n) != [] && Grouped(n)[0] != '-'
  {
    GroupDigitsUngroup(NatToString(n));
    NatToStringValue(n);
  }

  /** How `ParseUnsigned` splits a display into whole units and fraction. */
  lemma ParseUnsignedParts(g: string, t: string)
    requires var d := RemoveCommas(g); d != [] && AllDigits(d)
    requires |t| == 2 && AllDigits(t)
    ensures ParseUnsigned(g + "." + t) == Some(DecimalValue(RemoveCommas(g)) * 100 + DecimalValue(t))
  {
    var body := g + "." + t;
    assert body[..|body| - 3] == g;
    assert body[|body| - 3] == '.';
    assert body[|body| - 2..] == t;
  }

  /** Whole units and two fraction digits read back as cents. */
  lemma {:induction false} CentsParses(c: nat)
    ensures var body := CentsDisplay(c);
            |body| >= 4 && body[0] != '-' && ParseUnsigned(body) == Some(c)
            && body[|body| - 3] == '.' && AllDigits(body[|body| - 2..])
  {
    var w, f := c / 100, c % 100;
    var g := Grouped(w);
    var t := TwoDigits(f);
    GroupedValue(w);
    assert DecimalValue(t) == f by {
      NatToStringLength(f, 2);
      ZeroPadValue(NatToString(f), 2);
      NatToStringValue(f);
    }
    ParseUnsignedParts(g, t);
    assert w * 100 + f == c;
    var body := g + "." + t;
    assert body[0] == g[0];
    assert body[|body| - 2..] == t;
  }

  /** How `ParseAmount` reads a display with and without a leading minus sign. */
  lemma {:induction false} ParseAmountSign(body: string, c: nat)
    requires body != [] && body[0] != '-' && ParseUnsigned(body) == Some(c)
    ensures ParseAmount(body) == Some(c as int)
    ensures ParseAmount("-" + body) == Some(-(c as int))
  {
    assert ("-" + body)[1..] == body;
  }

  /** The number part ends in '.' and two digits. */
  lemma FormatAmountShape(amount: real)
    ensures EndsInCents(FormatAmount(amount))
  {
    var body := CentsDisplay(Cents(amount));
    CentsParses(Cents(amount));
    assert EndsInCents(body);
    SymbolThenAmount(if amount < 0.0 then "-" else "", body);
  }

  /** A signed cents display reads back as its signed cents. */
  lemma SignedDisplayParses(shown: string, value: int, negative: bool, c: nat)
    requires shown == (if negative then "-" else "") + CentsDisplay(c)
    requires value == if negative then -(c as int) else c as int
    ensures ParseAmount(shown) == Some(value)
  {
    var body := CentsDisplay(c);
    CentsParses(c);
    ParseAmountSign(body, c);
    if !negative {
      assert shown == body;
    }
  }

  /** The number part reads back as the amount rounded to the cent. */
  lemma FormatAmountParses(amount: real)
    ensures ParseAmount(FormatAmount(amount)) == Some(SignedCents(amount))
  {
    var negative, c := amount < 0.0, Cents(amount);
    if negative {
      assert SignedCents(amount) == -(c as int);
    } else {
      assert SignedCents(amount) == c as int;
    }
    SignedDisplayParses(FormatAmount(amount), SignedCents(amount), negative, c);
  }

  /** The display is the amount to the nearest cent: never more than half a cent away. */
  lemma DisplayedWithinHalfCent(amount: real, code: string)
    ensures var shown := SignedCents(amount) as real / 100.0;
            -0.005 <= shown - amount <= 0.005
  {
  }

  /** 1234 is grouped as "1,234". */
  lemma GroupedExample()
    ensures Grouped(1234) == "1,234"
  {
    assert NatToString(12) == "12";
    assert NatToString(123) == "123";
    assert NatToString(1234) == "1234";
    assert "1234"[..1] == "1" && "1234"[1..] == "234";
    assert GroupDigits("1234") == "1" + "," + "234";
  }

  /** 1234.56 dollars display as "$1,234.56". */
  lemma ExampleThousands()
    ensures FormatCurrency(1234.56, "USD") == "$1,234.56"
  {
    assert CurrencySymbol("USD") == "$";
    assert Cents(1234.56) == 123456;
    GroupedExample();
    assert NatToString(56) == "56";
    assert TwoDigits(56) == "56";
    assert 123456 / 100 == 1234 && 123456 % 100 == 56;
    assert CentsDisplay(123456) == "1,234" + "." + "56";
    assert FormatAmount(1234.56) == "1,234.56";
  }

  /** Minus five in a currency missing from the table: dollar sign first, then the sign. */
  lemma ExampleNegativeUnknownCurrency()
    ensures FormatCurrency(-5.0, "XYZ") == "$-5.00"
  {
    assert "XYZ" !in Symbols;
    assert Cents(-5.0) == 500;
    assert Grouped(5) == "5";
    assert TwoDigits(0) == "00";
    assert 500 / 100 == 5 && 500 % 100 == 0;
    assert CentsDisplay(500) == "5" + "." + "00";
    assert FormatAmount(-5.0) == "-" + "5.00";
  }
}
