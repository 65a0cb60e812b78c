/**
 * The totals arithmetic shared by both editors (`calculateTotals` in app.js and in
 * src/modules/ui.js): a line is quantity times rate, the subtotal is the sum of the lines,
 * tax is a percentage of the subtotal, and the discount is either a percentage of the
 * subtotal or a fixed amount.
 */
module Totals {
  import opened Wrappers

  /** `parseFloat(input.value) || 0` on a number input: an empty input reads as 0. */
  function Coerce(v: Option<real>): real
  {
    v.GetOr(0.0)
  }

  /** One line's amount: the quantity times the rate, each read with `Coerce`. */
  function LineAmount(qty: Option<real>, rate: Option<real>): (r: real)
    ensures qty.None? || rate.None? ==> r == 0.0
  {
    Coerce(qty) * Coerce(rate)
  }

  /** The running sum the loops accumulate, first element first. */
  function Sum(xs: seq<real>): real
  {
    if xs == [] then 0.0 else Sum(xs[..|xs| - 1]) + xs[|xs| - 1]
  }

  datatype Totals = Totals(subtotal: real, taxAmount: real, discountAmount: real, total: real)

  const PercentDiscount: string := "percent"

  function TaxAmount(subtotal: real, taxRate: Option<real>): real
  {
    subtotal * (Coerce(taxRate) / 100.0)
  }

  /** A percentage of the subtotal when the type is exactly "percent", otherwise the value itself. */
  function DiscountAmount(subtotal: real, discountType: string, discountValue: Option<real>): real
  {
    if discountType == PercentDiscount then subtotal * (Coerce(discountValue) / 100.0)
    else Coerce(discountValue)
  }

  /** The four figures `calculateTotals` derives from the subtotal and the settings. */
  function ComputeTotals(subtotal: real, taxRate: Option<real>, discountType: string, discountValue: Option<real>): (t: Totals)
    ensures t.subtotal == subtotal && t.total == subtotal + t.taxAmount - t.discountAmount
    ensures taxRate.None? ==> t.taxAmount == 0.0
    ensures discountValue.None? ==> t.discountAmount == 0.0
    ensures discountType != PercentDiscount ==> t.discountAmount == Coerce(discountValue)
  {
    var tax := TaxAmount(subtotal, taxRate);
    var discount := DiscountAmount(subtotal, discountType, discountValue);
    Totals(subtotal, tax, discount, subtotal + tax - discount)
  }

  // ---------------------------------------------------------------------------
  // What the totals mean
  // ---------------------------------------------------------------------------

  /**
   * With a percentage discount every figure is proportional to the subtotal: the total is the
   * subtotal scaled by (1 + rate/100 - discount/100).
   */
  lemma PercentTotals(subtotal: real, taxRate: Option<real>, discountValue: Option<real>)
    ensures var t := ComputeTotals(subtotal, taxRate, PercentDiscount, discountValue);
            t.subtotal == subtotal
            && t.taxAmount * 100.0 == subtotal * Coerce(taxRate)
            && t.discountAmount * 100.0 == subtotal * Coerce(discountValue)
            && t.total * 100.0 == subtotal * (100.0 + Coerce(taxRate) - Coerce(discountValue))
  {
  }

  /**
   * With any other discount type the discount is the raw value: the same whatever the
   * subtotal, and the total is the taxed subtotal minus that value.
   */
  lemma FixedDiscount(subtotal: real, other: real, taxRate: Option<real>, discountType: string, discountValue: Option<real>)
    requires discountType != PercentDiscount
    ensures DiscountAmount(subtotal, discountType, discountValue) == DiscountAmount(other, discountType, discountValue)
    ensures var t := ComputeTotals(subtotal, taxRate, discountType, discountValue);
            t.discountAmount == Coerce(discountValue)
            && t.total * 100.0 == subtotal * (100.0 + Coerce(taxRate)) - 100.0 * Coerce(discountValue)
  {
  }

  /** The type test is exact: only the string "percent" selects a percentage ("Percent" does not). */
  lemma DiscountTypeIsExact()
    ensures DiscountAmount(200.0, "percent", Some(10.0)) == 20.0
    ensures DiscountAmount(200.0, "Percent", Some(10.0)) == 10.0
    ensures DiscountAmount(200.0, "fixed", Some(10.0)) == 10.0
  {
  }

  /** Empty tax and discount inputs leave the total equal to the subtotal. */
  lemma EmptySettings(subtotal: real, discountType: string)
    ensures ComputeTotals(subtotal, None, discountType, None) == Totals(subtotal, 0.0, 0.0, subtotal)
  {
  }

  /** Nothing clamps the total: a fixed discount larger than the subtotal makes it negative. */
  lemma TotalCanBeNegative()
    ensures ComputeTotals(100.0, None, "fixed", Some(150.0)).total == -50.0
    ensures ComputeTotals(100.0, Some(10.0), "percent", Some(120.0)).total == -10.0
  {
  }

  /** An empty quantity or rate makes the line worth nothing. */
  lemma EmptyInputLine(v: Option<real>)
    ensures LineAmount(None, v) == 0.0 && LineAmount(v, None) == 0.0
  {
  }

  // ---------------------------------------------------------------------------
  // Sums
  // ---------------------------------------------------------------------------

  lemma {:induction false} SumAppend(xs: seq<real>, ys: seq<real>)
    ensures Sum(xs + ys) == Sum(xs) + Sum(ys)
    decreases |ys|
  {
    if ys == [] {
      assert xs + ys == xs;
    } else {
      var init := ys[..|ys| - 1];
      assert (xs + ys)[..|xs + ys| - 1] == xs + init;
      SumAppend(xs, init);
    }
  }

  /** The sum does not depend on where the first element sits: it can be taken off the front. */
  lemma SumFront(xs: seq<real>)
    requires xs != []
    ensures Sum(xs) == xs[0] + Sum(xs[1..])
  {
    SumAppend([xs[0]], xs[1..]);
    assert [xs[0]] + xs[1..] == xs;
  }

  /** Taking the element at `k` out of the sequence takes its value out of the sum. */
  lemma SumRemove(ys: seq<real>, k: nat)
    requires k < |ys|
    ensures Sum(ys) == ys[k] + Sum(ys[..k] + ys[k + 1..])
  {
    var a, y, b := ys[..k], ys[k], ys[k + 1..];
    SplitAround(ys, k);
    assert Sum(ys) == Sum(a + [y]) + Sum(b) by {
      SumAppend(a + [y], b);
    }
    assert Sum(a + [y]) == Sum(a) + y by {
      assert (a + [y])[..|a|] == a;
    }
    SumAppend(a, b);
  }

  lemma MultisetRemove(ys: seq<real>, k: nat)
    requires k < |ys|
    ensures multiset(ys[..k] + ys[k + 1..]) == multiset(ys) - multiset{ys[k]}
  {
    SplitAround(ys, k);
  }

  lemma SplitAround(ys: seq<real>, k: nat)
    requires k < |ys|
    ensures ys == ys[..k] + [ys[k]] + ys[k + 1..]
  {
    var r := ys[..k] + [ys[k]] + ys[k + 1..];
    assert |r| == |ys|;
    forall i | 0 <= i < |ys|
      ensures r[i] == ys[i]
    {
      if i < k {
        assert r[i] == ys[..k][i];
      } else if i > k {
        assert r[i] == ys[k + 1..][i - k - 1];
      }
    }
  }

  /** Summing is insensitive to the order of the lines: reordered lines give the same subtotal. */
  lemma {:induction false} SumPermutation(xs: seq<real>, ys: seq<real>)
    requires multiset(xs) == multiset(ys)
    ensures Sum(xs) == Sum(ys)
    decreases |xs|
  {
    if xs == [] {
      assert |ys| == |multiset(ys)| == 0;
    } else {
      var x := xs[0];
      assert x in multiset(ys);
      var k :| 0 <= k < |ys| && ys[k] == x;
      var rest := ys[..k] + ys[k + 1..];
      MultisetRemove(ys, k);
      assert multiset(xs[1..]) == multiset(xs) - multiset{x} by {
        assert xs == [x] + xs[1..];
      }
      SumPermutation(xs[1..], rest);
      SumFront(xs);
      SumRemove(ys, k);
    }
  }

  /** Lines that are all worth at least zero add up to at least zero. */
  lemma {:induction false} SumNonNegative(xs: seq<real>)
    requires forall i :: 0 <= i < |xs| ==> xs[i] >= 0.0
    ensures Sum(xs) >= 0.0
  {
    if xs != [] {
      SumNonNegative(xs[..|xs| - 1]);
    }
  }
}
