/**
 Scale factors and the mapping from (day, amount) to canvas pixels used by
 both charts of plot_utils.py. The y axis is inverted: larger amounts are
 drawn higher, at smaller y.
 */
module Scaling {
  import opened Wrappers

  /** Margin between the canvas border and the plot area, in pixels. */
  const Padding: int := 20

  /** The bounds and factors computed once per chart. */
  datatype Scale = Scale(minDay: int, dateRange: int, maxAmount: real, xScale: real, yScale: real)

  /** Python raises ZeroDivisionError when the payment chart divides by zero. */
  datatype ChartError = ZeroDivisionError

  /**
   Scale of the payment chart from the frame's bounds (the first and last
   day, the largest running sum): no guard, so a single day of data or a
   zero largest running sum divides by zero.
   */
  function PaymentScale(minDay: int, maxDay: int, maxAmount: real, width: int, height: int)
    : (r: Result<Scale, ChartError>)
    requires minDay <= maxDay
    ensures r.Failure? <==> maxAmount == 0.0 || maxDay == minDay
    ensures r.Success? ==>
      && r.value.minDay == minDay
      && r.value.maxAmount == maxAmount
      && r.value.dateRange == maxDay - minDay >= 1
  {
    var dateRange := maxDay - minDay;
    if maxAmount == 0.0 || dateRange == 0 then Failure(ZeroDivisionError)
    else
      var yScale := (height - 2 * Padding) as real / maxAmount;
      var xScale := (width - 2 * Padding) as real / dateRange as real;
      Success(Scale(minDay, dateRange, maxAmount, xScale, yScale))
  }

  /** The payment chart's factors stretch the date range over the plot width and the largest sum over its height. */
  lemma PaymentScaleFactors(minDay: int, maxDay: int, maxAmount: real, width: int, height: int)
    requires minDay <= maxDay
    requires PaymentScale(minDay, maxDay, maxAmount, width, height).Success?
    ensures var s := PaymentScale(minDay, maxDay, maxAmount, width, height).value;
            && s.xScale * s.dateRange as real == (width - 2 * Padding) as real
            && s.yScale * s.maxAmount == (height - 2 * Padding) as real
  {
    DivTimes((height - 2 * Padding) as real, maxAmount);
    DivTimes((width - 2 * Padding) as real, (maxDay - minDay) as real);
  }

  /**
   Scale of the modification chart from the frame's bounds: a zero date
   range counts as one day, and a largest running sum that is not positive
   gives a y factor of 1.
   */
  function ModificationScale(minDay: int, maxDay: int, maxAmount: real, width: int, height: int)
    : (s: Scale)
    requires minDay <= maxDay
    ensures s.minDay == minDay && s.maxAmount == maxAmount
    ensures s.dateRange >= 1
    ensures s.dateRange == if maxDay == minDay then 1 else maxDay - minDay
    ensures maxAmount <= 0.0 ==> s.yScale == 1.0
  {
    var days := maxDay - minDay;
    var dateRange := if days != 0 then days else 1;
    var yScale := if maxAmount > 0.0 then (height - 2 * Padding) as real / maxAmount else 1.0;
    var xScale := (width - 2 * Padding) as real / dateRange as real;
    Scale(minDay, dateRange, maxAmount, xScale, yScale)
  }

  /** The modification chart's factors stretch the date range over the plot width and a positive largest sum over its height. */
  lemma ModificationScaleFactors(minDay: int, maxDay: int, maxAmount: real, width: int, height: int)
    requires minDay <= maxDay
    ensures var s := ModificationScale(minDay, maxDay, maxAmount, width, height);
            && s.xScale * s.dateRange as real == (width - 2 * Padding) as real
            && (maxAmount > 0.0 ==> s.yScale * maxAmount == (height - 2 * Padding) as real)
  {
    var s := ModificationScale(minDay, maxDay, maxAmount, width, height);
    DivTimes((width - 2 * Padding) as real, s.dateRange as real);
    if maxAmount > 0.0 {
      DivTimes((height - 2 * Padding) as real, maxAmount);
    }
  }

  lemma DivTimes(a: real, b: real)
    requires b != 0.0
    ensures (a / b) * b == a
  {
  }

  lemma MulNonNegative(a: real, b: real)
    requires a >= 0.0 && b >= 0.0
    ensures a * b >= 0.0
  {
  }

  /** Pixel x of a day. */
  function MapX(s: Scale, day: int): real {
    Padding as real + (day - s.minDay) as real * s.xScale
  }

  /** Pixel y of an amount, measured down from the top of a canvas `height` pixels high. */
  function MapY(height: int, s: Scale, value: real): real {
    height as real - (Padding as real + value * s.yScale)
  }

  function Min(a: real, b: real): real {
    if a <= b then a else b
  }

  /** Width of a modification bar for `count` points. */
  function BarWidth(s: Scale, count: nat): real
    requires count > 0
  {
    Min(30.0, s.xScale * s.dateRange as real / count as real - 5.0)
  }

  /** Every day between the first and the last maps into the horizontal plot area. */
  lemma XInBounds(s: Scale, width: int, day: int)
    requires s.dateRange >= 1 && width >= 2 * Padding
    requires s.xScale * s.dateRange as real == (width - 2 * Padding) as real
    requires s.minDay <= day <= s.minDay + s.dateRange
    ensures Padding as real <= MapX(s, day) <= (width - Padding) as real
  {
    var d := (day - s.minDay) as real;
    var range := s.dateRange as real;
    assert s.xScale >= 0.0;
    MulNonNegative(d, s.xScale);
    MulNonNegative(range - d, s.xScale);
  }

  /** Every amount between 0 and the largest running sum maps into the vertical plot area. */
  lemma YInBounds(s: Scale, height: int, value: real)
    requires height >= 2 * Padding && s.maxAmount > 0.0
    requires s.yScale * s.maxAmount == (height - 2 * Padding) as real
    requires 0.0 <= value <= s.maxAmount
    ensures Padding as real <= MapY(height, s, value) <= (height - Padding) as real
  {
    assert s.yScale >= 0.0;
    MulNonNegative(value, s.yScale);
    MulNonNegative(s.maxAmount - value, s.yScale);
  }

  /** With a positive y factor, a larger amount is drawn strictly higher. */
  lemma YDecreasing(s: Scale, height: int, v1: real, v2: real)
    requires s.yScale > 0.0 && v1 < v2
    ensures MapY(height, s, v2) < MapY(height, s, v1)
  {
    assert (v2 - v1) * s.yScale > 0.0;
  }

  /** With a non-negative y factor, a larger amount is never drawn lower. */
  lemma YNonIncreasing(s: Scale, height: int, v1: real, v2: real)
    requires s.yScale >= 0.0 && v1 <= v2
    ensures MapY(height, s, v2) <= MapY(height, s, v1)
  {
    MulNonNegative(v2 - v1, s.yScale);
  }

  /**
   On the payment chart, a day between the first and the last and two
   running sums between 0 and the largest one map inside the plot area, the
   larger sum no lower than the smaller.
   */
  lemma PaymentPointBounds(minDay: int, maxDay: int, maxAmount: real, width: int, height: int,
                           day: int, v1: real, v2: real)
    requires minDay <= day <= maxDay
    requires 0.0 <= v1 <= v2 <= maxAmount
    requires width >= 2 * Padding && height > 2 * Padding
    requires PaymentScale(minDay, maxDay, maxAmount, width, height).Success?
    ensures var s := PaymentScale(minDay, maxDay, maxAmount, width, height).value;
            && Padding as real <= MapX(s, day) <= (width - Padding) as real
            && Padding as real <= MapY(height, s, v2) <= (height - Padding) as real
            && MapY(height, s, v2) <= MapY(height, s, v1)
  {
    var s := PaymentScale(minDay, maxDay, maxAmount, width, height).value;
    PaymentScaleFactors(minDay, maxDay, maxAmount, width, height);
    XInBounds(s, width, day);
    YInBounds(s, height, v2);
    assert s.yScale >= 0.0 by {
      if s.yScale < 0.0 {
        MulNonNegative(-s.yScale, s.maxAmount);
      }
    }
    YNonIncreasing(s, height, v1, v2);
  }

  /**
   On the modification chart, a day between the first and the last, and a
   cost no larger than a running sum that is itself no larger than the
   largest one, map inside the plot area, the sum no lower than the cost.
   */
  lemma ModificationPointBounds(minDay: int, maxDay: int, maxAmount: real, width: int, height: int,
                                day: int, cost: real, total: real)
    requires minDay <= day <= maxDay
    requires 0.0 <= cost <= total <= maxAmount
    requires width >= 2 * Padding && height >= 2 * Padding
    ensures var s := ModificationScale(minDay, maxDay, maxAmount, width, height);
            && Padding as real <= MapX(s, day) <= (width - Padding) as real
            && Padding as real <= MapY(height, s, cost) <= (height - Padding) as real
            && Padding as real <= MapY(height, s, total) <= (height - Padding) as real
            && MapY(height, s, total) <= MapY(height, s, cost)
  {
    var s := ModificationScale(minDay, maxDay, maxAmount, width, height);
    ModificationScaleFactors(minDay, maxDay, maxAmount, width, height);
    XInBounds(s, width, day);
    if maxAmount > 0.0 {
      YInBounds(s, height, cost);
      YInBounds(s, height, total);
      assert s.yScale >= 0.0 by {
        if s.yScale < 0.0 {
          MulNonNegative(-s.yScale, s.maxAmount);
        }
      }
    }
    YNonIncreasing(s, height, cost, total);
  }

  /**
   The bar width is `min(30, plot width / count - 5)`, because the x factor
   times the date range is the plot width; one point gets the full 30 pixels
   on any plot at least 35 pixels wide.
   */
  lemma BarWidthFormula(s: Scale, width: int, count: nat)
    requires count > 0
    requires s.xScale * s.dateRange as real == (width - 2 * Padding) as real
    ensures BarWidth(s, count) == Min(30.0, (width - 2 * Padding) as real / count as real - 5.0)
    ensures BarWidth(s, count) <= 30.0
    ensures count == 1 && width - 2 * Padding >= 35 ==> BarWidth(s, count) == 30.0
  {
    var plot := s.xScale * s.dateRange as real;
    assert plot / count as real == (width - 2 * Padding) as real / count as real;
  }

  /** The bar width of the modification chart's scale, for `count` points. */
  lemma ModificationBarWidthFormula(minDay: int, maxDay: int, maxAmount: real, width: int, height: int, count: nat)
    requires minDay <= maxDay && count > 0
    ensures var barWidth := BarWidth(ModificationScale(minDay, maxDay, maxAmount, width, height), count);
            && barWidth == Min(30.0, (width - 2 * Padding) as real / count as real - 5.0)
            && barWidth <= 30.0
            && (count == 1 && width - 2 * Padding >= 35 ==> barWidth == 30.0)
  {
    ModificationScaleFactors(minDay, maxDay, maxAmount, width, height);
    BarWidthFormula(ModificationScale(minDay, maxDay, maxAmount, width, height), width, count);
  }

  /** The width has no lower bound: on the 560-pixel plot, more than 112 points give a negative width. */
  lemma BarWidthNegative(s: Scale, count: nat)
    requires count > 112
    requires s.xScale * s.dateRange as real == 560.0
    ensures BarWidth(s, count) < 0.0
  {
    assert 560.0 / count as real < 5.0 by {
      assert 560.0 < 5.0 * count as real;
    }
  }
}
