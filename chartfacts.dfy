/**
 Properties of the two chart pictures: how many commands of each kind they
 hold and where, when the placeholder is drawn, when the payment chart
 divides by zero, that every point lands inside the plot area, and that the
 last running total is the figure `calculate_balance` reports.
 */
module ChartFacts {
  import opened Wrappers
  import opened Models
  import opened Series
  import opened Scaling
  import opened Canvas
  import opened Charts

  // --- Shape of the pictures ---

  lemma AxesShape(width: int, height: int)
    ensures |Axes(width, height)| == 2
    ensures Count(Axes(width, height), LineKind) == 2
    ensures Count(Axes(width, height), OvalKind) == 0
    ensures Count(Axes(width, height), RectangleKind) == 0
    ensures Count(Axes(width, height), TextKind) == 0
  {
    var axes := Axes(width, height);
    assert axes == [axes[0]] + ([axes[1]] + []);
    forall k: Kind ensures Count(axes, k) == (if k == LineKind then 2 else 0) {
      CountCons(axes[0], [axes[1]] + [], k);
      CountCons(axes[1], [], k);
    }
  }

  /** One point of the payment chart: an oval, the segment back to the previous point, a label. */
  lemma PaymentMarkShape(height: int, s: Scale, rows: seq<Row<()>>, cumulative: seq<real>, k: nat)
    requires k < |rows| && k < |cumulative|
    ensures var mark := PaymentMark(height, s, rows, cumulative, k);
            && |mark| == (if k == 0 then 2 else 3)
            && Count(mark, OvalKind) == 1
            && Count(mark, TextKind) == 1
            && Count(mark, RectangleKind) == 0
            && Count(mark, LineKind) == (if k == 0 then 0 else 1)
            && (k > 0 ==> mark[1] == PaymentSegment(height, s, rows, cumulative, k))
  {
    var mark := PaymentMark(height, s, rows, cumulative, k);
    forall kind: Kind
      ensures Count(mark, kind) == (if kind == OvalKind || kind == TextKind then 1
                                    else if kind == LineKind && k > 0 then 1 else 0)
    {
      if k == 0 {
        assert mark == [mark[0]] + ([mark[1]] + []);
        CountCons(mark[0], [mark[1]] + [], kind);
        CountCons(mark[1], [], kind);
      } else {
        assert mark == [mark[0]] + ([mark[1]] + ([mark[2]] + []));
        CountCons(mark[0], [mark[1]] + ([mark[2]] + []), kind);
        CountCons(mark[1], [mark[2]] + [], kind);
        CountCons(mark[2], [], kind);
      }
    }
  }

  /**
   The first `n` points of the payment chart: one oval and one value label
   per point, and a segment joining each point to the one before it.
   */
  lemma {:induction false} PaymentMarksLayout(height: int, s: Scale, rows: seq<Row<()>>, cumulative: seq<real>, n: nat)
    requires n <= |rows| && n <= |cumulative|
    ensures var marks := PaymentMarks(height, s, rows, cumulative, n);
            && |marks| == (if n == 0 then 0 else 3 * n - 1)
            && Count(marks, OvalKind) == n
            && Count(marks, TextKind) == n
            && Count(marks, LineKind) == (if n == 0 then 0 else n - 1)
            && Count(marks, RectangleKind) == 0
  {
    if n > 0 {
      PaymentMarksLayout(height, s, rows, cumulative, n - 1);
      PaymentMarkShape(height, s, rows, cumulative, n - 1);
      var prefix := PaymentMarks(height, s, rows, cumulative, n - 1);
      var mark := PaymentMark(height, s, rows, cumulative, n - 1);
      CountConcat(prefix, mark, OvalKind);
      CountConcat(prefix, mark, TextKind);
      CountConcat(prefix, mark, LineKind);
      CountConcat(prefix, mark, RectangleKind);
    }
  }

  /** In the commands of the first `n` payment points, command `3k` is the segment from point `k - 1` to point `k`. */
  lemma {:induction false} PaymentSegmentsAt(height: int, s: Scale, rows: seq<Row<()>>, cumulative: seq<real>, n: nat)
    requires n <= |rows| && n <= |cumulative|
    ensures var marks := PaymentMarks(height, s, rows, cumulative, n);
            && |marks| == (if n == 0 then 0 else 3 * n - 1)
            && (forall k :: 0 < k < n ==> marks[3 * k] == PaymentSegment(height, s, rows, cumulative, k))
  {
    if n > 0 {
      PaymentSegmentsAt(height, s, rows, cumulative, n - 1);
      PaymentMarkShape(height, s, rows, cumulative, n - 1);
      var prefix := PaymentMarks(height, s, rows, cumulative, n - 1);
      var mark := PaymentMark(height, s, rows, cumulative, n - 1);
      forall k | 0 < k < n
        ensures (prefix + mark)[3 * k] == PaymentSegment(height, s, rows, cumulative, k)
      {
        if k < n - 1 {
          assert (prefix + mark)[3 * k] == prefix[3 * k];
        } else {
          assert (prefix + mark)[3 * k] == mark[1];
        }
      }
    }
  }

  /** One point of the modification chart: a bar, an oval, the segment back to the previous point, two labels. */
  lemma ModificationMarkShape(height: int, s: Scale, barWidth: real, rows: seq<Row<string>>, cumulative: seq<real>, k: nat)
    requires k < |rows| && k < |cumulative|
    ensures var mark := ModificationMark(height, s, barWidth, rows, cumulative, k);
            && |mark| == (if k == 0 then 4 else 5)
            && Count(mark, RectangleKind) == 1
            && Count(mark, OvalKind) == 1
            && Count(mark, TextKind) == 2
            && Count(mark, LineKind) == (if k == 0 then 0 else 1)
            && (k > 0 ==> mark[2] == ModificationSegment(height, s, rows, cumulative, k))
  {
    var mark := ModificationMark(height, s, barWidth, rows, cumulative, k);
    var last := [mark[|mark| - 2]] + ([mark[|mark| - 1]] + []);
    forall kind: Kind ensures Count(last, kind) == (if kind == TextKind then 2 else 0) {
      CountCons(mark[|mark| - 2], [mark[|mark| - 1]] + [], kind);
      CountCons(mark[|mark| - 1], [], kind);
    }
    forall kind: Kind
      ensures Count(mark, kind) == (if kind == TextKind then 2
                                    else if kind == LineKind then (if k > 0 then 1 else 0) else 1)
    {
      if k == 0 {
        assert mark == [mark[0]] + ([mark[1]] + last);
        CountCons(mark[0], [mark[1]] + last, kind);
        CountCons(mark[1], last, kind);
      } else {
        assert mark == [mark[0]] + ([mark[1]] + ([mark[2]] + last));
        CountCons(mark[0], [mark[1]] + ([mark[2]] + last), kind);
        CountCons(mark[1], [mark[2]] + last, kind);
        CountCons(mark[2], last, kind);
      }
    }
  }

  /**
   The first `n` points of the modification chart: one bar, one oval and two
   labels per point, and a segment of the running-total line joining each
   point to the one before it.
   */
  lemma {:induction false} ModificationMarksLayout(height: int, s: Scale, barWidth: real, rows: seq<Row<string>>,
                                                   cumulative: seq<real>, n: nat)
    requires n <= |rows| && n <= |cumulative|
    ensures var marks := ModificationMarks(height, s, barWidth, rows, cumulative, n);
            && |marks| == (if n == 0 then 0 else 5 * n - 1)
            && Count(marks, RectangleKind) == n
            && Count(marks, OvalKind) == n
            && Count(marks, TextKind) == 2 * n
            && Count(marks, LineKind) == (if n == 0 then 0 else n - 1)
  {
    if n > 0 {
      ModificationMarksLayout(height, s, barWidth, rows, cumulative, n - 1);
      ModificationMarkShape(height, s, barWidth, rows, cumulative, n - 1);
      var prefix := ModificationMarks(height, s, barWidth, rows, cumulative, n - 1);
      var mark := ModificationMark(height, s, barWidth, rows, cumulative, n - 1);
      CountConcat(prefix, mark, OvalKind);
      CountConcat(prefix, mark, TextKind);
      CountConcat(prefix, mark, LineKind);
      CountConcat(prefix, mark, RectangleKind);
    }
  }

  /**
   In the commands of the first `n` modification points, command `5k + 1` is
   the segment of the running-total line from point `k - 1` to point `k`.
   */
  lemma {:induction false} ModificationSegmentsAt(height: int, s: Scale, barWidth: real, rows: seq<Row<string>>,
                                                  cumulative: seq<real>, n: nat)
    requires n <= |rows| && n <= |cumulative|
    ensures var marks := ModificationMarks(height, s, barWidth, rows, cumulative, n);
            && |marks| == (if n == 0 then 0 else 5 * n - 1)
            && (forall k :: 0 < k < n ==> marks[5 * k + 1] == ModificationSegment(height, s, rows, cumulative, k))
  {
    if n > 0 {
      ModificationSegmentsAt(height, s, barWidth, rows, cumulative, n - 1);
      ModificationMarkShape(height, s, barWidth, rows, cumulative, n - 1);
      var prefix := ModificationMarks(height, s, barWidth, rows, cumulative, n - 1);
      var mark := ModificationMark(height, s, barWidth, rows, cumulative, n - 1);
      forall k | 0 < k < n
        ensures (prefix + mark)[5 * k + 1] == ModificationSegment(height, s, rows, cumulative, k)
      {
        if k < n - 1 {
          assert (prefix + mark)[5 * k + 1] == prefix[5 * k + 1];
        } else {
          assert (prefix + mark)[5 * k + 1] == mark[2];
        }
      }
    }
  }

  // --- The placeholder ---

  /** The payment chart shows only the placeholder exactly when no payment is completed. */
  lemma PaymentsPlaceholderIff(payments: seq<Payment>, width: int, height: int)
    ensures PaymentsPicture(payments, width, height) == Success([Placeholder(width, height, NoPaymentsText)])
            <==> forall p :: p in payments ==> !IsCompleted(p)
  {
    CompletedRowsExactly(payments);
    var data := CompletedRows(payments);
    if data != [] {
      var r := PaymentsPlot(data, width, height);
      if r.Success? {
        assert r.value[0] == Axes(width, height)[0];
      }
    }
  }

  /** The modification chart shows only the placeholder exactly when no modification is paid. */
  lemma ModificationsPlaceholderIff(modifications: seq<Modification>, width: int, height: int)
    ensures ModificationsPicture(modifications, width, height) == [Placeholder(width, height, NoModificationsText)]
            <==> forall m :: m in modifications ==> !m.isPaid
  {
    PaidRowsExactly(modifications);
    var data := PaidRows(modifications);
    if data != [] {
      assert ModificationsPlot(data, width, height)[0] == Axes(width, height)[0];
    }
  }

  // --- The drawn pictures ---

  /** A picture that starts with the axes: two more lines than its marks, and the axes first. */
  lemma AxesThen(width: int, height: int, marks: seq<DrawCommand>)
    ensures |Axes(width, height) + marks| == |marks| + 2
    ensures (Axes(width, height) + marks)[..2] == Axes(width, height)
    ensures Count(Axes(width, height) + marks, LineKind) == Count(marks, LineKind) + 2
    ensures Count(Axes(width, height) + marks, OvalKind) == Count(marks, OvalKind)
    ensures Count(Axes(width, height) + marks, RectangleKind) == Count(marks, RectangleKind)
    ensures Count(Axes(width, height) + marks, TextKind) == Count(marks, TextKind)
  {
    AxesShape(width, height);
    var axes := Axes(width, height);
    assert (axes + marks)[..2] == axes;
    CountConcat(axes, marks, LineKind);
    CountConcat(axes, marks, OvalKind);
    CountConcat(axes, marks, TextKind);
    CountConcat(axes, marks, RectangleKind);
  }

  /**
   A drawn payment chart of `n` completed payments: the two axes first, then
   `n` ovals, `n` value labels and `n - 1` segments, `3n + 1` commands in all.
   */
  lemma PaymentsPictureShape(payments: seq<Payment>, width: int, height: int)
    requires CompletedRows(payments) != []
    requires PaymentsPicture(payments, width, height).Success?
    ensures var commands := PaymentsPicture(payments, width, height).value;
            var n := |CompletedRows(payments)|;
            && |commands| == 3 * n + 1
            && commands[..2] == Axes(width, height)
            && Count(commands, LineKind) == n + 1
            && Count(commands, OvalKind) == n
            && Count(commands, TextKind) == n
            && Count(commands, RectangleKind) == 0
  {
    var frame := SortByDay(CompletedRows(payments));
    var s := PaymentsPlotScale(frame, width, height).value;
    PaymentMarksLayout(height, s, frame, RunningTotals(frame), |frame|);
    AxesThen(width, height, PaymentMarks(height, s, frame, RunningTotals(frame), |frame|));
  }

  /**
   A modification chart of `n` paid modifications: the two axes first, then
   `n` bars, `n` ovals, `2n` labels (cost and description) and `n - 1`
   segments, `5n + 1` commands in all.
   */
  lemma ModificationsPictureShape(modifications: seq<Modification>, width: int, height: int)
    requires PaidRows(modifications) != []
    ensures var commands := ModificationsPicture(modifications, width, height);
            var n := |PaidRows(modifications)|;
            && |commands| == 5 * n + 1
            && commands[..2] == Axes(width, height)
            && Count(commands, LineKind) == n + 1
            && Count(commands, OvalKind) == n
            && Count(commands, RectangleKind) == n
            && Count(commands, TextKind) == 2 * n
  {
    var frame := SortByDay(PaidRows(modifications));
    var s := ModificationsPlotScale(frame, width, height);
    var barWidth := BarWidth(s, |frame|);
    ModificationMarksLayout(height, s, barWidth, frame, RunningTotals(frame), |frame|);
    AxesThen(width, height, ModificationMarks(height, s, barWidth, frame, RunningTotals(frame), |frame|));
  }

  /**
   The bar width of a modification chart of `n` paid modifications is
   `min(30, plot width / n - 5)`: never above 30, exactly 30 for a single
   modification on the 600-pixel canvas.
   */
  lemma ModificationBarWidth(modifications: seq<Modification>, width: int, height: int)
    requires PaidRows(modifications) != []
    ensures var frame := ModificationFrame(modifications);
            var barWidth := BarWidth(ModificationsPlotScale(frame, width, height), |frame|);
            && barWidth == Min(30.0, (width - 2 * Padding) as real / |frame| as real - 5.0)
            && barWidth <= 30.0
            && (|frame| == 1 && width == CanvasWidth ==> barWidth == 30.0)
  {
    var frame := ModificationFrame(modifications);
    ModificationBarWidthFormula(MinDay(frame), MaxDay(frame), MaxOf(RunningTotals(frame)), width, height, |frame|);
  }

  // --- The payment chart's division by zero ---

  lemma CompletedRowsNonNegative(payments: seq<Payment>)
    requires forall p :: p in payments && IsCompleted(p) ==> p.amount >= 0.0
    ensures forall r :: r in CompletedRows(payments) ==> r.amount >= 0.0
  {
    CompletedRowsExactly(payments);
  }

  lemma PaidRowsNonNegative(modifications: seq<Modification>)
    requires forall m :: m in modifications && m.isPaid ==> m.cost >= 0.0
    ensures forall r :: r in PaidRows(modifications) ==> r.amount >= 0.0
  {
    PaidRowsExactly(modifications);
  }

  /** Sorting a frame with no negative amount gives an amount column with no negative entry. */
  lemma FrameNonNegative<L>(data: seq<Row<L>>)
    requires forall r :: r in data ==> r.amount >= 0.0
    ensures forall k :: 0 <= k < |data| ==> Amounts(SortByDay(data))[k] >= 0.0
  {
    var frame := SortByDay(data);
    SortKeepsNonNegative(data);
    forall k | 0 <= k < |data| ensures Amounts(frame)[k] >= 0.0 {
      assert frame[k] in frame;
    }
  }

  /** With no negative amount, the largest running sum of the sorted frame is the frame's total. */
  lemma PeakIsTotal<L>(data: seq<Row<L>>)
    requires data != []
    requires forall r :: r in data ==> r.amount >= 0.0
    ensures MaxOf(RunningTotals(SortByDay(data))) == Sum(Amounts(data))
  {
    FrameNonNegative(data);
    MaxCumulativeIsLast(Amounts(SortByDay(data)));
    SumSortByDay(data);
  }

  /**
   With no negative completed amount, the payment chart divides by zero
   exactly when something is to be drawn and either nothing has been paid or
   every completed payment falls on the same day.
   */
  lemma PaymentsFailureIff(payments: seq<Payment>, width: int, height: int)
    requires forall p :: p in payments && IsCompleted(p) ==> p.amount >= 0.0
    ensures PaymentsPicture(payments, width, height).Failure?
            <==> && CompletedRows(payments) != []
                 && (|| TotalPaid(payments) == 0.0
                     || MinDay(CompletedRows(payments)) == MaxDay(CompletedRows(payments)))
  {
    var data := CompletedRows(payments);
    if data != [] {
      CompletedRowsNonNegative(payments);
      PeakIsTotal(data);
      TotalPaidIsRowSum(payments);
      PermutationDays(data, SortByDay(data));
    }
  }

  /** Completed payments all made on one day, a single one included, make the payment chart divide by zero. */
  lemma OneDayPaymentsFail(payments: seq<Payment>, width: int, height: int, day: int)
    requires exists p :: p in payments && IsCompleted(p)
    requires forall p :: p in payments && IsCompleted(p) ==> p.paymentDate == day
    ensures PaymentsPicture(payments, width, height) == Failure(ZeroDivisionError)
  {
    CompletedRowsExactly(payments);
    var data := CompletedRows(payments);
    var p :| p in payments && IsCompleted(p);
    assert PaymentRow(p) in data;
    PermutationDays(data, SortByDay(data));
    var i :| 0 <= i < |data| && data[i].day == MinDay(data);
    var j :| 0 <= j < |data| && data[j].day == MaxDay(data);
    assert data[i] in data && data[j] in data;
  }

  // --- Points inside the plot area ---

  /**
   On a drawn payment chart with no negative completed amount, every point
   lies inside the plot area, and a later point is never drawn lower than an
   earlier one (the y axis grows upwards on the screen).
   */
  lemma PaymentPointsInPlot(payments: seq<Payment>, width: int, height: int, i: nat, k: nat)
    requires width >= 2 * Padding && height > 2 * Padding
    requires forall p :: p in payments && IsCompleted(p) ==> p.amount >= 0.0
    requires PaymentsPicture(payments, width, height).Success?
    requires i <= k < |CompletedRows(payments)|
    ensures var frame := PaymentFrame(payments);
            var s := PaymentsPlotScale(frame, width, height).value;
            var totals := RunningTotals(frame);
            && Padding as real <= MapX(s, frame[k].day) <= (width - Padding) as real
            && Padding as real <= MapY(height, s, totals[k]) <= (height - Padding) as real
            && MapY(height, s, totals[k]) <= MapY(height, s, totals[i])
  {
    var data := CompletedRows(payments);
    var frame := SortByDay(data);
    var xs := Amounts(frame);
    var totals := Cumsum(xs);
    SortedBounds(frame);
    CompletedRowsNonNegative(payments);
    FrameNonNegative(data);
    CumsumMonotone(xs, i, k);
    PaymentPointBounds(MinDay(frame), MaxDay(frame), MaxOf(totals), width, height, frame[k].day, totals[i], totals[k]);
  }

  /**
   On a modification chart with no negative paid cost, every point, the top
   of every bar included, lies inside the plot area, and no bar rises above
   the running-total marker drawn at its day.
   */
  lemma ModificationPointsInPlot(modifications: seq<Modification>, width: int, height: int, k: nat)
    requires width >= 2 * Padding && height >= 2 * Padding
    requires forall m :: m in modifications && m.isPaid ==> m.cost >= 0.0
    requires k < |PaidRows(modifications)|
    ensures var frame := ModificationFrame(modifications);
            var s := ModificationsPlotScale(frame, width, height);
            var totals := RunningTotals(frame);
            && Padding as real <= MapX(s, frame[k].day) <= (width - Padding) as real
            && Padding as real <= MapY(height, s, frame[k].amount) <= (height - Padding) as real
            && Padding as real <= MapY(height, s, totals[k]) <= (height - Padding) as real
            && MapY(height, s, totals[k]) <= MapY(height, s, frame[k].amount)
  {
    var data := PaidRows(modifications);
    var frame := SortByDay(data);
    var xs := Amounts(frame);
    var totals := Cumsum(xs);
    SortedBounds(frame);
    PaidRowsNonNegative(modifications);
    FrameNonNegative(data);
    CumsumMonotone(xs, 0, k);
    assert xs[k] <= totals[k] by {
      if k > 0 {
        CumsumMonotone(xs, 0, k - 1);
      }
    }
    ModificationPointBounds(MinDay(frame), MaxDay(frame), MaxOf(totals), width, height, frame[k].day, xs[k], totals[k]);
  }

  // --- The charts against calculate_balance ---

  /** The payment line ends at the total that `calculate_balance` reports as paid. */
  lemma PaymentLineEndsAtTotalPaid(project: Project)
    requires CompletedRows(project.payments) != []
    ensures var totals := RunningTotals(PaymentFrame(project.payments));
            totals[|totals| - 1] == CalculateBalance(project).totalPaid
  {
    var data := CompletedRows(project.payments);
    CumsumLast(Amounts(SortByDay(data)));
    SumSortByDay(data);
    TotalPaidIsRowSum(project.payments);
  }

  /** The running-total line of the modification chart ends at the modification cost of `calculate_balance`. */
  lemma ModificationLineEndsAtModsCost(project: Project)
    requires PaidRows(project.modifications) != []
    ensures var totals := RunningTotals(ModificationFrame(project.modifications));
            totals[|totals| - 1] == CalculateBalance(project).modsCost
  {
    var data := PaidRows(project.modifications);
    CumsumLast(Amounts(SortByDay(data)));
    SumSortByDay(data);
    ModsCostIsRowSum(project.modifications);
  }
}
