/**
 Worked examples on the 600 x 160 canvas both charts draw on. Days are
 counted from 1 January 2024 (day 0).
 */
module Scenarios {
  import opened Wrappers
  import opened Models
  import opened Series
  import opened Scaling
  import opened Canvas
  import opened Charts
  import opened ChartFacts

  const Height: int := ChartHeight - TitleHeight

  /** Two completed payments around a pending one. */
  const ThreePayments: seq<Payment> :=
    [Payment(100.0, 0, "completed"), Payment(50.0, 9, "pending"), Payment(200.0, 14, "completed")]

  /** Their payment frame: the pending payment is left out. */
  const TwoRows: seq<Row<()>> := [Row(0, 100.0, ()), Row(14, 200.0, ())]

  /** The payment chart's scale for that frame: 40 pixels a day, 0.4 pixels a unit of money. */
  const TwoRowScale: Scale := Scale(0, 14, 300.0, 40.0, 0.4)

  /** The pending payment counts neither in the balance nor on the chart. */
  lemma ThreePaymentsBalance()
    ensures CalculateBalance(Project(1000.0, ThreePayments, [])) == BalanceSnapshot(1000.0, 300.0, -700.0, 0.0, 1000.0)
    ensures PaymentFrame(ThreePayments) == TwoRows
  {
    assert ThreePayments[1..][1..] == [ThreePayments[2]];
    assert TotalPaid(ThreePayments) == 300.0;
    assert CompletedRows(ThreePayments) == TwoRows;
    SortByDaySorted(TwoRows);
  }

  lemma TwoRowsScale()
    ensures RunningTotals(TwoRows) == [100.0, 300.0]
    ensures PaymentsPlotScale(TwoRows, CanvasWidth, Height) == Success(TwoRowScale)
  {
    assert TwoRows[1..] == [TwoRows[1]];
    assert MinDay(TwoRows) == 0 && MaxDay(TwoRows) == 14;
  }

  lemma TwoRowsMarks()
    ensures PaymentMarks(Height, TwoRowScale, TwoRows, [100.0, 300.0], 2)
            == [ Oval(17.0, 97.0, 23.0, 103.0, Blue),
                 Text(20.0, 90.0, Number(100.0), Black, Arial(8), 0, Center),
                 Oval(577.0, 17.0, 583.0, 23.0, Blue),
                 Line(20.0, 100.0, 580.0, 20.0, Blue),
                 Text(580.0, 10.0, Number(300.0), Black, Arial(8), 0, Center) ]
  {
    var totals := [100.0, 300.0];
    var first := PaymentMark(Height, TwoRowScale, TwoRows, totals, 0);
    assert first == [Oval(17.0, 97.0, 23.0, 103.0, Blue), Text(20.0, 90.0, Number(100.0), Black, Arial(8), 0, Center)];
    assert PaymentMarks(Height, TwoRowScale, TwoRows, totals, 1) == first by {
      assert [] + first == first;
    }
    assert PaymentMark(Height, TwoRowScale, TwoRows, totals, 1)
        == [Oval(577.0, 17.0, 583.0, 23.0, Blue), Line(20.0, 100.0, 580.0, 20.0, Blue),
            Text(580.0, 10.0, Number(300.0), Black, Arial(8), 0, Center)];
  }

  /** The payment chart of those payments: the line climbs from (20, 100) to (580, 20). */
  lemma ThreePaymentsChart()
    ensures PaymentsPicture(ThreePayments, CanvasWidth, Height)
            == Success(Axes(CanvasWidth, Height) + [
                 Oval(17.0, 97.0, 23.0, 103.0, Blue),
                 Text(20.0, 90.0, Number(100.0), Black, Arial(8), 0, Center),
                 Oval(577.0, 17.0, 583.0, 23.0, Blue),
                 Line(20.0, 100.0, 580.0, 20.0, Blue),
                 Text(580.0, 10.0, Number(300.0), Black, Arial(8), 0, Center)])
  {
    ThreePaymentsBalance();
    TwoRowsScale();
    TwoRowsMarks();
  }

  /**
   A single paid modification with a positive cost: one bar 30 pixels wide
   at the left edge of the plot, reaching the top of it, with the running
   total on its top and the truncated description under the axis.
   */
  lemma SingleModification(m: Modification)
    requires m.isPaid && m.cost > 0.0
    ensures ModificationsPicture([m], CanvasWidth, Height)
            == Axes(CanvasWidth, Height) + [
                 Rectangle(5.0, 140.0, 35.0, 20.0, LightBlue, Blue),
                 Oval(17.0, 17.0, 23.0, 23.0, Red),
                 Text(20.0, 10.0, Number(m.cost), Black, Arial(8), 0, Center),
                 Text(20.0, 150.0, Caption(Truncate(m.description)), Black, Arial(8), 45, West)]
  {
    var data := [ModificationRow(m)];
    assert PaidRows([m]) == data;
    assert SortByDay(data) == data;
    var totals := RunningTotals(data);
    assert totals == [m.cost];
    var s := ModificationsPlotScale(data, CanvasWidth, Height);
    ModificationScaleFactors(m.startDate, m.startDate, m.cost, CanvasWidth, Height);
    assert s.minDay == m.startDate && s.xScale == 560.0 && s.dateRange == 1;
    assert s.yScale * m.cost == 120.0;
    assert BarWidth(s, 1) == 30.0;
    assert MapX(s, m.startDate) == 20.0;
    assert MapY(Height, s, m.cost) == 20.0;
    assert ModificationMarks(Height, s, 30.0, data, totals, 1) == ModificationMark(Height, s, 30.0, data, totals, 0);
  }

  /** A 30-character description is cut to its first 20 characters and an ellipsis. */
  lemma LongDescription()
    ensures Truncate("AAAAAAAAAAAAAAAAAAAAAAAAAAAAAA") == "AAAAAAAAAAAAAAAAAAAA..."
  {
  }

  /** A project with no records: both charts show only the placeholder. */
  lemma EmptyProjectCharts()
    ensures PaymentsPicture([], CanvasWidth, Height) == Success([Placeholder(CanvasWidth, Height, NoPaymentsText)])
    ensures ModificationsPicture([], CanvasWidth, Height) == [Placeholder(CanvasWidth, Height, NoModificationsText)]
  {
  }
}
