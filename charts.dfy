/**
 `create_payments_chart` and `create_modifications_chart`: the data frame of
 each chart and what it draws, first as functions over the project's records
 (the picture), then as the methods that issue the commands one by one.
 */
module Charts {
  import opened Wrappers
  import opened Models
  import opened Series
  import opened Scaling
  import opened Canvas

  const PaymentsTitle: string := "График платежей"
  const ModificationsTitle: string := "График доработок"
  const NoPaymentsText: string := "Нет данных о платежах"
  const NoModificationsText: string := "Нет данных о доработках"

  /** Height of the frame both chart functions create (the `SimpleChart` default). */
  const ChartHeight: int := 200

  // --- Data frames ---

  /** The payment frame after `sort_values("date")`. */
  function PaymentFrame(payments: seq<Payment>): seq<Row<()>> {
    SortByDay(CompletedRows(payments))
  }

  /** The modification frame after `sort_values("date")`. */
  function ModificationFrame(modifications: seq<Modification>): seq<Row<string>> {
    SortByDay(PaidRows(modifications))
  }

  /** The `cumulative` column of a frame. */
  function RunningTotals<L>(rows: seq<Row<L>>): (cumulative: seq<real>)
    ensures |cumulative| == |rows|
  {
    Cumsum(Amounts(rows))
  }

  /** The scale of the payment chart for a non-empty frame. */
  function PaymentsPlotScale(rows: seq<Row<()>>, width: int, height: int): Result<Scale, ChartError>
    requires rows != []
  {
    assert MinDay(rows) <= rows[0].day <= MaxDay(rows);
    PaymentScale(MinDay(rows), MaxDay(rows), MaxOf(RunningTotals(rows)), width, height)
  }

  /** The scale of the modification chart for a non-empty frame. */
  function ModificationsPlotScale(rows: seq<Row<string>>, width: int, height: int): Scale
    requires rows != []
  {
    assert MinDay(rows) <= rows[0].day <= MaxDay(rows);
    ModificationScale(MinDay(rows), MaxDay(rows), MaxOf(RunningTotals(rows)), width, height)
  }

  // --- What is drawn ---

  /** The grey "no data" text at the centre of the canvas. */
  function Placeholder(width: int, height: int, text: string): DrawCommand {
    Text((width / 2) as real, (height / 2) as real, Caption(text), Gray, DefaultFont, 0, Center)
  }

  /** The x axis along the bottom of the plot area, then the y axis along its left side. */
  function Axes(width: int, height: int): seq<DrawCommand> {
    var p := Padding as real;
    var w := width as real;
    var h := height as real;
    [Line(p, h - p, w - p, h - p, Black), Line(p, p, p, h - p, Black)]
  }

  /** The segment from point `k - 1` to point `k` of the payment chart. */
  function PaymentSegment(height: int, s: Scale, rows: seq<Row<()>>, cumulative: seq<real>, k: nat): DrawCommand
    requires 0 < k < |rows| && k < |cumulative|
  {
    Line(MapX(s, rows[k - 1].day), MapY(height, s, cumulative[k - 1]),
         MapX(s, rows[k].day), MapY(height, s, cumulative[k]), Blue)
  }

  /** Point `k` of the payment chart: a marker, the segment back to the previous point, the value. */
  function PaymentMark(height: int, s: Scale, rows: seq<Row<()>>, cumulative: seq<real>, k: nat): seq<DrawCommand>
    requires k < |rows| && k < |cumulative|
  {
    var x := MapX(s, rows[k].day);
    var y := MapY(height, s, cumulative[k]);
    [Oval(x - 3.0, y - 3.0, x + 3.0, y + 3.0, Blue)]
    + (if k == 0 then [] else [PaymentSegment(height, s, rows, cumulative, k)])
    + [Text(x, y - 10.0, Number(cumulative[k]), Black, Arial(8), 0, Center)]
  }

  /** The first `n` points of the payment chart, in frame order. */
  function PaymentMarks(height: int, s: Scale, rows: seq<Row<()>>, cumulative: seq<real>, n: nat): seq<DrawCommand>
    requires n <= |rows| && n <= |cumulative|
  {
    if n == 0 then []
    else PaymentMarks(height, s, rows, cumulative, n - 1) + PaymentMark(height, s, rows, cumulative, n - 1)
  }

  /** The segment from point `k - 1` to point `k` of the running-total line of the modification chart. */
  function ModificationSegment(height: int, s: Scale, rows: seq<Row<string>>, cumulative: seq<real>, k: nat): DrawCommand
    requires 0 < k < |rows| && k < |cumulative|
  {
    Line(MapX(s, rows[k - 1].day), MapY(height, s, cumulative[k - 1]),
         MapX(s, rows[k].day), MapY(height, s, cumulative[k]), Red)
  }

  /**
   Point `k` of the modification chart: the bar of its own cost, the marker of
   the running total, the segment back to the previous point, the cost and
   the rotated description below the x axis.
   */
  function ModificationMark(height: int, s: Scale, barWidth: real, rows: seq<Row<string>>, cumulative: seq<real>, k: nat)
    : seq<DrawCommand>
    requires k < |rows| && k < |cumulative|
  {
    var x := MapX(s, rows[k].day);
    var yCost := MapY(height, s, rows[k].amount);
    var yCum := MapY(height, s, cumulative[k]);
    var baseline := (height - Padding) as real;
    [ Rectangle(x - barWidth / 2.0, baseline, x + barWidth / 2.0, yCost, LightBlue, Blue),
      Oval(x - 3.0, yCum - 3.0, x + 3.0, yCum + 3.0, Red) ]
    + (if k == 0 then [] else [ModificationSegment(height, s, rows, cumulative, k)])
    + [ Text(x, yCost - 10.0, Number(rows[k].amount), Black, Arial(8), 0, Center),
        Text(x, baseline + 10.0, Caption(rows[k].extra), Black, Arial(8), 45, West) ]
  }

  /** The first `n` points of the modification chart, in frame order. */
  function ModificationMarks(height: int, s: Scale, barWidth: real, rows: seq<Row<string>>, cumulative: seq<real>, n: nat)
    : seq<DrawCommand>
    requires n <= |rows| && n <= |cumulative|
  {
    if n == 0 then []
    else ModificationMarks(height, s, barWidth, rows, cumulative, n - 1)
         + ModificationMark(height, s, barWidth, rows, cumulative, n - 1)
  }

  /** What `create_payments_chart` draws for non-empty collected rows, or the division by zero that stops it. */
  function PaymentsPlot(data: seq<Row<()>>, width: int, height: int): Result<seq<DrawCommand>, ChartError>
    requires data != []
  {
    var rows := SortByDay(data);
    var scale := PaymentsPlotScale(rows, width, height);
    if scale.Failure? then Failure(scale.error)
    else Success(Axes(width, height) + PaymentMarks(height, scale.value, rows, RunningTotals(rows), |rows|))
  }

  /** Everything `create_payments_chart` draws on a fresh canvas, or the division by zero that stops it. */
  function PaymentsPicture(payments: seq<Payment>, width: int, height: int): Result<seq<DrawCommand>, ChartError> {
    var data := CompletedRows(payments);
    if data == [] then Success([Placeholder(width, height, NoPaymentsText)]) else PaymentsPlot(data, width, height)
  }

  /** What `create_modifications_chart` draws for non-empty collected rows. */
  function ModificationsPlot(data: seq<Row<string>>, width: int, height: int): seq<DrawCommand>
    requires data != []
  {
    var rows := SortByDay(data);
    var s := ModificationsPlotScale(rows, width, height);
    Axes(width, height) + ModificationMarks(height, s, BarWidth(s, |rows|), rows, RunningTotals(rows), |rows|)
  }

  /** Everything `create_modifications_chart` draws on a fresh canvas. */
  function ModificationsPicture(modifications: seq<Modification>, width: int, height: int): seq<DrawCommand> {
    var data := PaidRows(modifications);
    if data == [] then [Placeholder(width, height, NoModificationsText)] else ModificationsPlot(data, width, height)
  }

  // --- Drawing ---

  /** The drawing loop of `create_payments_chart`, carrying the previous point. */
  method DrawPaymentMarks(chart: SimpleChart, s: Scale, rows: seq<Row<()>>, cumulative: seq<real>)
    requires |rows| == |cumulative|
    modifies chart
    ensures chart.commands == old(chart.commands) + PaymentMarks(chart.canvasHeight, s, rows, cumulative, |rows|)
  {
    var prev: Option<(real, real)> := None;
    for i := 0 to |rows|
      invariant chart.commands == old(chart.commands) + PaymentMarks(chart.canvasHeight, s, rows, cumulative, i)
      invariant prev == if i == 0 then None
                        else Some((MapX(s, rows[i - 1].day), MapY(chart.canvasHeight, s, cumulative[i - 1])))
    {
      ghost var before := chart.commands;
      var x := MapX(s, rows[i].day);
      var y := MapY(chart.canvasHeight, s, cumulative[i]);
      chart.CreateOval(x - 3.0, y - 3.0, x + 3.0, y + 3.0, Blue);
      if prev.Some? {
        chart.CreateLine(prev.value.0, prev.value.1, x, y, Blue);
      }
      prev := Some((x, y));
      chart.CreateText(x, y - 10.0, Number(cumulative[i]), Black, Arial(8), 0, Center);
      assert chart.commands == before + PaymentMark(chart.canvasHeight, s, rows, cumulative, i);
    }
  }

  /** One point of `create_modifications_chart`, given the previous point of the running-total line. */
  method DrawModificationPoint(chart: SimpleChart, s: Scale, barWidth: real, rows: seq<Row<string>>,
                               cumulative: seq<real>, i: nat, prev: Option<(real, real)>)
    returns (point: (real, real))
    requires i < |rows| == |cumulative|
    requires prev == if i == 0 then None
                     else Some((MapX(s, rows[i - 1].day), MapY(chart.canvasHeight, s, cumulative[i - 1])))
    modifies chart
    ensures point == (MapX(s, rows[i].day), MapY(chart.canvasHeight, s, cumulative[i]))
    ensures chart.commands == old(chart.commands) + ModificationMark(chart.canvasHeight, s, barWidth, rows, cumulative, i)
  {
    var baseline := (chart.canvasHeight - Padding) as real;
    var x := MapX(s, rows[i].day);
    var yCost := MapY(chart.canvasHeight, s, rows[i].amount);
    var yCum := MapY(chart.canvasHeight, s, cumulative[i]);
    chart.CreateRectangle(x - barWidth / 2.0, baseline, x + barWidth / 2.0, yCost, LightBlue, Blue);
    chart.CreateOval(x - 3.0, yCum - 3.0, x + 3.0, yCum + 3.0, Red);
    if prev.Some? {
      chart.CreateLine(prev.value.0, prev.value.1, x, yCum, Red);
    }
    chart.CreateText(x, yCost - 10.0, Number(rows[i].amount), Black, Arial(8), 0, Center);
    chart.CreateText(x, baseline + 10.0, Caption(rows[i].extra), Black, Arial(8), 45, West);
    point := (x, yCum);
  }

  /** The drawing loop of `create_modifications_chart`, carrying the previous point. */
  method DrawModificationMarks(chart: SimpleChart, s: Scale, barWidth: real, rows: seq<Row<string>>, cumulative: seq<real>)
    requires |rows| == |cumulative|
    modifies chart
    ensures chart.commands == old(chart.commands) + ModificationMarks(chart.canvasHeight, s, barWidth, rows, cumulative, |rows|)
  {
    var prev: Option<(real, real)> := None;
    for i := 0 to |rows|
      invariant chart.commands == old(chart.commands) + ModificationMarks(chart.canvasHeight, s, barWidth, rows, cumulative, i)
      invariant prev == if i == 0 then None
                        else Some((MapX(s, rows[i - 1].day), MapY(chart.canvasHeight, s, cumulative[i - 1])))
    {
      var point := DrawModificationPoint(chart, s, barWidth, rows, cumulative, i, prev);
      assert ModificationMarks(chart.canvasHeight, s, barWidth, rows, cumulative, i + 1)
          == ModificationMarks(chart.canvasHeight, s, barWidth, rows, cumulative, i)
             + ModificationMark(chart.canvasHeight, s, barWidth, rows, cumulative, i);
      prev := Some(point);
    }
  }

  /** The two axis lines both charts draw first. */
  method DrawAxes(chart: SimpleChart)
    requires chart.commands == []
    modifies chart
    ensures chart.commands == Axes(chart.canvasWidth, chart.canvasHeight)
  {
    var p := Padding as real;
    var w := chart.canvasWidth as real;
    var h := chart.canvasHeight as real;
    chart.CreateLine(p, h - p, w - p, h - p, Black);
    chart.CreateLine(p, p, p, h - p, Black);
  }

  /** Axes and points of the payment chart, after the empty-data check. */
  method DrawPaymentsPlot(chart: SimpleChart, data: seq<Row<()>>) returns (outcome: Outcome<ChartError>)
    requires data != [] && chart.commands == []
    modifies chart
    ensures var r := PaymentsPlot(data, chart.canvasWidth, chart.canvasHeight);
            if r.Success? then outcome == Pass && chart.commands == r.value
            else outcome == Fail(r.error) && chart.commands == []
  {
    var rows := SortByDay(data);
    var scale := PaymentsPlotScale(rows, chart.canvasWidth, chart.canvasHeight);
    if scale.Failure? {
      return Fail(scale.error);
    }
    DrawAxes(chart);
    DrawPaymentMarks(chart, scale.value, rows, RunningTotals(rows));
    outcome := Pass;
  }

  /** `create_payments_chart`: a new chart, drawn, or left empty when the scale divides by zero. */
  method CreatePaymentsChart(project: Project) returns (chart: SimpleChart, outcome: Outcome<ChartError>)
    ensures fresh(chart)
    ensures chart.title == PaymentsTitle
    ensures chart.canvasWidth == CanvasWidth && chart.canvasHeight == ChartHeight - TitleHeight
    ensures match PaymentsPicture(project.payments, chart.canvasWidth, chart.canvasHeight)
            case Success(commands) => outcome == Pass && chart.commands == commands
            case Failure(e) => outcome == Fail(e) && chart.commands == []
  {
    chart := new SimpleChart(PaymentsTitle, ChartHeight);
    var data := CollectPayments(project.payments);
    if |data| == 0 {
      chart.CreateText((chart.canvasWidth / 2) as real, (chart.canvasHeight / 2) as real,
                       Caption(NoPaymentsText), Gray, DefaultFont, 0, Center);
      return chart, Pass;
    }
    outcome := DrawPaymentsPlot(chart, data);
  }

  /** Axes, bars and points of the modification chart, after the empty-data check. */
  method DrawModificationsPlot(chart: SimpleChart, data: seq<Row<string>>)
    requires data != [] && chart.commands == []
    modifies chart
    ensures chart.commands == ModificationsPlot(data, chart.canvasWidth, chart.canvasHeight)
  {
    var rows := SortByDay(data);
    var cumulative := RunningTotals(rows);
    var s := ModificationsPlotScale(rows, chart.canvasWidth, chart.canvasHeight);
    DrawAxes(chart);
    var barWidth := BarWidth(s, |rows|);
    DrawModificationMarks(chart, s, barWidth, rows, cumulative);
  }

  /** `create_modifications_chart`: a new chart, always drawn. */
  method CreateModificationsChart(project: Project) returns (chart: SimpleChart)
    ensures fresh(chart)
    ensures chart.title == ModificationsTitle
    ensures chart.canvasWidth == CanvasWidth && chart.canvasHeight == ChartHeight - TitleHeight
    ensures chart.commands == ModificationsPicture(project.modifications, chart.canvasWidth, chart.canvasHeight)
  {
    chart := new SimpleChart(ModificationsTitle, ChartHeight);
    var data := CollectModifications(project.modifications);
    if |data| == 0 {
      chart.CreateText((chart.canvasWidth / 2) as real, (chart.canvasHeight / 2) as real,
                       Caption(NoModificationsText), Gray, DefaultFont, 0, Center);
      return;
    }
    DrawModificationsPlot(chart, data);
  }
}
