# Freelance project balance and charts

A Dafny model of the financial core of a freelance project tracker. It has
two parts:

- **`Project.calculate_balance`.** This computes the five-field balance
  snapshot of a project from its payments and billable modifications.
- **The chart pipeline of `plot_utils.py`.** `create_payments_chart` and
  `create_modifications_chart` collect the completed payments (or the paid
  modifications), sort them by date and take a running sum. They then
  scale the series onto a 600 x 160 canvas and issue draw commands: axes,
  points, segments, bars and labels. The payment chart divides by zero
  when its data is degenerate.

Modules:

- `Wrappers`: `Option`, `Result` and `Outcome`.
- `Models`:
  - the records;
  - `TotalPaid` and `ModsCost`, the recursive filtered sums;
  - `CalculateBalance`, built from them;
  - lemmas on appending records.
- `Series`: the chart data frame:
  - `CompletedRows` and `PaidRows`, the filter functions;
  - the collection loops `CollectPayments` and `CollectModifications`
    (methods), proved equal to the filter functions;
  - `SortByDay`, an insertion sort, proved sorted and a permutation of its
    input;
  - `Cumsum`, the prefix sum, with its invariants;
  - `MaxOf`, `MinDay` and `MaxDay`.
- `Scaling`:
  - the two scale constructions, `PaymentScale` and `ModificationScale`;
  - `MapX` and `MapY`, which map a day or an amount to pixels, with the
    y axis inverted;
  - `BarWidth`;
  - bounds lemmas.
- `Canvas`: the draw commands, and the `SimpleChart` class. Its
  `commands` field is the sequence of items on its Tk canvas.
- `Charts`:
  - `PaymentsPicture` and `ModificationsPicture`: the picture each chart
    draws, as functions of the project's records;
  - the drawing loops and `create_*` functions, as methods on a `SimpleChart`,
    proved to draw exactly that picture.
- `ChartFacts`: properties of the pictures:
  - the count and position of each kind of command;
  - when the placeholder is drawn;
  - when the payment chart divides by zero;
  - points inside the plot area;
  - that the last running total agrees with `calculate_balance`.
- `Scenarios`: worked examples on the real canvas size.

Modelling choices:

- Dates are whole day numbers and money is an exact `real`.
- A chart row is `Row(day, amount, extra)`. `extra` is empty for payments
  and is the truncated description for modifications.
- Text labels carry the number they show, not its formatted string.
- The payment chart's division by zero is an explicit `Failure(ZeroDivisionError)`.
  The model then draws nothing; this is the model's choice (see "Left out").
- **Guards.** Only `create_modifications_chart` guards its divisions
  (`or 1` at line 136, the conditional at line 140).
  `create_payments_chart` divides unguarded at lines 62-63, so
  `OneDayPaymentsFail` shows that one completed payment, or several on one
  day, makes it fail.
- **Tie order.** `sort_values` does not promise a stable order. The model
  sorts with an insertion sort, but proves only sortedness and permutation.

## Model

| member | source | states |
|---|---|---|
| Models.CalculateBalance | src/db/models.py:42-57 | the snapshot: original cost is the stored cost, amount paid sums the completed payments, modification cost sums the paid modifications, total cost is original plus modification cost, balance is paid minus total cost |
| Models.TotalPaidAppend | src/db/models.py:44-46 | appending a payment adds its amount to the amount paid exactly when its status is "completed" |
| Models.ModsCostAppend | src/db/models.py:47 | appending a modification adds its cost to the modification cost exactly when it is paid |
| Models.TotalPaidWithoutCompleted | src/db/models.py:44-46 | payments that are not completed contribute nothing, whatever their amounts |
| Models.TotalPaidBounds | src/db/models.py:44-46 | with non-negative amounts, the amount paid lies between 0 and the sum of all amounts |
| Models.EmptyProjectBalance | src/db/models.py:42-57 | a project with no records: paid 0, modification cost 0, total cost the base cost, balance minus the base cost |
| Models.AppendPendingPayment | src/db/models.py:44-49 | appending a payment that is not completed leaves the whole snapshot unchanged |
| Models.AppendCompletedPayment | src/db/models.py:44-49 | appending a completed payment raises amount paid and balance by its amount and leaves every cost unchanged |
| Models.AppendUnpaidModification | src/db/models.py:47-49 | appending an unpaid modification leaves the whole snapshot unchanged |
| Models.AppendPaidModification | src/db/models.py:47-49 | appending a paid modification raises modification and total cost by its cost, lowers the balance by as much, and leaves the amount paid unchanged |
| Series.Truncate | src/utils/plot_utils.py:112-114 | a description of at most 20 characters is kept whole; a longer one becomes its first 20 characters and "..."; so a label has at most 23 characters |
| Series.CompletedRowsExactly | src/utils/plot_utils.py:33-38 | every payment row comes from a completed payment, every completed payment gives a row, and the rows are empty exactly when no payment is completed |
| Series.PaidRowsExactly | src/utils/plot_utils.py:105-116 | every modification row comes from a paid modification with its description truncated, every paid modification gives a row, and the rows are empty exactly when none is paid |
| Series.CompletedRowsAppend | src/utils/plot_utils.py:34-38 | one more payment adds one row at the end when it is completed, none otherwise |
| Series.PaidRowsAppend | src/utils/plot_utils.py:106-116 | one more modification adds one row at the end when it is paid, none otherwise |
| Series.CollectPayments | src/utils/plot_utils.py:33-38 | the collection loop returns exactly the completed-payment rows, in list order |
| Series.CollectModifications | src/utils/plot_utils.py:105-116 | the collection loop returns exactly the paid-modification rows, in list order |
| Series.TotalPaidIsRowSum | src/db/models.py:44-46 | the amount paid of `calculate_balance` is the sum of the payment chart's amount column |
| Series.ModsCostIsRowSum | src/db/models.py:47 | the modification cost of `calculate_balance` is the sum of the modification chart's cost column |
| Series.Insert | src/utils/plot_utils.py:51 | inserting a row into a frame sorted by day gives a frame one row longer, still sorted, holding the old rows and the new one |
| Series.SortByDay | src/utils/plot_utils.py:51 | the sorted frame has the same length, is non-decreasing by day, and is a permutation of its input |
| Series.SortByDaySorted | src/utils/plot_utils.py:51 | the model's sort leaves a frame that is already sorted unchanged |
| Series.SumSortByDay | src/utils/plot_utils.py:51-52 | sorting keeps the total of the amount column |
| Series.SortKeepsNonNegative | src/utils/plot_utils.py:51 | sorting a frame with no negative amount gives a frame with no negative amount |
| Series.Cumsum | src/utils/plot_utils.py:52 | the running sum has one entry per amount, starts at the first amount, and each later entry is the previous one plus its own amount |
| Series.CumsumIsPrefixSum | src/utils/plot_utils.py:52 | entry `i` of the running sum is the sum of the first `i + 1` amounts |
| Series.CumsumLast | src/utils/plot_utils.py:52 | the last entry of the running sum is the total |
| Series.CumsumMonotone | src/utils/plot_utils.py:52 | with non-negative amounts, the running sum is non-negative and non-decreasing |
| Series.MaxOf | src/utils/plot_utils.py:55 | the maximum is an entry of the column and no entry exceeds it |
| Series.MaxCumulativeIsLast | src/utils/plot_utils.py:55 | with non-negative amounts, the largest running sum is the last one, which is the total |
| Series.MinDay | src/utils/plot_utils.py:56 | the first day is a day of the frame and no day precedes it |
| Series.MaxDay | src/utils/plot_utils.py:57 | the last day is a day of the frame and no day follows it |
| Series.SortedBounds | src/utils/plot_utils.py:56-57 | in a sorted frame, the first and last days are those of its first and last rows |
| Series.PermutationDays | src/utils/plot_utils.py:56-57 | frames holding the same rows have the same first and last day, so sorting does not move the bounds |
| Scaling.PaymentScale | src/utils/plot_utils.py:55-63 | the payment scale fails with a division by zero exactly when the largest running sum is 0 or the first and last days coincide; otherwise it keeps the first day and the largest sum, and its date range is a positive number of days |
| Scaling.PaymentScaleFactors | src/utils/plot_utils.py:62-63 | the x factor stretches the date range over the plot width (canvas width minus two paddings), the y factor stretches the largest sum over the plot height |
| Scaling.ModificationScale | src/utils/plot_utils.py:133-141 | the date range is the day difference, or 1 when all days coincide (so always at least 1); the y factor is 1 when the largest running sum is not positive |
| Scaling.ModificationScaleFactors | src/utils/plot_utils.py:140-141 | the x factor stretches the date range over the plot width; for a positive largest sum the y factor stretches it over the plot height |
| Scaling.XInBounds | src/utils/plot_utils.py:80 | every day from the first to the first plus the date range maps to an x between the padding and the canvas width minus the padding |
| Scaling.YInBounds | src/utils/plot_utils.py:81 | every amount from 0 to a positive largest sum maps to a y between the padding and the canvas height minus the padding |
| Scaling.YDecreasing | src/utils/plot_utils.py:81 | the y axis is inverted: with a positive y factor a larger amount maps to a strictly smaller y |
| Scaling.YNonIncreasing | src/utils/plot_utils.py:161-162 | with a non-negative y factor a larger amount never maps to a larger y |
| Scaling.PaymentPointBounds | src/utils/plot_utils.py:80-81 | under a successful payment scale, a day between the bounds and running sums between 0 and the largest map inside the plot area, the larger sum no lower |
| Scaling.ModificationPointBounds | src/utils/plot_utils.py:160-162 | under the modification scale, a day between the bounds, a cost and a running sum no smaller than it map inside the plot area, the sum's marker no lower than the bar top |
| Scaling.BarWidthFormula | src/utils/plot_utils.py:156 | the bar width is min(30, plot width / count - 5), never more than 30, and 30 for a single point on any plot at least 35 pixels wide |
| Scaling.ModificationBarWidthFormula | src/utils/plot_utils.py:156 | the same formula and bounds for the modification chart's own scale |
| Scaling.BarWidthNegative | src/utils/plot_utils.py:156 | the bar width has no lower bound: more than 112 points on the 560-pixel plot give a negative width |
| Canvas.SimpleChart.constructor | src/utils/plot_utils.py:6-11 | a new chart keeps its title, its canvas is 600 pixels wide and 40 pixels less high than the frame, and nothing is drawn |
| Canvas.SimpleChart.Clear | src/utils/plot_utils.py:23-25 | clearing deletes every item on the canvas |
| Canvas.SimpleChart.CreateLine | src/utils/plot_utils.py:66-75 | a line is added after the items already on the canvas |
| Canvas.SimpleChart.CreateOval | src/utils/plot_utils.py:84 | an oval is added after the items already on the canvas |
| Canvas.SimpleChart.CreateRectangle | src/utils/plot_utils.py:165-172 | a rectangle is added after the items already on the canvas |
| Canvas.SimpleChart.CreateText | src/utils/plot_utils.py:41-46 | a text item is added after the items already on the canvas |
| Charts.DrawAxes | src/utils/plot_utils.py:65-75 | on an empty canvas, draws the x axis along the bottom of the plot area, then the y axis along its left side |
| Charts.DrawPaymentMarks | src/utils/plot_utils.py:78-95 | the loop carrying the previous point appends, point by point, an oval, the segment back to the previous point (not for the first) and the value label |
| Charts.DrawModificationPoint | src/utils/plot_utils.py:159-196 | one iteration appends the cost bar, the running-total oval, the segment back to the previous point (not for the first), the cost label and the rotated description, and returns the new previous point |
| Charts.DrawModificationMarks | src/utils/plot_utils.py:157-196 | the loop appends the commands of every point, in frame order |
| Charts.DrawPaymentsPlot | src/utils/plot_utils.py:49-97 | after the sort, either the scale divides by zero and nothing is drawn, or the axes and every point are drawn |
| Charts.CreatePaymentsChart | src/utils/plot_utils.py:28-97 | a new 600 x 160 chart titled "График платежей" that holds exactly the payment picture, or is empty with the division-by-zero outcome |
| Charts.DrawModificationsPlot | src/utils/plot_utils.py:127-198 | after the sort, the axes and every point of the modification chart are drawn |
| Charts.CreateModificationsChart | src/utils/plot_utils.py:100-198 | a new 600 x 160 chart titled "График доработок" that holds exactly the modification picture |
| ChartFacts.AxesShape | src/utils/plot_utils.py:65-75 | the axes are two lines and nothing else |
| ChartFacts.PaymentMarkShape | src/utils/plot_utils.py:83-95 | one payment point is an oval and a label, plus the segment back to the previous point (second) except for the first point |
| ChartFacts.PaymentMarksLayout | src/utils/plot_utils.py:78-95 | n payment points give 3n - 1 commands: n ovals, n labels, n - 1 segments, no rectangle |
| ChartFacts.PaymentSegmentsAt | src/utils/plot_utils.py:86-90 | command 3k of the payment points is the segment from point k - 1 to point k |
| ChartFacts.ModificationMarkShape | src/utils/plot_utils.py:164-196 | one modification point is a bar, an oval and two labels, plus the segment back to the previous point (third) except for the first point |
| ChartFacts.ModificationMarksLayout | src/utils/plot_utils.py:157-196 | n modification points give 5n - 1 commands: n bars, n ovals, 2n labels, n - 1 segments |
| ChartFacts.ModificationSegmentsAt | src/utils/plot_utils.py:177-181 | command 5k + 1 of the modification points is the segment from point k - 1 to point k |
| ChartFacts.PaymentsPlaceholderIff | src/utils/plot_utils.py:40-47 | the payment chart draws only the grey placeholder at the canvas centre exactly when no payment is completed |
| ChartFacts.ModificationsPlaceholderIff | src/utils/plot_utils.py:118-125 | the modification chart draws only the grey placeholder at the canvas centre exactly when no modification is paid |
| ChartFacts.PaymentsPictureShape | src/utils/plot_utils.py:65-96 | a drawn payment chart of n points is the two axes followed by 3n - 1 commands: n + 1 lines, n ovals, n labels |
| ChartFacts.ModificationsPictureShape | src/utils/plot_utils.py:143-196 | a modification chart of n points is the two axes followed by 5n - 1 commands: n + 1 lines, n ovals, n bars, 2n labels |
| ChartFacts.ModificationBarWidth | src/utils/plot_utils.py:156 | the chart's bar width is min(30, plot width / n - 5), at most 30, and 30 for one modification on the 600-pixel canvas |
| ChartFacts.PeakIsTotal | src/utils/plot_utils.py:55 | with no negative amount, the largest running sum of the sorted frame is the frame's total |
| ChartFacts.PaymentsFailureIff | src/utils/plot_utils.py:55-63 | with no negative completed amount, the payment chart divides by zero exactly when some payment is completed and either the amount paid is 0 or all completed payments share one day |
| ChartFacts.OneDayPaymentsFail | src/utils/plot_utils.py:56-63 | completed payments that all fall on one day, a single one included, make the payment chart divide by zero |
| ChartFacts.PaymentPointsInPlot | src/utils/plot_utils.py:79-81 | on a drawn payment chart with no negative completed amount, every point lies in the plot area and a later point is never drawn lower than an earlier one |
| ChartFacts.ModificationPointsInPlot | src/utils/plot_utils.py:159-162 | with no negative paid cost, every point and bar top of the modification chart lies in the plot area and no bar rises above the marker at its day |
| ChartFacts.PaymentLineEndsAtTotalPaid | src/utils/plot_utils.py:50-52 | the last running total of the payment chart is the amount paid of `calculate_balance` |
| ChartFacts.ModificationLineEndsAtModsCost | src/utils/plot_utils.py:128-130 | the last running total of the modification chart is the modification cost of `calculate_balance` |
| Scenarios.ThreePaymentsBalance | src/db/models.py:44-49 | payments of 100 (completed), 50 (pending) and 200 (completed) on a base of 1000: paid 300, balance -700, and the frame holds only the two completed payments |
| Scenarios.TwoRowsScale | src/utils/plot_utils.py:52-63 | those two rows give running sums 100 and 300, 40 pixels a day and 0.4 pixels a unit of money |
| Scenarios.TwoRowsMarks | src/utils/plot_utils.py:78-95 | their points are drawn at (20, 100) and (580, 20), with one segment between them |
| Scenarios.ThreePaymentsChart | src/utils/plot_utils.py:28-97 | the complete payment picture of those three payments |
| Scenarios.SingleModification | src/utils/plot_utils.py:100-198 | one paid modification of positive cost: a 30-pixel bar at the left edge up to the top of the plot, its marker on top, its cost and truncated description |
| Scenarios.LongDescription | src/utils/plot_utils.py:112-114 | a 30-character description is shown as its first 20 characters and "..." |
| Scenarios.EmptyProjectCharts | src/utils/plot_utils.py:40-47 | a project with no records gets the placeholder on both charts |

## Left out

- The GUI forms and main window, the CRUD layer and `run.py`: these are widget trees, session calls and process start-up, with no logic of the core.
- The ORM column declarations, relationships and `init_db` of `models.py`: schema and engine set-up only.
- `SimpleChart`'s title label, packing and Tk widget parent: presentation only. The model keeps the title and the canvas size.
- Floating point: amounts and scale factors are exact reals, so IEEE rounding is not modelled.
- Scaling.PaymentScale: a zero largest running sum is modelled as the same division-by-zero error as a zero date range. In the source, line 62 is a floating-point division, which yields an infinite y factor rather than raising. When the date range is positive, the source then goes on to draw both axes (lines 66-75) and computes each point's y with that infinite factor at line 81, giving NaN for a zero running sum. The model does not capture that partial drawing.
- Charts.CreatePaymentsChart: on a division by zero the source raises and returns no chart. The model returns the new chart, still empty, and a `Fail` outcome.
- The thousands-grouped `:,.0f` label format: a label carries the number it shows, not its formatted text.
- Fonts, colours, angle and anchor are attributes of a draw command. How Tk renders them is not modelled.
- Time of day: a date is a whole day number. The source's `.days` truncation of a time difference is therefore not modelled.
- Series.SortByDay: the order of rows that share a date is the model's own. The source's sort does not fix it, so nothing is proved about it.
- The computation leaves the payment and modification lists unchanged in the model trivially, since every record is an immutable value. There is no separate lemma for it.
