/**
 The data frames of the two charts in plot_utils.py: the rows collected from
 a project's records, sorted by date, with their running (prefix) sum and
 bounds. A row carries a day number, an amount (a payment's amount or a
 modification's cost) and a per-chart extra column `L`: nothing for payments,
 the truncated description for modifications.
 */
module Series {
  import opened Models

  datatype Row<L> = Row(day: int, amount: real, extra: L)

  /** The row `create_payments_chart` collects from a payment. */
  function PaymentRow(p: Payment): Row<()> {
    Row(p.paymentDate, p.amount, ())
  }

  /** The row `create_modifications_chart` collects from a modification. */
  function ModificationRow(m: Modification): Row<string> {
    Row(m.startDate, m.cost, Truncate(m.description))
  }

  /** The description label: at most 20 characters kept, then an ellipsis. */
  function Truncate(description: string): (shown: string)
    ensures |shown| <= 23
    ensures |description| <= 20 ==> shown == description
    ensures |description| > 20 ==> |shown| == 23 && shown[..20] == description[..20] && shown[20..] == "..."
  {
    if |description| > 20 then description[..20] + "..." else description
  }

  /** The rows of the completed payments, in list order. */
  function CompletedRows(payments: seq<Payment>): (rows: seq<Row<()>>)
    ensures |rows| <= |payments|
  {
    if payments == [] then []
    else if IsCompleted(payments[0]) then [PaymentRow(payments[0])] + CompletedRows(payments[1..])
    else CompletedRows(payments[1..])
  }

  /** The rows of the paid modifications, in list order. */
  function PaidRows(modifications: seq<Modification>): (rows: seq<Row<string>>)
    ensures |rows| <= |modifications|
  {
    if modifications == [] then []
    else if modifications[0].isPaid then [ModificationRow(modifications[0])] + PaidRows(modifications[1..])
    else PaidRows(modifications[1..])
  }

  /** The payment frame holds a row for every completed payment and for nothing else. */
  lemma {:induction false} CompletedRowsExactly(payments: seq<Payment>)
    ensures forall r :: r in CompletedRows(payments) ==> exists p :: p in payments && IsCompleted(p) && r == PaymentRow(p)
    ensures forall p :: p in payments && IsCompleted(p) ==> PaymentRow(p) in CompletedRows(payments)
    ensures CompletedRows(payments) == [] <==> forall p :: p in payments ==> !IsCompleted(p)
  {
    if payments != [] {
      CompletedRowsExactly(payments[1..]);
      assert forall p :: p in payments[1..] ==> p in payments;
      assert forall p :: p in payments ==> p == payments[0] || p in payments[1..];
    }
  }

  /** The modification frame holds a row for every paid modification and for nothing else. */
  lemma {:induction false} PaidRowsExactly(modifications: seq<Modification>)
    ensures forall r :: r in PaidRows(modifications) ==> exists m :: m in modifications && m.isPaid && r == ModificationRow(m)
    ensures forall m :: m in modifications && m.isPaid ==> ModificationRow(m) in PaidRows(modifications)
    ensures PaidRows(modifications) == [] <==> forall m :: m in modifications ==> !m.isPaid
  {
    if modifications != [] {
      PaidRowsExactly(modifications[1..]);
      assert forall m :: m in modifications[1..] ==> m in modifications;
      assert forall m :: m in modifications ==> m == modifications[0] || m in modifications[1..];
    }
  }

  lemma {:induction false} CompletedRowsAppend(payments: seq<Payment>, p: Payment)
    ensures CompletedRows(payments + [p]) == CompletedRows(payments) + (if IsCompleted(p) then [PaymentRow(p)] else [])
  {
    if payments != [] {
      assert (payments + [p])[1..] == payments[1..] + [p];
      CompletedRowsAppend(payments[1..], p);
    }
  }

  lemma {:induction false} PaidRowsAppend(modifications: seq<Modification>, m: Modification)
    ensures PaidRows(modifications + [m]) == PaidRows(modifications) + (if m.isPaid then [ModificationRow(m)] else [])
  {
    if modifications != [] {
      assert (modifications + [m])[1..] == modifications[1..] + [m];
      PaidRowsAppend(modifications[1..], m);
    }
  }

  /** The collection loop of `create_payments_chart`. */
  method CollectPayments(payments: seq<Payment>) returns (data: seq<Row<()>>)
    ensures data == CompletedRows(payments)
  {
    data := [];
    for i := 0 to |payments|
      invariant data == CompletedRows(payments[..i])
    {
      CompletedRowsAppend(payments[..i], payments[i]);
      assert payments[..i + 1] == payments[..i] + [payments[i]];
      if payments[i].status == Completed {
        data := data + [PaymentRow(payments[i])];
      }
    }
    assert payments[..|payments|] == payments;
  }

  /** The collection loop of `create_modifications_chart`. */
  method CollectModifications(modifications: seq<Modification>) returns (data: seq<Row<string>>)
    ensures data == PaidRows(modifications)
  {
    data := [];
    for i := 0 to |modifications|
      invariant data == PaidRows(modifications[..i])
    {
      PaidRowsAppend(modifications[..i], modifications[i]);
      assert modifications[..i + 1] == modifications[..i] + [modifications[i]];
      var m := modifications[i];
      if m.isPaid {
        data := data + [Row(m.startDate, m.cost, Truncate(m.description))];
      }
    }
    assert modifications[..|modifications|] == modifications;
  }

  /** The amount column of a frame. */
  function Amounts<L>(rows: seq<Row<L>>): (xs: seq<real>)
    ensures |xs| == |rows|
    ensures forall i :: 0 <= i < |rows| ==> xs[i] == rows[i].amount
  {
    if rows == [] then [] else [rows[0].amount] + Amounts(rows[1..])
  }

  function Sum(xs: seq<real>): real {
    if xs == [] then 0.0 else xs[0] + Sum(xs[1..])
  }

  lemma {:induction false} SumAppend(xs: seq<real>, x: real)
    ensures Sum(xs + [x]) == Sum(xs) + x
  {
    if xs != [] {
      assert (xs + [x])[1..] == xs[1..] + [x];
      SumAppend(xs[1..], x);
    }
  }

  /** The amounts received are the amounts of the collected payment rows. */
  lemma {:induction false} TotalPaidIsRowSum(payments: seq<Payment>)
    ensures TotalPaid(payments) == Sum(Amounts(CompletedRows(payments)))
  {
    if payments != [] {
      TotalPaidIsRowSum(payments[1..]);
      var rest := CompletedRows(payments[1..]);
      if IsCompleted(payments[0]) {
        assert Amounts([PaymentRow(payments[0])] + rest) == [payments[0].amount] + Amounts(rest);
      }
    }
  }

  /** The cost of the paid modifications is the cost of the collected modification rows. */
  lemma {:induction false} ModsCostIsRowSum(modifications: seq<Modification>)
    ensures ModsCost(modifications) == Sum(Amounts(PaidRows(modifications)))
  {
    if modifications != [] {
      ModsCostIsRowSum(modifications[1..]);
      var rest := PaidRows(modifications[1..]);
      if modifications[0].isPaid {
        assert Amounts([ModificationRow(modifications[0])] + rest) == [modifications[0].cost] + Amounts(rest);
      }
    }
  }

  // --- df.sort_values("date") ---

  predicate SortedByDay<L>(rows: seq<Row<L>>) {
    forall i, j :: 0 <= i < j < |rows| ==> rows[i].day <= rows[j].day
  }

  /** Inserts `r` into a frame sorted by day, keeping it sorted. */
  function Insert<L(==)>(r: Row<L>, sorted: seq<Row<L>>): (result: seq<Row<L>>)
    requires SortedByDay(sorted)
    ensures |result| == |sorted| + 1
    ensures SortedByDay(result)
    ensures multiset(result) == multiset(sorted) + multiset{r}
  {
    if sorted == [] || r.day <= sorted[0].day then [r] + sorted
    else
      var rest := Insert(r, sorted[1..]);
      InsertHeadBound(r, sorted, rest);
      assert sorted == [sorted[0]] + sorted[1..];
      [sorted[0]] + rest
  }

  /** What `Insert` puts after the head of a sorted frame is no earlier than that head. */
  lemma InsertHeadBound<L>(r: Row<L>, sorted: seq<Row<L>>, rest: seq<Row<L>>)
    requires SortedByDay(sorted) && |sorted| > 0 && sorted[0].day < r.day
    requires multiset(rest) == multiset(sorted[1..]) + multiset{r}
    ensures forall j :: 0 <= j < |rest| ==> sorted[0].day <= rest[j].day
  {
    forall j | 0 <= j < |rest| ensures sorted[0].day <= rest[j].day {
      assert rest[j] in multiset(rest);
      if rest[j] != r {
        assert rest[j] in multiset(sorted[1..]);
        var k :| 0 <= k < |sorted[1..]| && sorted[1..][k] == rest[j];
        assert sorted[k + 1] == rest[j];
      }
    }
  }

  /** The frame sorted by date: sorted, and a permutation of its input. */
  function SortByDay<L(==)>(rows: seq<Row<L>>): (sorted: seq<Row<L>>)
    ensures |sorted| == |rows|
    ensures SortedByDay(sorted)
    ensures multiset(sorted) == multiset(rows)
  {
    if rows == [] then []
    else
      assert rows == [rows[0]] + rows[1..];
      Insert(rows[0], SortByDay(rows[1..]))
  }

  /** Sorting a frame that is already sorted changes nothing, so sorting is idempotent. */
  lemma {:induction false} SortByDaySorted<L>(rows: seq<Row<L>>)
    requires SortedByDay(rows)
    ensures SortByDay(rows) == rows
  {
    if rows != [] {
      SortByDaySorted(rows[1..]);
      assert rows == [rows[0]] + rows[1..];
    }
  }

  /** The first and last day of a frame lie within those of any frame holding the same rows. */
  lemma DaysWithin<L>(a: seq<Row<L>>, b: seq<Row<L>>)
    requires |a| > 0 && |b| > 0 && multiset(a) == multiset(b)
    ensures MinDay(b) <= MinDay(a) && MaxDay(a) <= MaxDay(b)
  {
    var i :| 0 <= i < |a| && a[i].day == MinDay(a);
    assert a[i] in multiset(b);
    var j :| 0 <= j < |b| && b[j] == a[i];
    var k :| 0 <= k < |a| && a[k].day == MaxDay(a);
    assert a[k] in multiset(b);
    var l :| 0 <= l < |b| && b[l] == a[k];
  }

  /** Two frames holding the same rows have the same first and last day. */
  lemma PermutationDays<L>(a: seq<Row<L>>, b: seq<Row<L>>)
    requires |a| > 0 && multiset(a) == multiset(b)
    ensures |b| > 0
    ensures MinDay(a) == MinDay(b) && MaxDay(a) == MaxDay(b)
  {
    assert |multiset(b)| == |b|;
    DaysWithin(a, b);
    DaysWithin(b, a);
  }

  lemma {:induction false} SumInsert<L>(r: Row<L>, sorted: seq<Row<L>>)
    requires SortedByDay(sorted)
    ensures Sum(Amounts(Insert(r, sorted))) == r.amount + Sum(Amounts(sorted))
  {
    if sorted == [] || r.day <= sorted[0].day {
      assert Amounts([r] + sorted) == [r.amount] + Amounts(sorted);
    } else {
      SumInsert(r, sorted[1..]);
      assert Amounts([sorted[0]] + Insert(r, sorted[1..])) == [sorted[0].amount] + Amounts(Insert(r, sorted[1..]));
      assert Amounts(sorted) == [sorted[0].amount] + Amounts(sorted[1..]);
    }
  }

  /** Sorting moves rows but keeps the total amount. */
  lemma {:induction false} SumSortByDay<L>(rows: seq<Row<L>>)
    ensures Sum(Amounts(SortByDay(rows))) == Sum(Amounts(rows))
  {
    if rows != [] {
      SumSortByDay(rows[1..]);
      SumInsert(rows[0], SortByDay(rows[1..]));
    }
  }

  /** Every amount of a permutation of a non-negative frame is non-negative. */
  lemma SortKeepsNonNegative<L>(rows: seq<Row<L>>)
    requires forall r :: r in rows ==> r.amount >= 0.0
    ensures forall r :: r in SortByDay(rows) ==> r.amount >= 0.0
  {
    forall r | r in SortByDay(rows) ensures r.amount >= 0.0 {
      assert r in multiset(SortByDay(rows));
    }
  }

  // --- df["amount"].cumsum() ---

  /** Running sum of `xs`, starting from `acc`. */
  function CumsumFrom(acc: real, xs: seq<real>): (cs: seq<real>)
    ensures |cs| == |xs|
    decreases xs
  {
    if xs == [] then [] else [acc + xs[0]] + CumsumFrom(acc + xs[0], xs[1..])
  }

  lemma {:induction false} CumsumFromStep(acc: real, xs: seq<real>, i: nat)
    requires 0 < i < |xs|
    ensures CumsumFrom(acc, xs)[i] == CumsumFrom(acc, xs)[i - 1] + xs[i]
    decreases xs
  {
    if i > 1 {
      CumsumFromStep(acc + xs[0], xs[1..], i - 1);
    }
  }

  lemma {:induction false} CumsumFromSum(acc: real, xs: seq<real>, i: nat)
    requires i < |xs|
    ensures CumsumFrom(acc, xs)[i] == acc + Sum(xs[..i + 1])
    decreases xs
  {
    assert xs[..i + 1] == [xs[0]] + xs[1..][..i];
    assert xs[..i + 1][1..] == xs[1..][..i];
    if i > 0 {
      CumsumFromSum(acc + xs[0], xs[1..], i - 1);
    } else {
      assert xs[1..][..0] == [];
    }
  }

  /** `cumsum`: the first element is the first amount, each later one adds its amount. */
  function Cumsum(xs: seq<real>): (cs: seq<real>)
    ensures |cs| == |xs|
    ensures |xs| > 0 ==> cs[0] == xs[0]
    ensures forall i :: 0 < i < |xs| ==> cs[i] == cs[i - 1] + xs[i]
  {
    assert forall i :: 0 < i < |xs| ==> CumsumFrom(0.0, xs)[i] == CumsumFrom(0.0, xs)[i - 1] + xs[i] by {
      forall i | 0 < i < |xs| ensures CumsumFrom(0.0, xs)[i] == CumsumFrom(0.0, xs)[i - 1] + xs[i] {
        CumsumFromStep(0.0, xs, i);
      }
    }
    CumsumFrom(0.0, xs)
  }

  /** Element `i` of the running sum is the sum of the first `i + 1` amounts. */
  lemma CumsumIsPrefixSum(xs: seq<real>, i: nat)
    requires i < |xs|
    ensures Cumsum(xs)[i] == Sum(xs[..i + 1])
  {
    CumsumFromSum(0.0, xs, i);
  }

  /** The last running sum is the sum of all amounts. */
  lemma CumsumLast(xs: seq<real>)
    requires |xs| > 0
    ensures Cumsum(xs)[|xs| - 1] == Sum(xs)
  {
    CumsumIsPrefixSum(xs, |xs| - 1);
    assert xs[..|xs|] == xs;
  }

  /** With non-negative amounts the running sum is non-negative and non-decreasing. */
  lemma {:induction false} CumsumMonotone(xs: seq<real>, i: nat, j: nat)
    requires forall k :: 0 <= k < |xs| ==> xs[k] >= 0.0
    requires i <= j < |xs|
    ensures 0.0 <= Cumsum(xs)[i] <= Cumsum(xs)[j]
    decreases j
  {
    if j > 0 {
      if i < j {
        CumsumMonotone(xs, i, j - 1);
      } else {
        CumsumMonotone(xs, 0, j - 1);
      }
    }
  }

  // --- df[...].max() and df["date"].min() / .max() ---

  function MaxOf(xs: seq<real>): (m: real)
    requires |xs| > 0
    ensures m in xs
    ensures forall i :: 0 <= i < |xs| ==> xs[i] <= m
  {
    if |xs| == 1 then xs[0]
    else
      var rest := MaxOf(xs[1..]);
      assert forall i :: 1 <= i < |xs| ==> xs[i] == xs[1..][i - 1];
      if xs[0] >= rest then xs[0] else rest
  }

  function MinDay<L>(rows: seq<Row<L>>): (d: int)
    requires |rows| > 0
    ensures exists i :: 0 <= i < |rows| && rows[i].day == d
    ensures forall i :: 0 <= i < |rows| ==> d <= rows[i].day
  {
    if |rows| == 1 then rows[0].day
    else
      var rest := MinDay(rows[1..]);
      assert forall i :: 1 <= i < |rows| ==> rows[i] == rows[1..][i - 1];
      if rows[0].day <= rest then rows[0].day else rest
  }

  function MaxDay<L>(rows: seq<Row<L>>): (d: int)
    requires |rows| > 0
    ensures exists i :: 0 <= i < |rows| && rows[i].day == d
    ensures forall i :: 0 <= i < |rows| ==> rows[i].day <= d
  {
    if |rows| == 1 then rows[0].day
    else
      var rest := MaxDay(rows[1..]);
      assert forall i :: 1 <= i < |rows| ==> rows[i] == rows[1..][i - 1];
      if rows[0].day >= rest then rows[0].day else rest
  }

  /** On a sorted frame the date bounds are the first and the last row's day. */
  lemma SortedBounds<L>(rows: seq<Row<L>>)
    requires |rows| > 0 && SortedByDay(rows)
    ensures MinDay(rows) == rows[0].day && MaxDay(rows) == rows[|rows| - 1].day
  {
  }

  /** With non-negative amounts the largest running sum is the last one. */
  lemma MaxCumulativeIsLast(xs: seq<real>)
    requires |xs| > 0
    requires forall k :: 0 <= k < |xs| ==> xs[k] >= 0.0
    ensures MaxOf(Cumsum(xs)) == Cumsum(xs)[|xs| - 1] == Sum(xs)
  {
    var cs := Cumsum(xs);
    forall i | 0 <= i < |xs| ensures cs[i] <= cs[|xs| - 1] {
      CumsumMonotone(xs, i, |xs| - 1);
    }
    CumsumLast(xs);
  }
}
