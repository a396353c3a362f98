/**
 The financial snapshot of a project (`Project.calculate_balance`).
 Amounts are exact reals; a date is a whole day number.
 */
module Models {

  /** A payment record of a project. */
  datatype Payment = Payment(amount: real, paymentDate: int, status: string)

  /** A billable modification of a project. */
  datatype Modification = Modification(description: string, cost: real, startDate: int, isPaid: bool)

  /** The fields of a project that the balance and the charts read. */
  datatype Project = Project(totalCost: real, payments: seq<Payment>, modifications: seq<Modification>)

  /** The dictionary returned by `calculate_balance`, one field per key. */
  datatype BalanceSnapshot = BalanceSnapshot(
    totalCost: real, totalPaid: real, balance: real, modsCost: real, originalCost: real)

  /** The only payment status that counts as money received. */
  const Completed: string := "completed"

  predicate IsCompleted(p: Payment) {
    p.status == Completed
  }

  /** Sum of the amounts of the completed payments, in list order. */
  function TotalPaid(payments: seq<Payment>): real {
    if payments == [] then 0.0
    else if IsCompleted(payments[0]) then payments[0].amount + TotalPaid(payments[1..])
    else TotalPaid(payments[1..])
  }

  /** Sum of the costs of the paid modifications, in list order. */
  function ModsCost(modifications: seq<Modification>): real {
    if modifications == [] then 0.0
    else if modifications[0].isPaid then modifications[0].cost + ModsCost(modifications[1..])
    else ModsCost(modifications[1..])
  }

  /** `Project.calculate_balance`: a pure function of the project's records. */
  function CalculateBalance(project: Project): (b: BalanceSnapshot)
    ensures b.originalCost == project.totalCost
    ensures b.totalPaid == TotalPaid(project.payments)
    ensures b.modsCost == ModsCost(project.modifications)
    ensures b.totalCost == b.originalCost + b.modsCost
    ensures b.balance == b.totalPaid - b.totalCost
  {
    var totalPaid := TotalPaid(project.payments);
    var modsCost := ModsCost(project.modifications);
    var totalCost := project.totalCost + modsCost;
    var balance := totalPaid - totalCost;
    BalanceSnapshot(totalCost, totalPaid, balance, modsCost, project.totalCost)
  }

  /** Adding one payment at the end adds its amount exactly when it is completed. */
  lemma {:induction false} TotalPaidAppend(payments: seq<Payment>, p: Payment)
    ensures TotalPaid(payments + [p]) == TotalPaid(payments) + (if IsCompleted(p) then p.amount else 0.0)
  {
    if payments != [] {
      assert (payments + [p])[1..] == payments[1..] + [p];
      TotalPaidAppend(payments[1..], p);
    }
  }

  /** Adding one modification at the end adds its cost exactly when it is paid. */
  lemma {:induction false} ModsCostAppend(modifications: seq<Modification>, m: Modification)
    ensures ModsCost(modifications + [m]) == ModsCost(modifications) + (if m.isPaid then m.cost else 0.0)
  {
    if modifications != [] {
      assert (modifications + [m])[1..] == modifications[1..] + [m];
      ModsCostAppend(modifications[1..], m);
    }
  }

  /** Payments that are not completed contribute nothing, whatever their amount. */
  lemma {:induction false} TotalPaidWithoutCompleted(payments: seq<Payment>)
    requires forall p :: p in payments ==> !IsCompleted(p)
    ensures TotalPaid(payments) == 0.0
  {
    if payments != [] {
      assert payments[0] in payments;
      assert forall p :: p in payments[1..] ==> p in payments;
      TotalPaidWithoutCompleted(payments[1..]);
    }
  }

  /** With non-negative amounts the amount received is non-negative and at most the sum of all amounts. */
  lemma {:induction false} TotalPaidBounds(payments: seq<Payment>)
    requires forall p :: p in payments ==> p.amount >= 0.0
    ensures 0.0 <= TotalPaid(payments) <= AllAmounts(payments)
  {
    if payments != [] {
      assert payments[0] in payments;
      assert forall p :: p in payments[1..] ==> p in payments;
      TotalPaidBounds(payments[1..]);
    }
  }

  /** Sum of every payment amount, whatever its status. */
  function AllAmounts(payments: seq<Payment>): real {
    if payments == [] then 0.0 else payments[0].amount + AllAmounts(payments[1..])
  }

  /** A project with no records owes exactly its base cost. */
  lemma EmptyProjectBalance(base: real)
    ensures CalculateBalance(Project(base, [], [])) == BalanceSnapshot(base, 0.0, -base, 0.0, base)
  {
  }

  /** Appending a payment that is not completed leaves the snapshot unchanged. */
  lemma AppendPendingPayment(project: Project, p: Payment)
    requires !IsCompleted(p)
    ensures CalculateBalance(project.(payments := project.payments + [p])) == CalculateBalance(project)
  {
    TotalPaidAppend(project.payments, p);
  }

  /** Appending a completed payment raises the amount paid and the balance by its amount; the costs stay. */
  lemma AppendCompletedPayment(project: Project, p: Payment)
    requires IsCompleted(p)
    ensures var before := CalculateBalance(project);
            var after := CalculateBalance(project.(payments := project.payments + [p]));
            && after.totalPaid == before.totalPaid + p.amount
            && after.balance == before.balance + p.amount
            && after.totalCost == before.totalCost
            && after.modsCost == before.modsCost
            && after.originalCost == before.originalCost
  {
    TotalPaidAppend(project.payments, p);
  }

  /** Appending an unpaid modification leaves the snapshot unchanged. */
  lemma AppendUnpaidModification(project: Project, m: Modification)
    requires !m.isPaid
    ensures CalculateBalance(project.(modifications := project.modifications + [m])) == CalculateBalance(project)
  {
    ModsCostAppend(project.modifications, m);
  }

  /** Appending a paid modification raises the total cost by its cost and lowers the balance by as much. */
  lemma AppendPaidModification(project: Project, m: Modification)
    requires m.isPaid
    ensures var before := CalculateBalance(project);
            var after := CalculateBalance(project.(modifications := project.modifications + [m]));
            && after.modsCost == before.modsCost + m.cost
            && after.totalCost == before.totalCost + m.cost
            && after.balance == before.balance - m.cost
            && after.totalPaid == before.totalPaid
            && after.originalCost == before.originalCost
  {
    ModsCostAppend(project.modifications, m);
  }
}
