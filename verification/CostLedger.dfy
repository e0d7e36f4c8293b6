/** CostLedger: refuses a charge that would cross a budget, and keeps exact totals. */
module CostLedger {
  import opened Records
  import opened Policy

  datatype Charge = Charge(amount: real, iteration: nat)

  datatype ChargeOutcome = Charged | NegativeAmount | IterationBudget | TotalBudget

  /** The order of the checks matters: the per-iteration limit is reported first. */
  function Guard(limits: Limits, iterationSoFar: real, totalSoFar: real, amount: real): ChargeOutcome {
    if amount < 0.0 then NegativeAmount
    else if iterationSoFar + amount > limits.perIteration + EPSILON then IterationBudget
    else if totalSoFar + amount > limits.total + EPSILON then TotalBudget
    else Charged
  }

  function Sum(charges: seq<Charge>): real {
    if charges == [] then 0.0 else Sum(charges[..|charges| - 1]) + charges[|charges| - 1].amount
  }

  function Of(charges: seq<Charge>, iteration: nat): seq<Charge> {
    if charges == [] then []
    else
      var last := charges[|charges| - 1];
      Of(charges[..|charges| - 1], iteration) + if last.iteration == iteration then [last] else []
  }

  /** What one iteration was charged. */
  function Share(charges: seq<Charge>, iteration: nat): real {
    Sum(Of(charges, iteration))
  }

  lemma SumOneMore(charges: seq<Charge>, c: Charge)
    ensures Sum(charges + [c]) == Sum(charges) + c.amount
  {
    assert (charges + [c])[..|charges|] == charges;
  }

  lemma ShareOneMore(charges: seq<Charge>, c: Charge, i: nat)
    ensures Share(charges + [c], i) == Share(charges, i) + if c.iteration == i then c.amount else 0.0
  {
    assert (charges + [c])[..|charges|] == charges;
    if c.iteration == i {
      SumOneMore(Of(charges, i), c);
    } else {
      assert Of(charges + [c], i) == Of(charges, i) + [] == Of(charges, i);
    }
  }

  class CostLedger {
    const limits: Limits
    const maxFailures: nat
    ghost const opening: real
    ghost var charges: seq<Charge>
    var total: real
    var byIteration: map<nat, real>
    var failures: nat

    /** The totals are exactly what was charged, and no charge went past a limit. */
    ghost predicate Valid()
      reads this
    {
      && total == opening + Sum(charges)
      && (forall i :: i in byIteration ==> byIteration[i] == Share(charges, i) && byIteration[i] <= limits.perIteration + EPSILON)
      && (forall i: nat :: i !in byIteration ==> Share(charges, i) == 0.0)
      && (charges != [] ==> total <= limits.total + EPSILON)
      && (forall i :: 0 <= i < |charges| ==> 0.0 <= charges[i].amount)
    }

    constructor (limits: Limits, maxFailures: nat, opening: real)
      ensures Valid() && this.limits == limits && this.maxFailures == maxFailures && this.opening == opening
      ensures total == opening && charges == [] && byIteration == map[] && failures == 0
    {
      this.limits, this.maxFailures, this.opening := limits, maxFailures, opening;
      total, byIteration, failures, charges := opening, map[], 0, [];
    }

    function IterationTotal(iteration: nat): real
      reads this
    {
      if iteration in byIteration then byIteration[iteration] else 0.0
    }

    /** `charge`: all or nothing. */
    method ChargeAmount(amount: real, iteration: nat) returns (out: ChargeOutcome)
      requires Valid()
      modifies this
      ensures Valid() && failures == old(failures)
      ensures out == Guard(limits, old(IterationTotal(iteration)), old(total), amount)
      ensures out == Charged ==> charges == old(charges) + [Charge(amount, iteration)]
      ensures out == Charged ==> total == old(total) + amount
      ensures out == Charged ==> byIteration == old(byIteration)[iteration := old(IterationTotal(iteration)) + amount]
      ensures out != Charged ==> charges == old(charges) && total == old(total) && byIteration == old(byIteration)
    {
      hide Sum, Share;
      if amount < 0.0 {
        return NegativeAmount;
      }
      var nextIteration := IterationTotal(iteration) + amount;
      var nextTotal := total + amount;
      if nextIteration > limits.perIteration + EPSILON {
        return IterationBudget;
      }
      if nextTotal > limits.total + EPSILON {
        return TotalBudget;
      }
      var charge := Charge(amount, iteration);
      SumOneMore(charges, charge);
      forall i: nat
        ensures Share(charges + [charge], i) == Share(charges, i) + if i == iteration then amount else 0.0
      {
        ShareOneMore(charges, charge, i);
      }
      byIteration := byIteration[iteration := nextIteration];
      total := nextTotal;
      charges := charges + [charge];
      return Charged;
    }

    /** `record_api_failure`: opens the circuit at the configured run of failures. */
    method RecordFailure() returns (open: bool)
      requires Valid()
      modifies this`failures
      ensures Valid() && failures == old(failures) + 1 && (open <==> failures >= maxFailures)
    {
      failures := failures + 1;
      open := failures >= maxFailures;
    }

    method RecordSuccess()
      requires Valid()
      modifies this`failures
      ensures Valid() && failures == 0
    {
      failures := 0;
    }
  }

  // ---- Conservation across iterations ----

  function SumUpTo(charges: seq<Charge>, n: nat): real {
    if n == 0 then 0.0 else SumUpTo(charges, n - 1) + Share(charges, n - 1)
  }

  lemma {:induction false} NothingOf(n: nat)
    ensures SumUpTo([], n) == 0.0
  {
    if n > 0 { NothingOf(n - 1); }
  }

  lemma {:induction false} SumUpToOneMore(charges: seq<Charge>, c: Charge, n: nat)
    ensures SumUpTo(charges + [c], n) == SumUpTo(charges, n) + if c.iteration < n then c.amount else 0.0
  {
    hide Share;
    if n > 0 {
      SumUpToOneMore(charges, c, n - 1);
      ShareOneMore(charges, c, n - 1);
    }
  }

  /** The run total is the sum over iterations of what each was charged: no charge is lost
      or counted for two iterations. */
  lemma {:induction false} TotalIsSumOverIterations(charges: seq<Charge>, n: nat)
    requires forall i :: 0 <= i < |charges| ==> charges[i].iteration < n
    ensures SumUpTo(charges, n) == Sum(charges)
  {
    hide SumUpTo;
    if charges == [] {
      NothingOf(n);
    } else {
      var rest, last := charges[..|charges| - 1], charges[|charges| - 1];
      TotalIsSumOverIterations(rest, n);
      SumUpToOneMore(rest, last, n);
      assert rest + [last] == charges;
    }
  }
}
