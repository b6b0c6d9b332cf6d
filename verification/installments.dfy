/** The installment schedule handed to the spotlight and its plan total. */
module Installments {

  /** One scheduled payment, fees included. */
  datatype Installment = Installment(totalAmountIncludingFees: real)

  /** The plan total as a left fold from 0, in the order of the schedule:
      `installments.reduce((acc, i) => acc + i.totalAmountIncludingFees, 0)`. */
  function Total(xs: seq<Installment>): real {
    if |xs| == 0 then 0.0
    else Total(xs[..|xs| - 1]) + xs[|xs| - 1].totalAmountIncludingFees
  }

  /** An independent reference sum, folding from the front. */
  function SumFromFront(xs: seq<Installment>): real {
    if |xs| == 0 then 0.0
    else xs[0].totalAmountIncludingFees + SumFromFront(xs[1..])
  }

  predicate NonNegative(xs: seq<Installment>) {
    forall i :: 0 <= i < |xs| ==> xs[i].totalAmountIncludingFees >= 0.0
  }

  /** The reference sum splits over concatenation. */
  lemma {:induction false} SumFromFrontAppend(a: seq<Installment>, b: seq<Installment>)
    ensures SumFromFront(a + b) == SumFromFront(a) + SumFromFront(b)
    decreases |a|
  {
    if |a| == 0 {
      assert a + b == b;
    } else {
      assert (a + b)[1..] == a[1..] + b;
      SumFromFrontAppend(a[1..], b);
    }
  }

  /** Folding from the left and from the front give the same total. */
  lemma {:induction false} TotalIsSumFromFront(xs: seq<Installment>)
    ensures Total(xs) == SumFromFront(xs)
    decreases |xs|
  {
    if |xs| > 0 {
      var init := xs[..|xs| - 1];
      var last := xs[|xs| - 1];
      TotalIsSumFromFront(init);
      assert xs == init + [last];
      SumFromFrontAppend(init, [last]);
      assert SumFromFront([last]) == last.totalAmountIncludingFees by {
        assert [last][1..] == [];
      }
    }
  }

  /** The total splits over concatenation. */
  lemma TotalAppend(a: seq<Installment>, b: seq<Installment>)
    ensures Total(a + b) == Total(a) + Total(b)
  {
    TotalIsSumFromFront(a);
    TotalIsSumFromFront(b);
    TotalIsSumFromFront(a + b);
    SumFromFrontAppend(a, b);
  }

  /** With no negative entries the total is not negative. */
  lemma {:induction false} TotalNonNegative(xs: seq<Installment>)
    requires NonNegative(xs)
    ensures Total(xs) >= 0.0
    decreases |xs|
  {
    if |xs| > 0 {
      TotalNonNegative(xs[..|xs| - 1]);
    }
  }

  /** With no negative entries the total is at least every single entry. */
  lemma {:induction false} TotalBoundsEach(xs: seq<Installment>, i: int)
    requires NonNegative(xs)
    requires 0 <= i < |xs|
    ensures xs[i].totalAmountIncludingFees <= Total(xs)
    decreases |xs|
  {
    var init := xs[..|xs| - 1];
    TotalNonNegative(init);
    if i < |xs| - 1 {
      TotalBoundsEach(init, i);
    }
  }

  /** The reduce loop itself: it accumulates the entries one by one and ends
      with the reference total. */
  method ReduceTotal(xs: seq<Installment>) returns (acc: real)
    ensures acc == SumFromFront(xs)
  {
    acc := 0.0;
    var i := 0;
    while i < |xs|
      invariant 0 <= i <= |xs|
      invariant acc == Total(xs[..i])
    {
      assert xs[..i + 1][..i] == xs[..i];
      acc := acc + xs[i].totalAmountIncludingFees;
      i := i + 1;
    }
    assert xs[..i] == xs;
    TotalIsSumFromFront(xs);
  }
}
