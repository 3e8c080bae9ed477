/**
 * The portfolio summary (components/Dashboard.tsx): counts, sums and the
 * average over the list of analyses, and the recent-activity slice.
 */
module Dashboard {
  import opened Types

  /** `a.lucro_unitario > 0`; a record without derived fields compares false. */
  predicate Profitable(a: Analise) {
    a.calculados.Some? && a.calculados.value.lucro_unitario > 0.0
  }

  /** `a.lucro_unitario <= 0`; a record without derived fields compares false here too. */
  predicate AtRisk(a: Analise) {
    a.calculados.Some? && a.calculados.value.lucro_unitario <= 0.0
  }

  /** `curr.lucro_unitario || 0`. */
  function LucroUnitarioOuZero(a: Analise): real {
    if a.calculados.Some? then a.calculados.value.lucro_unitario else 0.0
  }

  /** `curr.lucro_mensal || 0`. */
  function LucroMensalOuZero(a: Analise): real {
    if a.calculados.Some? then a.calculados.value.lucro_mensal else 0.0
  }

  /** `profitableItems`: how many analyses have a positive unit profit. */
  function ProfitableItems(s: seq<Analise>): (n: nat)
    ensures n <= |s|
    ensures n == 0 <==> forall a :: a in s ==> !Profitable(a)
  {
    if s == [] then 0 else (if Profitable(s[0]) then 1 else 0) + ProfitableItems(s[1..])
  }

  /** `riskyItems`: how many analyses have a unit profit of 0 or less. */
  function RiskyItems(s: seq<Analise>): (n: nat)
    ensures n <= |s|
    ensures n == 0 <==> forall a :: a in s ==> !AtRisk(a)
  {
    if s == [] then 0 else (if AtRisk(s[0]) then 1 else 0) + RiskyItems(s[1..])
  }

  /** When every analysis carries its derived fields, profitable and at-risk analyses together are all of them. */
  lemma {:induction false} ProfitablePlusRiskyIsTotal(s: seq<Analise>)
    requires forall a :: a in s ==> a.calculados.Some?
    ensures ProfitableItems(s) + RiskyItems(s) == |s|
  {
    if s != [] {
      assert s[0] in s;
      ProfitablePlusRiskyIsTotal(s[1..]);
    }
  }

  /** `totalEstimatedProfit`: the sum of the monthly profits. */
  function TotalEstimatedProfit(s: seq<Analise>): (total: real)
    ensures (forall i :: 0 <= i < |s| ==> LucroMensalOuZero(s[i]) >= 0.0) ==> total >= 0.0
    ensures (forall i :: 0 <= i < |s| ==> LucroMensalOuZero(s[i]) <= 0.0) ==> total <= 0.0
    ensures (forall i :: 0 <= i < |s| ==> s[i].calculados.None?) ==> total == 0.0
  {
    if s == [] then 0.0 else TotalEstimatedProfit(s[..|s| - 1]) + LucroMensalOuZero(s[|s| - 1])
  }

  /** The sum of the unit profits, in the order `reduce` adds them. */
  function SomaLucroUnitario(s: seq<Analise>): real {
    if s == [] then 0.0 else SomaLucroUnitario(s[..|s| - 1]) + LucroUnitarioOuZero(s[|s| - 1])
  }

  /** The projected profit of two lists one after the other is the sum of their projected profits. */
  lemma {:induction false} TotalEstimatedProfitConcat(a: seq<Analise>, b: seq<Analise>)
    ensures TotalEstimatedProfit(a + b) == TotalEstimatedProfit(a) + TotalEstimatedProfit(b)
  {
    if b == [] {
      assert a + b == a;
    } else {
      assert (a + b)[..|a + b| - 1] == a + b[..|b| - 1];
      TotalEstimatedProfitConcat(a, b[..|b| - 1]);
    }
  }

  /** `avgUnitProfit`: the mean unit profit, 0 for an empty list. */
  function AvgUnitProfit(s: seq<Analise>): (avg: real)
    ensures |s| == 0 ==> avg == 0.0
    ensures |s| > 0 ==> avg * (|s| as real) == SomaLucroUnitario(s)
  {
    if |s| > 0 then SomaLucroUnitario(s) / (|s| as real) else 0.0
  }

  /** The sum of `n` values lying in [lo, hi] lies in [n * lo, n * hi]. */
  lemma {:induction false} SumBetweenBounds(s: seq<Analise>, lo: real, hi: real)
    requires forall i :: 0 <= i < |s| ==> lo <= LucroUnitarioOuZero(s[i]) <= hi
    ensures lo * (|s| as real) <= SomaLucroUnitario(s) <= hi * (|s| as real)
  {
    if s != [] {
      var init := s[..|s| - 1];
      var last := LucroUnitarioOuZero(s[|s| - 1]);
      assert forall i :: 0 <= i < |init| ==> init[i] == s[i];
      SumBetweenBounds(init, lo, hi);
      var n := |init| as real;
      var sum := SomaLucroUnitario(init);
      assert SomaLucroUnitario(s) == sum + last;
      assert |s| as real == n + 1.0;
      OneMore(lo, n);
      OneMore(hi, n);
    }
  }

  /** One more term of `x` adds `x` to the product. */
  lemma OneMore(x: real, n: real)
    ensures x * (n + 1.0) == x * n + x
  {
  }

  /** The average lies between the smallest and the largest unit profit. */
  lemma {:induction false} AverageBetweenExtremes(s: seq<Analise>, lo: real, hi: real)
    requires |s| > 0
    requires forall i :: 0 <= i < |s| ==> lo <= LucroUnitarioOuZero(s[i]) <= hi
    ensures lo <= AvgUnitProfit(s) <= hi
  {
    var n := |s| as real;
    SumBetweenBounds(s, lo, hi);
    var avg := AvgUnitProfit(s);
    assert avg * n == SomaLucroUnitario(s);
    CancelPositiveFactor(lo, avg, n);
    CancelPositiveFactor(avg, hi, n);
  }

  /** A positive factor can be cancelled from both sides of an inequality. */
  lemma CancelPositiveFactor(a: real, b: real, n: real)
    requires n > 0.0 && a * n <= b * n
    ensures a <= b
  {
  }

  /** `analyses.slice(0, 5)`: the first five analyses, or all of them when there are fewer. */
  function Recent(s: seq<Analise>): (r: seq<Analise>)
    ensures |r| == if |s| < 5 then |s| else 5
    ensures forall i :: 0 <= i < |r| ==> r[i] == s[i]
  {
    if |s| < 5 then s else s[..5]
  }
}
