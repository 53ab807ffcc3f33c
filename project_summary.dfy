/**
 * The project totals shown by the summary card (src/components/ProjectSummary.tsx,
 * calculateTotals): a `reduce` over the features that adds the hours and the cost
 * of every feature carrying an estimation, starting from zero.
 */
module ProjectSummary {
  import opened Wrappers
  import opened ProjectTypes

  datatype Totals = Totals(hours: int, cost: int)

  /** The reducer: a feature with an estimation adds to both totals; one without leaves them. */
  function AddFeature(acc: Totals, feature: UserStory): Totals {
    match feature.estimation
    case Some(e) => Totals(acc.hours + e.hours, acc.cost + e.cost)
    case None => acc
  }

  /** `features.reduce(AddFeature, acc)`: a left fold, first feature first. */
  function Reduce(features: seq<UserStory>, acc: Totals): Totals {
    if features == [] then acc else Reduce(features[1..], AddFeature(acc, features[0]))
  }

  function CalculateTotals(features: seq<UserStory>): Totals {
    Reduce(features, Totals(0, 0))
  }

  // ---------------------------------------------------------------------------
  // A reference definition: the sums over the estimations that are present

  /** The estimations of the features that have one, in list order. */
  function Estimations(features: seq<UserStory>): (es: seq<Estimation>)
    ensures |es| <= |features|
  {
    if features == [] then []
    else
      (match features[0].estimation
       case Some(e) => [e]
       case None => [])
      + Estimations(features[1..])
  }

  function SumHours(es: seq<Estimation>): int {
    if es == [] then 0 else es[0].hours + SumHours(es[1..])
  }

  function SumCost(es: seq<Estimation>): int {
    if es == [] then 0 else es[0].cost + SumCost(es[1..])
  }

  function Plus(a: Totals, b: Totals): Totals {
    Totals(a.hours + b.hours, a.cost + b.cost)
  }

  lemma {:induction false} ReduceAddsSums(features: seq<UserStory>, acc: Totals)
    ensures Reduce(features, acc)
         == Plus(acc, Totals(SumHours(Estimations(features)), SumCost(Estimations(features))))
  {
    if features != [] {
      ReduceAddsSums(features[1..], AddFeature(acc, features[0]));
      var rest := Estimations(features[1..]);
      match features[0].estimation
      case Some(e) =>
        assert ([e] + rest)[1..] == rest;
      case None =>
        assert [] + rest == rest;
    }
  }

  /**
   * The totals are the sum of `estimation.hours` and the sum of `estimation.cost` over
   * the features that have an estimation; with no such feature both are 0.
   */
  lemma TotalsAreSums(features: seq<UserStory>)
    ensures CalculateTotals(features)
         == Totals(SumHours(Estimations(features)), SumCost(Estimations(features)))
    ensures Estimations(features) == [] ==> CalculateTotals(features) == Totals(0, 0)
  {
    ReduceAddsSums(features, Totals(0, 0));
  }

  /** Folding over two lists one after the other is folding over the first, then the second. */
  lemma {:induction false} ReduceAppend(a: seq<UserStory>, b: seq<UserStory>, acc: Totals)
    ensures Reduce(a + b, acc) == Reduce(b, Reduce(a, acc))
  {
    if a == [] {
      assert a + b == b;
    } else {
      assert (a + b)[1..] == a[1..] + b;
      ReduceAppend(a[1..], b, AddFeature(acc, a[0]));
    }
  }

  /** The totals of two lists put together are the sums of their totals. */
  lemma TotalsAppend(a: seq<UserStory>, b: seq<UserStory>)
    ensures CalculateTotals(a + b) == Plus(CalculateTotals(a), CalculateTotals(b))
  {
    ReduceAppend(a, b, Totals(0, 0));
    ReduceAddsSums(b, CalculateTotals(a));
    ReduceAddsSums(b, Totals(0, 0));
  }

  /** A feature without an estimation, wherever it stands, changes neither total. */
  lemma UnestimatedFeatureIgnored(a: seq<UserStory>, feature: UserStory, b: seq<UserStory>)
    requires feature.estimation.None?
    ensures CalculateTotals(a + [feature] + b) == CalculateTotals(a + b)
  {
    assert [feature][1..] == [];
    assert AddFeature(Totals(0, 0), feature) == Totals(0, 0);
    assert Reduce([feature], Totals(0, 0)) == Reduce([], Totals(0, 0));
    TotalsAppend(a + [feature], b);
    TotalsAppend(a, [feature]);
    TotalsAppend(a, b);
  }

  /** What a feature contributes to the hours total. */
  function HoursOf(feature: UserStory): int {
    match feature.estimation
    case Some(e) => e.hours
    case None => 0
  }

  /** What a feature contributes to the cost total. */
  function CostOf(feature: UserStory): int {
    match feature.estimation
    case Some(e) => e.cost
    case None => 0
  }

  lemma {:induction false} ReduceByField(features: seq<UserStory>, acc: Totals)
    ensures Reduce(features, acc).hours == acc.hours + SumOf(features, HoursOf)
    ensures Reduce(features, acc).cost == acc.cost + SumOf(features, CostOf)
  {
    if features != [] {
      ReduceByField(features[1..], AddFeature(acc, features[0]));
    }
  }

  function SumOf(features: seq<UserStory>, f: UserStory -> int): int {
    if features == [] then 0 else f(features[0]) + SumOf(features[1..], f)
  }

  lemma {:induction false} SumOfDependsOnValues(a: seq<UserStory>, b: seq<UserStory>, f: UserStory -> int)
    requires |a| == |b|
    requires forall i :: 0 <= i < |a| ==> f(a[i]) == f(b[i])
    ensures SumOf(a, f) == SumOf(b, f)
  {
    if a != [] {
      SumOfDependsOnValues(a[1..], b[1..], f);
    }
  }

  /**
   * The hours total reads only the hours of the estimations, and the cost total
   * only their cost: lists that agree position by position on one of them agree
   * on that total, whatever else differs.
   */
  lemma TotalsFieldIndependence(a: seq<UserStory>, b: seq<UserStory>)
    requires |a| == |b|
    ensures (forall i :: 0 <= i < |a| ==> HoursOf(a[i]) == HoursOf(b[i]))
            ==> CalculateTotals(a).hours == CalculateTotals(b).hours
    ensures (forall i :: 0 <= i < |a| ==> CostOf(a[i]) == CostOf(b[i]))
            ==> CalculateTotals(a).cost == CalculateTotals(b).cost
  {
    ReduceByField(a, Totals(0, 0));
    ReduceByField(b, Totals(0, 0));
    if forall i :: 0 <= i < |a| ==> HoursOf(a[i]) == HoursOf(b[i]) {
      SumOfDependsOnValues(a, b, HoursOf);
    }
    if forall i :: 0 <= i < |a| ==> CostOf(a[i]) == CostOf(b[i]) {
      SumOfDependsOnValues(a, b, CostOf);
    }
  }
}
