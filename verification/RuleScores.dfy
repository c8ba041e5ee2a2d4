/** The deterministic match score: a weighted mean of nine components, each between 0 and 100. */
module RuleScores {
  import opened Prelude
  import opened RuleComponents
  import opened Tenths

  datatype Weights = Weights(
    role: real, skill: real, experience: real, location: real, salary: real,
    workMode: real, industry: real, company: real, watchlist: real)

  const DEFAULTS := Weights(0.25, 0.25, 0.15, 0.10, 0.10, 0.05, 0.05, 0.05, 0.10)

  predicate NonNegative(w: Weights) {
    w.role >= 0.0 && w.skill >= 0.0 && w.experience >= 0.0 && w.location >= 0.0 && w.salary >= 0.0
    && w.workMode >= 0.0 && w.industry >= 0.0 && w.company >= 0.0 && w.watchlist >= 0.0
  }

  /** The nine weights and the nine values, in one order; the watchlist comes last. */
  function Shares(w: Weights): (r: seq<real>)
    ensures |r| == 9 && r[8] == w.watchlist
    ensures NonNegative(w) ==> forall i :: 0 <= i < |r| ==> r[i] >= 0.0
  {
    [w.role, w.skill, w.experience, w.location, w.salary, w.workMode, w.industry, w.company, w.watchlist]
  }

  function Values(c: Components): (r: seq<real>)
    ensures |r| == 9 && forall i :: 0 <= i < |r| ==> 0.0 <= r[i] <= 100.0
  {
    [c.role, c.skill, c.experience, c.location, c.salary, c.workMode, c.industry, c.company,
     if c.watchlist.Some? then c.watchlist.value else NEUTRAL]
  }

  function Total(shares: seq<real>): (r: real)
    ensures (forall i :: 0 <= i < |shares| ==> shares[i] >= 0.0) ==> r >= 0.0
  {
    if shares == [] then 0.0 else Total(shares[..|shares| - 1]) + shares[|shares| - 1]
  }

  function WeightedSum(shares: seq<real>, values: seq<real>): real
    requires |shares| == |values|
  {
    if shares == [] then 0.0
    else
      var n := |shares| - 1;
      WeightedSum(shares[..n], values[..n]) + Product(shares[n], values[n])
  }

  function Mean(w: Weights, c: Components): real {
    var total := Total(Shares(w));
    if total == 0.0 then 0.0 else WeightedSum(Shares(w), Values(c)) / total
  }

  function Overall(w: Weights, c: Components, round: Rounding): real {
    if Total(Shares(w)) == 0.0 then 0.0 else round(Mean(w, c))
  }

  ghost predicate NoBetter(a: Components, b: Components) {
    forall i :: 0 <= i < 9 ==> Values(a)[i] <= Values(b)[i]
  }

  lemma Distribute(a: real, b: real, v: real)
    ensures Product(a + b, v) == Product(a, v) + Product(b, v)
  {
  }

  lemma {:induction false} SumMonotone(shares: seq<real>, a: seq<real>, b: seq<real>)
    requires |shares| == |a| == |b| && forall i :: 0 <= i < |shares| ==> shares[i] >= 0.0 && a[i] <= b[i]
    ensures WeightedSum(shares, a) <= WeightedSum(shares, b)
    decreases |shares|
  {
    if shares != [] {
      var n := |shares| - 1;
      SumMonotone(shares[..n], a[..n], b[..n]);
      ProductOrder(shares[n], a[n], b[n]);
    }
  }

  lemma {:induction false} SumOfEqual(shares: seq<real>, values: seq<real>, v: real)
    requires |shares| == |values| && forall i :: 0 <= i < |values| ==> values[i] == v
    ensures WeightedSum(shares, values) == Product(Total(shares), v)
    decreases |shares|
  {
    if shares != [] {
      var n := |shares| - 1;
      SumOfEqual(shares[..n], values[..n], v);
      Distribute(Total(shares[..n]), shares[n], v);
    }
  }

  /** Improving any components never lowers the overall score, rounding included. */
  lemma OverallIsMonotone(w: Weights, a: Components, b: Components, round: Rounding)
    requires NonNegative(w) && NoBetter(a, b)
    ensures Mean(w, a) <= Mean(w, b) && Overall(w, a, round) <= Overall(w, b, round)
  {
    SumMonotone(Shares(w), Values(a), Values(b));
    if Total(Shares(w)) != 0.0 {
      DivisionOrder(WeightedSum(Shares(w), Values(a)), WeightedSum(Shares(w), Values(b)), Total(Shares(w)));
    }
  }

  function Flat(value: Score): Components {
    Components(value, value, value, value, value, value, value, value, Some(value))
  }

  lemma FlatMean(w: Weights, value: Score)
    requires Total(Shares(w)) > 0.0
    ensures Mean(w, Flat(value)) == value
  {
    SumOfEqual(Shares(w), Values(Flat(value)), value);
  }

  /** The overall score lies between the worst and the best component, so it is a score itself. */
  lemma OverallIsBetween(w: Weights, c: Components, low: Score, high: Score, round: Rounding)
    requires NonNegative(w) && Total(Shares(w)) > 0.0 && NoBetter(Flat(low), c) && NoBetter(c, Flat(high))
    ensures low <= Mean(w, c) <= high
    ensures 0.0 <= Overall(w, c, round) <= 100.0
  {
    OverallIsMonotone(w, Flat(low), c, round);
    OverallIsMonotone(w, c, Flat(high), round);
    FlatMean(w, low);
    FlatMean(w, high);
    WholeNumbersStay(round, 0);
    WholeNumbersStay(round, 100);
  }

  /** The part of `delta` points that a weight passes on. */
  function Passed(weight: real, delta: real, total: real): real
    requires total > 0.0
  {
    Product(weight, delta) / total
  }

  lemma Shift(a: real, weight: real, delta: real, total: real)
    requires total > 0.0 && weight >= 0.0 && -50.0 <= delta <= 50.0
    ensures (a + Product(weight, delta)) / total - a / total == Passed(weight, delta, total)
    ensures -Passed(weight, 50.0, total) <= Passed(weight, delta, total) <= Passed(weight, 50.0, total)
  {
    ProductOrder(weight, delta, 50.0);
    ProductOrder(weight, -50.0, delta);
    DivisionOrder(Product(weight, delta), Product(weight, 50.0), total);
    DivisionOrder(Product(weight, -50.0), Product(weight, delta), total);
    QuotientSum(a, Product(weight, delta), total);
    QuotientSum(Product(weight, 50.0), Product(weight, -50.0), total);
    Distribute(50.0, -50.0, weight);
    assert Product(weight, 50.0) + Product(weight, -50.0) == 0.0;
  }

  lemma QuotientSum(a: real, b: real, total: real)
    requires total > 0.0
    ensures (a + b) / total == a / total + b / total
  {
  }

  lemma WatchedSum(w: Weights, c: Components, watched: Score)
    requires c.watchlist.None?
    ensures WeightedSum(Shares(w), Values(c.(watchlist := Some(watched))))
         == WeightedSum(Shares(w), Values(c)) + Product(w.watchlist, watched - 50.0)
  {
    var before, after := Values(c), Values(c.(watchlist := Some(watched)));
    assert before[..8] == after[..8];
    Distribute(watched - 50.0, 50.0, w.watchlist);
  }

  /** Watching a company moves the unrounded score by exactly the watchlist weight's share of the distance from
      neutral: at most 50 points of that share. */
  lemma WatchlistInfluence(w: Weights, c: Components, watched: Score)
    requires NonNegative(w) && Total(Shares(w)) > 0.0 && c.watchlist.None?
    ensures Mean(w, c.(watchlist := Some(watched))) - Mean(w, c)
         == Passed(w.watchlist, watched - 50.0, Total(Shares(w)))
    ensures Abs(Passed(w.watchlist, watched - 50.0, Total(Shares(w)))) <= Passed(w.watchlist, 50.0, Total(Shares(w)))
  {
    WatchedSum(w, c, watched);
    Shift(WeightedSum(Shares(w), Values(c)), w.watchlist, watched - 50.0, Total(Shares(w)));
  }

  /** The shipped weights: role and skills a quarter each, experience 0.15, location, salary and watchlist a tenth each,
      work mode, industry and company a twentieth each, out of 1.10. */
  lemma DefaultMean(c: Components)
    ensures 1.10 * Mean(DEFAULTS, c)
         == 0.25 * c.role + 0.25 * c.skill + 0.15 * c.experience + 0.10 * c.location + 0.10 * c.salary
            + 0.05 * c.workMode + 0.05 * c.industry + 0.05 * c.company
            + 0.10 * (if c.watchlist.Some? then c.watchlist.value else 50.0)
  {
    var shares, values := Shares(DEFAULTS), Values(c);
    NineTerms(shares, values);
    assert Total(shares) == 1.10;
  }

  lemma NineTerms(shares: seq<real>, values: seq<real>)
    requires |shares| == |values| == 9
    ensures WeightedSum(shares, values)
         == Product(shares[0], values[0]) + Product(shares[1], values[1]) + Product(shares[2], values[2])
            + Product(shares[3], values[3]) + Product(shares[4], values[4]) + Product(shares[5], values[5])
            + Product(shares[6], values[6]) + Product(shares[7], values[7]) + Product(shares[8], values[8])
    ensures Total(shares) == shares[0] + shares[1] + shares[2] + shares[3] + shares[4] + shares[5] + shares[6]
                             + shares[7] + shares[8]
  {
    SumSteps(shares, values, 9);
  }

  lemma {:induction false} SumSteps(shares: seq<real>, values: seq<real>, n: nat)
    requires |shares| == |values| && n <= |shares|
    ensures forall k :: 0 < k <= n ==>
              WeightedSum(shares[..k], values[..k])
              == WeightedSum(shares[..k - 1], values[..k - 1]) + Product(shares[k - 1], values[k - 1])
              && Total(shares[..k]) == Total(shares[..k - 1]) + shares[k - 1]
    ensures shares[..|shares|] == shares && values[..|values|] == values
  {
    forall k | 0 < k <= n
      ensures WeightedSum(shares[..k], values[..k])
           == WeightedSum(shares[..k - 1], values[..k - 1]) + Product(shares[k - 1], values[k - 1])
      ensures Total(shares[..k]) == Total(shares[..k - 1]) + shares[k - 1]
    {
      assert shares[..k][..k - 1] == shares[..k - 1] && values[..k][..k - 1] == values[..k - 1];
    }
  }

  function ScoreJob(
    weights: Weights, w: Words, p: Profile, job: JobFacts, analysis: Option<Analysis>, watchlist: Option<Score>,
    round: Rounding): real
  {
    Overall(weights, ComponentsOf(w, p, job, analysis, watchlist, round), round)
  }

  /** Every profile, job, analysis and watchlist score give a score from 0 to 100, as every component is one. */
  lemma JobScoreIsScore(
    weights: Weights, w: Words, p: Profile, job: JobFacts, analysis: Option<Analysis>, watchlist: Option<Score>,
    round: Rounding)
    requires NonNegative(weights)
    ensures 0.0 <= ScoreJob(weights, w, p, job, analysis, watchlist, round) <= 100.0
  {
    var c := ComponentsOf(w, p, job, analysis, watchlist, round);
    if Total(Shares(weights)) > 0.0 {
      OverallIsBetween(weights, c, 0.0, 100.0, round);
    }
  }

  /** Nothing known about the user and no work mode known of the job: exactly the neutral score, whatever else the job
      says. */
  lemma NothingKnownIsNeutral(
    weights: Weights, w: Words, p: Profile, job: JobFacts, analysis: Option<Analysis>, round: Rounding)
    requires NonNegative(weights) && Total(Shares(weights)) > 0.0
    requires Silent(p) && JobMode(job, analysis).None?
    ensures ScoreJob(weights, w, p, job, analysis, None, round) == 50.0
  {
    var c := ComponentsOf(w, p, job, analysis, None, round);
    SilentProfileIsNeutral(w, p, job, analysis, round);
    OverallIsBetween(weights, c, 50.0, 50.0, round);
    WholeNumbersStay(round, 50);
  }
}
