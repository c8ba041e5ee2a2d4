/** Fuzzy duplicate detection: a weighted sum over a fixed denominator, a title gate, and three bands. */
module DuplicateDetection {
  import opened Prelude
  import opened JobIdentity

  type Weight = w: real | w >= 0.0

  datatype Settings = Settings(
    autoMerge: real,
    link: real,
    minTitle: real,
    maxCandidates: nat,
    title: Weight,
    description: Weight,
    location: Weight,
    date: Weight)
  {
    function Total(): Weight {
      title + description + location + date
    }
  }

  const DEFAULTS := Settings(0.85, 0.65, 0.5, 50, 0.45, 0.30, 0.15, 0.10)

  datatype Candidate = Candidate(id: nat, posting: Posting)

  datatype Decision =
    | Duplicate(id: nat, score: real)
    | NearDuplicate(id: nat, score: real)
    | Distinct(score: real)

  function Contribution(w: Weight, v: Option<Unit>): (r: real)
    ensures 0.0 <= r <= w
  {
    if v.None? then 0.0
    else
      PartOfWhole(w, v.value);
      Product(w, v.value)
  }

  function WeightedSum(s: Settings, sig: Signals): real {
    Contribution(s.title, Some(sig.title)) + Contribution(s.description, sig.description)
    + Contribution(s.location, sig.location) + Contribution(s.date, sig.date)
  }

  function Score(s: Settings, sig: Signals): (r: real)
    ensures 0.0 <= r <= 1.0
  {
    if s.Total() == 0.0 then 0.0
    else
      DivisionOrder(WeightedSum(s, sig), 1.0, s.Total());
      DivisionOrder(0.0, WeightedSum(s, sig), s.Total());
      WeightedSum(s, sig) / s.Total()
  }

  /** What a candidate is worth to `Decide`: nothing unless its title passes the gate. */
  function GatedScore(text: Text, s: Settings, item: Posting, existing: Posting): (r: real)
    ensures 0.0 <= r <= 1.0
  {
    var sig := Compare(text, item, existing);
    if sig.title < s.minTitle then 0.0 else Score(s, sig)
  }

  function GatedScores(text: Text, s: Settings, item: Posting, existing: seq<Candidate>): (r: seq<real>)
    ensures |r| == |existing|
    ensures forall i :: 0 <= i < |r| ==> r[i] == GatedScore(text, s, item, existing[i].posting)
  {
    seq(|existing|, i requires 0 <= i < |existing| => GatedScore(text, s, item, existing[i].posting))
  }

  /** Index of the first largest positive entry, built one entry at a time. */
  function Leader(scores: seq<real>): (r: Option<nat>)
    ensures r.Some? ==> r.value < |scores| && scores[r.value] > 0.0
  {
    if scores == [] then None
    else
      var last := |scores| - 1;
      var before := Leader(scores[..last]);
      if scores[last] > (if before.Some? then scores[before.value] else 0.0) then Some(last) else before
  }

  ghost predicate IsFirstMaximum(scores: seq<real>, k: nat) {
    k < |scores| && scores[k] > 0.0
    && (forall i :: 0 <= i < k ==> scores[i] < scores[k])
    && (forall i :: k <= i < |scores| ==> scores[i] <= scores[k])
  }

  lemma {:induction false} LeaderIsFirstMaximum(scores: seq<real>)
    ensures Leader(scores).None? <==> forall i :: 0 <= i < |scores| ==> scores[i] <= 0.0
    ensures forall k: nat :: Leader(scores) == Some(k) <==> IsFirstMaximum(scores, k)
  {
    if scores != [] {
      var last := |scores| - 1;
      var front := scores[..last];
      LeaderIsFirstMaximum(front);
      var before := Leader(front);
      if before.Some? {
        assert IsFirstMaximum(front, before.value);
      }
      forall k: nat ensures Leader(scores) == Some(k) <==> IsFirstMaximum(scores, k) {
        if IsFirstMaximum(scores, k) && k < last {
          assert IsFirstMaximum(front, k);
        }
      }
    }
  }

  function Band(s: Settings, id: nat, score: real): Decision {
    if score >= s.autoMerge then Duplicate(id, score)
    else if score >= s.link then NearDuplicate(id, score)
    else Distinct(score)
  }

  function Decide(text: Text, s: Settings, item: Posting, existing: seq<Candidate>): Decision {
    var scores := GatedScores(text, s, item, existing);
    match Leader(scores)
    case None => Distinct(0.0)
    case Some(k) => Band(s, existing[k].id, scores[k])
  }

  function LeaderScore(scores: seq<real>): real {
    var leader := Leader(scores);
    if leader.Some? then scores[leader.value] else 0.0
  }

  lemma LeaderStep(scores: seq<real>, n: nat)
    requires n < |scores|
    ensures Leader(scores[..n + 1]) ==
            if scores[n] > LeaderScore(scores[..n]) then Some(n) else Leader(scores[..n])
  {
    assert scores[..n + 1][..n] == scores[..n];
  }

  /** The candidate loop, keeping the best job so far. */
  method DecideLoop(text: Text, s: Settings, item: Posting, existing: seq<Candidate>) returns (d: Decision)
    ensures d == Decide(text, s, item, existing)
  {
    var bestJob: Option<nat> := None;
    var bestScore := 0.0;
    ghost var scores := GatedScores(text, s, item, existing);
    for n := 0 to |existing|
      invariant bestJob == Leader(scores[..n])
      invariant bestScore == LeaderScore(scores[..n])
    {
      LeaderStep(scores, n);
      assert scores[n] == GatedScore(text, s, item, existing[n].posting);
      var signals := Compare(text, item, existing[n].posting);
      if signals.title < s.minTitle {
        continue;
      }
      var current := Score(s, signals);
      if current > bestScore {
        bestJob, bestScore := Some(n), current;
      }
    }
    assert scores[..|existing|] == scores;
    if bestJob.None? {
      return Distinct(0.0);
    }
    var best := existing[bestJob.value];
    if bestScore >= s.autoMerge {
      return Duplicate(best.id, bestScore);
    }
    if bestScore >= s.link {
      return NearDuplicate(best.id, bestScore);
    }
    return Distinct(bestScore);
  }

  /** The decision is a fact about the first maximal gated candidate, and about nothing else. */
  lemma DecisionIff(text: Text, s: Settings, item: Posting, existing: seq<Candidate>, id: nat)
    ensures var scores := GatedScores(text, s, item, existing);
            var d := Decide(text, s, item, existing);
            && (d.Duplicate? && d.id == id <==>
                exists k: nat :: IsFirstMaximum(scores, k) && existing[k].id == id && scores[k] >= s.autoMerge)
            && (d.NearDuplicate? && d.id == id <==>
                exists k: nat :: IsFirstMaximum(scores, k) && existing[k].id == id && s.link <= scores[k] < s.autoMerge)
            && (d.Distinct? <==>
                forall k: nat :: IsFirstMaximum(scores, k) ==> scores[k] < s.autoMerge && scores[k] < s.link)
  {
    LeaderIsFirstMaximum(GatedScores(text, s, item, existing));
  }

  /** A merge needs a positive score, so under any non-negative threshold the verdict is Duplicate exactly when some
      candidate passes the gate, scores above zero and reaches the threshold. */
  lemma MergesIff(text: Text, s: Settings, item: Posting, existing: seq<Candidate>)
    ensures Decide(text, s, item, existing).Duplicate? <==>
            exists k :: 0 <= k < |existing|
                        && GatedScore(text, s, item, existing[k].posting) > 0.0
                        && GatedScore(text, s, item, existing[k].posting) >= s.autoMerge
  {
    var scores := GatedScores(text, s, item, existing);
    LeaderIsFirstMaximum(scores);
    match Leader(scores)
    case None =>
    case Some(best) =>
      assert IsFirstMaximum(scores, best);
      assert GatedScore(text, s, item, existing[best].posting) == scores[best];
      forall k | 0 <= k < |existing| ensures GatedScore(text, s, item, existing[k].posting) <= scores[best] {
        assert scores[k] <= scores[best];
      }
  }

  /** More candidates never undo a merge. */
  lemma MoreCandidatesKeepTheMerge(
    text: Text, s: Settings, item: Posting, fewer: seq<Candidate>, more: seq<Candidate>)
    requires forall c :: c in fewer ==> c in more
    requires Decide(text, s, item, fewer).Duplicate?
    ensures Decide(text, s, item, more).Duplicate?
  {
    MergesIff(text, s, item, fewer);
    var k :| 0 <= k < |fewer|
             && GatedScore(text, s, item, fewer[k].posting) > 0.0
             && GatedScore(text, s, item, fewer[k].posting) >= s.autoMerge;
    assert fewer[k] in more;
    var m :| 0 <= m < |more| && more[m] == fewer[k];
    MergesIff(text, s, item, more);
  }

  /** Learning a missing signal never lowers the score: absence counts as zero evidence. */
  lemma FillingASignalNeverLowersTheScore(s: Settings, sig: Signals, v: Unit)
    ensures sig.description.None? ==> Score(s, sig) <= Score(s, sig.(description := Some(v)))
    ensures sig.location.None? ==> Score(s, sig) <= Score(s, sig.(location := Some(v)))
    ensures sig.date.None? ==> Score(s, sig) <= Score(s, sig.(date := Some(v)))
  {
    if s.Total() > 0.0 {
      DivisionOrder(WeightedSum(s, sig), WeightedSum(s, sig.(description := Some(v))), s.Total());
      DivisionOrder(WeightedSum(s, sig), WeightedSum(s, sig.(location := Some(v))), s.Total());
      DivisionOrder(WeightedSum(s, sig), WeightedSum(s, sig.(date := Some(v))), s.Total());
    }
  }

  // ----- what the signals are worth -----

  /** The title gate: a title at the bar still passes, one below it is worth nothing whatever else agrees. */
  lemma TitleGate(text: Text, s: Settings, item: Posting, x: Posting)
    ensures Compare(text, item, x).title >= s.minTitle ==> GatedScore(text, s, item, x) == Score(s, Compare(text, item, x))
    ensures Compare(text, item, x).title < s.minTitle ==> GatedScore(text, s, item, x) == 0.0
  {
  }

  function Apart(a: int, b: int): nat {
    if a >= b then a - b else b - a
  }

  /** Dates up to a week apart agree, up to thirty days half agree, further apart not at all. */
  lemma DateBands(a: int, b: int)
    ensures PostedDateProximity(Some(a), Some(b))
         == if Apart(a, b) <= 604_800 then Some(1.0) else if Apart(a, b) <= 2_592_000 then Some(0.5) else Some(0.0)
  {
  }

  /** A posting with a closer date never scores lower. */
  lemma CloserDateNeverScoresLower(text: Text, s: Settings, item: Posting, x: Posting, date: int)
    requires item.postedAt.Some? && x.postedAt.Some?
    requires Apart(item.postedAt.value, date) <= Apart(item.postedAt.value, x.postedAt.value)
    ensures GatedScore(text, s, item, x) <= GatedScore(text, s, item, x.(postedAt := Some(date)))
  {
    DateBands(item.postedAt.value, x.postedAt.value);
    DateBands(item.postedAt.value, date);
    var near, far := Compare(text, item, x.(postedAt := Some(date))), Compare(text, item, x);
    ProductOrder(s.date, far.date.value, near.date.value);
    MoreEvidence(s, far, near);
  }

  /** Two places agree exactly when one contains the other, and disagree otherwise; a posting whose place agrees never
      scores lower than the same posting elsewhere. */
  lemma ContainedPlaceNeverScoresLower(text: Text, s: Settings, item: Posting, x: Posting, place: string)
    requires !Absent(item.location) && place != ""
    requires Contains(item.location.value, place) || Contains(place, item.location.value)
    ensures LocationSimilarity(item.location, Some(place)) == Some(1.0)
    ensures GatedScore(text, s, item, x) <= GatedScore(text, s, item, x.(location := Some(place)))
  {
    var here, there := Compare(text, item, x.(location := Some(place))), Compare(text, item, x);
    if there.location.Some? { ProductOrder(s.location, there.location.value, 1.0); }
    MoreEvidence(s, there, here);
  }

  lemma PlaceElsewhere(item: string, place: string)
    requires item != "" && place != "" && !Contains(item, place) && !Contains(place, item)
    ensures LocationSimilarity(Some(item), Some(place)) == Some(0.0)
  {
  }

  lemma MoreEvidence(s: Settings, low: Signals, high: Signals)
    requires low.title == high.title && WeightedSum(s, low) <= WeightedSum(s, high)
    ensures Score(s, low) <= Score(s, high)
  {
    if s.Total() > 0.0 { DivisionOrder(WeightedSum(s, low), WeightedSum(s, high), s.Total()); }
  }

  function Evidence(v: Option<Unit>): Unit {
    if v.Some? then v.value else 0.0
  }

  /** The weight of one signal that the comparison does not bring in. */
  function Shortfall(w: Weight, v: Option<Unit>): (r: real)
    ensures r == w - Contribution(w, v)
    ensures r >= 0.0
  {
    ProductComplement(w, Evidence(v));
    Product(w, 1.0 - Evidence(v))
  }

  /** All the evidence that is missing: each signal's weight times how far it falls short of agreement. */
  function Missing(s: Settings, sig: Signals): real {
    Shortfall(s.title, Some(sig.title)) + Shortfall(s.description, sig.description)
    + Shortfall(s.location, sig.location) + Shortfall(s.date, sig.date)
  }

  lemma ReachesThreshold(s: Settings, sig: Signals)
    requires s.Total() > 0.0
    ensures Score(s, sig) >= s.autoMerge <==> WeightedSum(s, sig) >= s.autoMerge * s.Total()
  {
    DivisionOrder(WeightedSum(s, sig), s.autoMerge, s.Total());
  }

  /** An item merges exactly when the missing evidence weighs no more than the slack the threshold leaves. */
  lemma ReachesThresholdIff(s: Settings, sig: Signals)
    requires s.Total() > 0.0
    ensures Missing(s, sig) == s.Total() - WeightedSum(s, sig)
    ensures Score(s, sig) >= s.autoMerge <==> Missing(s, sig) <= (1.0 - s.autoMerge) * s.Total()
  {
    ReachesThreshold(s, sig);
    assert (1.0 - s.autoMerge) * s.Total() == s.Total() - s.autoMerge * s.Total();
  }

  /** A title similarity is compatible with some merge exactly when its own shortfall fits in the slack. */
  lemma TitleFloor(s: Settings, t: Unit)
    requires s.Total() > 0.0
    ensures (exists sig: Signals :: sig.title == t && Score(s, sig) >= s.autoMerge) <==>
            Product(s.title, 1.0 - t) <= (1.0 - s.autoMerge) * s.Total()
  {
    var best := Signals(t, Some(1.0), Some(1.0), Some(1.0));
    assert Missing(s, best) == Product(s.title, 1.0 - t);
    ReachesThresholdIff(s, best);
    forall sig: Signals | sig.title == t && Score(s, sig) >= s.autoMerge
      ensures Score(s, best) >= s.autoMerge
    {
      ReachesThresholdIff(s, sig);
    }
  }

  /** The same floor for the description, where an absent text counts as no evidence at all. */
  lemma DescriptionFloor(s: Settings, d: Option<Unit>)
    requires s.Total() > 0.0
    ensures (exists sig: Signals :: sig.description == d && Score(s, sig) >= s.autoMerge) <==>
            Product(s.description, 1.0 - Evidence(d)) <= (1.0 - s.autoMerge) * s.Total()
  {
    var best := Signals(1.0, d, Some(1.0), Some(1.0));
    assert Missing(s, best) == Product(s.description, 1.0 - Evidence(d));
    ReachesThresholdIff(s, best);
    forall sig: Signals | sig.description == d && Score(s, sig) >= s.autoMerge
      ensures Score(s, best) >= s.autoMerge
    {
      ReachesThresholdIff(s, sig);
    }
  }

  lemma ShippedFloors(sig: Signals)
    requires Score(DEFAULTS, sig) >= DEFAULTS.autoMerge
    ensures 3.0 * sig.title >= 2.0 && sig.description.Some? && 2.0 * sig.description.value >= 1.0
  {
    TitleFloor(DEFAULTS, sig.title);
    DescriptionFloor(DEFAULTS, sig.description);
  }

  /** What an item is merged into reaches the threshold. */
  lemma MergedCandidate(text: Text, s: Settings, item: Posting, existing: seq<Candidate>) returns (k: nat)
    requires Decide(text, s, item, existing).Duplicate?
    ensures k < |existing| && existing[k].id == Decide(text, s, item, existing).id
    ensures GatedScore(text, s, item, existing[k].posting) >= s.autoMerge
    ensures GatedScore(text, s, item, existing[k].posting) > 0.0
  {
    var scores := GatedScores(text, s, item, existing);
    LeaderIsFirstMaximum(scores);
    k := Leader(scores).value;
    assert scores[k] == GatedScore(text, s, item, existing[k].posting);
  }

  /** With the shipped weights a merge needs two thirds of the title and half of the description, and no less. */
  lemma DefaultMergeEvidence(text: Text, item: Posting, existing: seq<Candidate>)
    requires Decide(text, DEFAULTS, item, existing).Duplicate?
    ensures exists k :: 0 <= k < |existing|
                        && existing[k].id == Decide(text, DEFAULTS, item, existing).id
                        && 3.0 * Compare(text, item, existing[k].posting).title >= 2.0
                        && Compare(text, item, existing[k].posting).description.Some?
                        && 2.0 * Compare(text, item, existing[k].posting).description.value >= 1.0
    ensures !Absent(item.description)
  {
    var k := MergedCandidate(text, DEFAULTS, item, existing);
    ShippedFloors(Compare(text, item, existing[k].posting));
  }
}
