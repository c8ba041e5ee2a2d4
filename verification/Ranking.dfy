/** The personalised feed: capped adjustments on a base score, then a stable sort and pages of it.
    Scores are real numbers, rounded to one decimal. */
module Ranking {
  import opened Prelude
  import opened JobIdentity
  import opened Learning
  import opened Tenths
  import MatchCache
  import StableSort

  datatype Weights = Weights(
    preference: real, role: real, skill: real, companyPref: real, location: real, mode: real,
    freshness: real, companyBoost: real, companyPenalty: real, feedbackBoost: real, feedbackPenalty: real,
    roleHide: real, roleBoost: real)

  const DEFAULTS := Weights(15.0, 6.0, 5.0, 4.0, 3.0, 3.0, 6.0, 5.0, 10.0, 5.0, 15.0, 0.75, 0.5)

  predicate Capped(w: Weights) {
    w.preference >= 0.0 && w.freshness >= 0.0 && w.companyBoost >= 0.0 && w.companyPenalty >= 0.0
    && w.feedbackBoost >= 0.0 && w.feedbackPenalty >= 0.0
  }

  /** A stored match with the facts of its job; `age` is in days. */
  datatype Candidate = Candidate(
    id: nat, base: real, roleKey: string, companyKey: seq<string>, skills: set<string>,
    location: Option<string>, mode: Option<string>, age: Option<real>,
    watchlist: Option<real>, companyScore: Option<real>, feedback: Option<MatchCache.Feedback>)

  datatype Parts = Parts(preference: real, freshness: real, company: real, feedback: real)

  datatype Ranked = Ranked(candidate: Candidate, final: real, parts: Parts)

  function Strength(weight: real): (r: real)
    ensures -1.0 <= r <= 1.0
  {
    Clamp(weight / 3.0, -1.0, 1.0)
  }

  function TokenJaccard(a: string, b: string): (r: real)
    ensures 0.0 <= r <= 1.0
  {
    if WordSet(a) == {} || WordSet(b) == {} then 0.0 else Jaccard(WordSet(a), WordSet(b))
  }

  // ----- exclusion -----

  predicate HiddenCompany(c: Candidate, prefs: Learned) {
    c.companyKey != [] && IsHidden(prefs.hiddenCompanies, c.companyKey)
  }

  predicate HiddenRole(c: Candidate, prefs: Learned, w: Weights) {
    c.roleKey != ""
    && exists i | 0 <= i < |prefs.hiddenRoles| ::
         prefs.hiddenRoles[i].key == c.roleKey || TokenJaccard(c.roleKey, prefs.hiddenRoles[i].key) >= w.roleHide
  }

  predicate Excluded(c: Candidate, prefs: Learned, w: Weights) {
    HiddenCompany(c, prefs) || HiddenRole(c, prefs, w)
  }

  // ----- the learned part -----

  /** The first eligible entry no other eligible entry outscores. */
  function FirstBest<T>(xs: seq<T>, eligible: T -> bool, score: T -> real): (r: Option<nat>)
    ensures r.None? <==> forall i :: 0 <= i < |xs| ==> !eligible(xs[i])
    ensures r.Some? ==> r.value < |xs| && eligible(xs[r.value])
                        && (forall i :: 0 <= i < |xs| && eligible(xs[i]) ==> score(xs[i]) <= score(xs[r.value]))
                        && (forall i :: 0 <= i < r.value && eligible(xs[i]) ==> score(xs[i]) < score(xs[r.value]))
  {
    if xs == [] then None
    else
      var n := |xs| - 1;
      var best := FirstBest(xs[..n], eligible, score);
      assert forall i :: 0 <= i < n ==> xs[..n][i] == xs[i];
      if eligible(xs[n]) && (best.None? || score(xs[n]) > score(xs[best.value])) then Some(n) else best
  }

  function SimilarTo(roleKey: string): Affinity<string> -> real {
    (a: Affinity<string>) => TokenJaccard(roleKey, a.key)
  }

  function SimilarEnough(roleKey: string, threshold: real): Affinity<string> -> bool {
    (a: Affinity<string>) => TokenJaccard(roleKey, a.key) >= threshold
  }

  /** The learned role and how similar it is: the exact key first, else the most similar one. */
  function RoleMatch(c: Candidate, prefs: Learned, w: Weights): Option<(Affinity<string>, real)> {
    if c.roleKey == "" then None
    else
      var exact := Find(prefs.roles, c.roleKey);
      if exact.Some? then Some((prefs.roles[exact.value], 1.0))
      else
        var best := FirstBest(prefs.roles, SimilarEnough(c.roleKey, w.roleBoost), SimilarTo(c.roleKey));
        if best.None? then None
        else Some((prefs.roles[best.value], TokenJaccard(c.roleKey, prefs.roles[best.value].key)))
  }

  function RoleDelta(found: Option<(Affinity<string>, real)>, cap: real): real {
    if found.None? then 0.0 else Clamp(Strength(found.value.0.weight) * found.value.1 * cap, -cap, cap)
  }

  function RolePart(c: Candidate, prefs: Learned, w: Weights): real {
    RoleDelta(RoleMatch(c, prefs, w), w.role)
  }

  function HitStrength(skills: seq<Affinity<string>>, job: set<string>): real {
    if skills == [] then 0.0
    else
      var a := skills[|skills| - 1];
      HitStrength(skills[..|skills| - 1], job) + (if a.key in job then Strength(a.weight) else 0.0)
  }

  function SkillDelta(hits: real, cap: real): real {
    Clamp(hits, -1.0, 1.0) * cap
  }

  function SkillPart(c: Candidate, prefs: Learned, w: Weights): real {
    SkillDelta(HitStrength(prefs.skills, c.skills), w.skill)
  }

  function Delta<K>(found: Option<Affinity<K>>, cap: real): real {
    if found.None? then 0.0 else Strength(found.value.weight) * cap
  }

  function Entry<K>(bucket: seq<Affinity<K>>, at: Option<nat>): Option<Affinity<K>>
    requires at.Some? ==> at.value < |bucket|
  {
    if at.Some? then Some(bucket[at.value]) else None
  }

  function KeyPart<K(==)>(bucket: seq<Affinity<K>>, key: K, cap: real): real {
    Delta(Entry(bucket, Find(bucket, key)), cap)
  }

  function CompanyPart(c: Candidate, prefs: Learned, w: Weights): real {
    if c.companyKey == [] then 0.0 else KeyPart(prefs.companies, c.companyKey, w.companyPref)
  }

  function Near(location: string): Affinity<string> -> bool {
    (a: Affinity<string>) => a.key != "" && (Contains(location, a.key) || Contains(a.key, location))
  }

  function Magnitude(a: Affinity<string>): real {
    Abs(a.weight)
  }

  /** The learned location that contains the job's, or is contained in it; the strongest of them, first on ties. */
  function LocationMatch(c: Candidate, prefs: Learned): Option<Affinity<string>> {
    if Absent(c.location) then None
    else Entry(prefs.locations, FirstBest(prefs.locations, Near(c.location.value), Magnitude))
  }

  function LocationPart(c: Candidate, prefs: Learned, w: Weights): real {
    Delta(LocationMatch(c, prefs), w.location)
  }

  function ModePart(c: Candidate, prefs: Learned, w: Weights): real {
    if Absent(c.mode) then 0.0 else KeyPart(prefs.modes, c.mode.value, w.mode)
  }

  function PreferenceOf(role: real, skill: real, company: real, location: real, mode: real, cap: real): real {
    Clamp(role + skill + company + location + mode, -cap, cap)
  }

  function Preference(c: Candidate, prefs: Learned, w: Weights): real {
    if prefs.signals == 0 then Clamp(0.0, -w.preference, w.preference)
    else
      PreferenceOf(RolePart(c, prefs, w), SkillPart(c, prefs, w), CompanyPart(c, prefs, w), LocationPart(c, prefs, w),
                   ModePart(c, prefs, w), w.preference)
  }

  // ----- the other parts -----

  function Freshness(age: Option<real>, w: Weights): real {
    var scale := w.freshness / 6.0;
    if age.None? then 0.0
    else if age.value <= 2.0 then 6.0 * scale
    else if age.value <= 7.0 then 4.0 * scale
    else if age.value <= 14.0 then 2.0 * scale
    else 0.0
  }

  function Standing(c: Candidate, w: Weights): real {
    var scale := w.companyBoost / 5.0;
    var watched :=
      if c.watchlist.None? then 0.0
      else (if c.watchlist.value >= 90.0 then 5.0 else if c.watchlist.value >= 75.0 then 3.0 else 2.0) * scale;
    var profile :=
      if c.companyScore == Some(100.0) then 3.0 * scale
      else if c.companyScore == Some(0.0) then -w.companyPenalty
      else 0.0;
    Clamp(watched + profile, -w.companyPenalty, w.companyBoost)
  }

  function FeedbackPart(verdict: Option<MatchCache.Feedback>, w: Weights): real {
    match verdict
    case Some(Positive) => w.feedbackBoost
    case Some(Interested) => w.feedbackBoost * 0.6
    case Some(Negative) => -w.feedbackPenalty
    case _ => 0.0
  }

  function PartsOf(c: Candidate, prefs: Learned, w: Weights): Parts {
    Parts(Preference(c, prefs, w), Freshness(c.age, w), Standing(c, w), FeedbackPart(c.feedback, w))
  }

  function Sum(p: Parts): real {
    p.preference + p.freshness + p.company + p.feedback
  }

  function Final(c: Candidate, prefs: Learned, w: Weights): real {
    Clamp(c.base + Sum(PartsOf(c, prefs, w)), 0.0, 100.0)
  }

  function RankOne(c: Candidate, prefs: Learned, w: Weights, round: Rounding): Ranked {
    Ranked(c, round(Final(c, prefs, w)), PartsOf(c, prefs, w))
  }

  /** None when the candidate must not be shown. */
  function ScoreMatch(c: Candidate, prefs: Learned, w: Weights, round: Rounding, exclude: bool): Option<Ranked> {
    if exclude && Excluded(c, prefs, w) then None else Some(RankOne(c, prefs, w, round))
  }

  // ----- the feed -----

  function Scorer(prefs: Learned, w: Weights, round: Rounding, exclude: bool): Candidate -> Option<Ranked> {
    (c: Candidate) => ScoreMatch(c, prefs, w, round, exclude)
  }

  function Scored(rows: seq<Candidate>, prefs: Learned, w: Weights, round: Rounding, exclude: bool): seq<Ranked> {
    Collect(rows, Scorer(prefs, w, round, exclude))
  }

  function SortKey(r: Ranked): StableSort.Key {
    (r.final, r.candidate.base)
  }

  function Rank(rows: seq<Candidate>, prefs: Learned, w: Weights, round: Rounding, exclude: bool): seq<Ranked> {
    StableSort.Sort(Scored(rows, prefs, w, round, exclude), SortKey)
  }

  /** `ranked[offset : offset + limit]` */
  function Page<T>(ranked: seq<T>, limit: nat, offset: nat): seq<T> {
    ranked[Min(offset, |ranked|)..Min(offset + limit, |ranked|)]
  }

  function Recommended(rows: seq<Candidate>, prefs: Learned, w: Weights, round: Rounding, limit: nat, offset: nat)
    : (seq<Ranked>, nat)
  {
    var ranked := Rank(rows, prefs, w, round, true);
    (Page(ranked, limit, offset), |ranked|)
  }

  // ----- bounds -----

  lemma PartsWithin(c: Candidate, prefs: Learned, w: Weights)
    requires Capped(w)
    ensures var p := PartsOf(c, prefs, w);
            -w.preference <= p.preference <= w.preference
            && 0.0 <= p.freshness <= w.freshness
            && -w.companyPenalty <= p.company <= w.companyBoost
            && -w.feedbackPenalty <= p.feedback <= w.feedbackBoost
  {
  }

  /** Whatever was learned, a score stays in [0, 100] and near its base: by default no lower than 40 below and no
      higher than 31 above. */
  lemma ScoreStaysNearBase(c: Candidate, prefs: Learned, w: Weights, round: Rounding)
    requires Capped(w) && 0.0 <= c.base <= 100.0
    ensures 0.0 <= RankOne(c, prefs, w, round).final <= 100.0
    ensures -(w.preference + w.companyPenalty + w.feedbackPenalty)
            <= Final(c, prefs, w) - c.base
            <= w.preference + w.freshness + w.companyBoost + w.feedbackBoost
    ensures w == DEFAULTS ==> -40.0 <= Final(c, prefs, w) - c.base <= 31.0
  {
    PartsWithin(c, prefs, w);
    WholeNumbersStay(round, 0);
    WholeNumbersStay(round, 100);
  }

  // ----- what each adjustment rewards -----

  function Liking(verdict: Option<MatchCache.Feedback>): int {
    match verdict
    case Some(Positive) => 2
    case Some(Interested) => 1
    case Some(Negative) => -1
    case _ => 0
  }

  /** Absent ages and scores stand below every present one. */
  predicate NoLower(a: Option<real>, b: Option<real>) {
    a.None? || (b.Some? && a.value <= b.value)
  }

  predicate NoFresher(a: Option<real>, b: Option<real>) {
    a.None? || (b.Some? && b.value <= a.value)
  }

  function ProfileRank(score: Option<real>): int {
    if score == Some(100.0) then 1 else if score == Some(0.0) then -1 else 0
  }

  lemma FreshnessRewardsAge(a: Option<real>, b: Option<real>, w: Weights)
    requires Capped(w) && NoFresher(a, b)
    ensures Freshness(a, w) <= Freshness(b, w)
    ensures w.freshness > 0.0 ==> (Freshness(a, w) > 0.0 <==> a.Some? && a.value <= 14.0)
  {
  }

  lemma StandingRewardsWatching(a: Candidate, b: Candidate, w: Weights)
    requires Capped(w) && NoLower(a.watchlist, b.watchlist)
    requires ProfileRank(a.companyScore) <= ProfileRank(b.companyScore)
    ensures Standing(a, w) <= Standing(b, w)
  {
  }

  /** A candidate of the same role, company, skills, place and mode that is no worse in base score, freshness,
      watchlist and profile standing, and feedback never scores lower. */
  lemma BetterNeverScoresLower(a: Candidate, b: Candidate, prefs: Learned, w: Weights, round: Rounding)
    requires Capped(w)
    requires a.roleKey == b.roleKey && a.companyKey == b.companyKey && a.skills == b.skills
    requires a.location == b.location && a.mode == b.mode
    requires a.base <= b.base && NoFresher(a.age, b.age) && NoLower(a.watchlist, b.watchlist)
    requires ProfileRank(a.companyScore) <= ProfileRank(b.companyScore) && Liking(a.feedback) <= Liking(b.feedback)
    ensures RankOne(a, prefs, w, round).final <= RankOne(b, prefs, w, round).final
  {
    FreshnessRewardsAge(a.age, b.age, w);
    StandingRewardsWatching(a, b, w);
    SamePreference(a, b, prefs, w);
    assert FeedbackPart(a.feedback, w) <= FeedbackPart(b.feedback, w);
    assert Final(a, prefs, w) <= Final(b, prefs, w);
  }

  lemma SamePreference(a: Candidate, b: Candidate, prefs: Learned, w: Weights)
    requires a.roleKey == b.roleKey && a.companyKey == b.companyKey && a.skills == b.skills
    requires a.location == b.location && a.mode == b.mode
    ensures Preference(a, prefs, w) == Preference(b, prefs, w)
  {
  }

  /** The spread of the adjustments: 71 by default. */
  function Spread(w: Weights): real {
    2.0 * w.preference + w.companyPenalty + w.feedbackPenalty + w.freshness + w.companyBoost + w.feedbackBoost
  }

  /** The feed holds exactly the candidates that are not hidden, each as it was scored. */
  lemma RankHolds(rows: seq<Candidate>, prefs: Learned, w: Weights, round: Rounding, exclude: bool, r: Ranked)
    ensures r in Rank(rows, prefs, w, round, exclude) <==>
            exists i :: 0 <= i < |rows| && ScoreMatch(rows[i], prefs, w, round, exclude) == Some(r)
  {
    var scored := Scored(rows, prefs, w, round, exclude);
    StableSort.SortIsStable(scored, SortKey);
    assert r in Rank(rows, prefs, w, round, exclude) <==> r in multiset(scored);
    CollectHolds(rows, Scorer(prefs, w, round, exclude), r);
  }

  /** Nothing hidden is shown: neither a hidden company nor a role too close to a hidden one. */
  lemma NothingHiddenIsShown(
    rows: seq<Candidate>, prefs: Learned, w: Weights, round: Rounding, limit: nat, offset: nat, r: Ranked)
    requires r in Recommended(rows, prefs, w, round, limit, offset).0
    ensures r.candidate.companyKey != [] ==> !IsHidden(prefs.hiddenCompanies, r.candidate.companyKey)
    ensures r.candidate.roleKey != "" ==>
              forall h :: h in prefs.hiddenRoles ==>
                h.key != r.candidate.roleKey && TokenJaccard(r.candidate.roleKey, h.key) < w.roleHide
  {
    RankHolds(rows, prefs, w, round, true, r);
  }

  /** And everything else is shown: a candidate is in the feed exactly when neither its company is hidden nor its role
      equal or too close to a hidden one. */
  lemma ShownIff(rows: seq<Candidate>, prefs: Learned, w: Weights, round: Rounding, c: Candidate)
    requires c in rows
    ensures RankOne(c, prefs, w, round) in Rank(rows, prefs, w, round, true) <==>
            !(c.companyKey != [] && exists h :: h in prefs.hiddenCompanies && h.key == c.companyKey)
            && !(c.roleKey != ""
                 && exists h :: h in prefs.hiddenRoles
                                && (h.key == c.roleKey || TokenJaccard(c.roleKey, h.key) >= w.roleHide))
  {
    RankHolds(rows, prefs, w, round, true, RankOne(c, prefs, w, round));
    var i :| 0 <= i < |rows| && rows[i] == c;
    assert ScoreMatch(rows[i], prefs, w, round, true).Some? <==> !Excluded(c, prefs, w);
    if h :| h in prefs.hiddenCompanies && h.key == c.companyKey {
      var k :| 0 <= k < |prefs.hiddenCompanies| && prefs.hiddenCompanies[k] == h;
      assert prefs.hiddenCompanies[k].key == c.companyKey;
    }
    if h :| h in prefs.hiddenRoles && (h.key == c.roleKey || TokenJaccard(c.roleKey, h.key) >= w.roleHide) {
      var k :| 0 <= k < |prefs.hiddenRoles| && prefs.hiddenRoles[k] == h;
      assert prefs.hiddenRoles[k].key == h.key;
    }
  }

  /** The feed keeps every shown candidate once per row, in descending order, equals in the order of the rows, and
      `total` counts them. */
  lemma FeedIsStableSort(rows: seq<Candidate>, prefs: Learned, w: Weights, round: Rounding, limit: nat, offset: nat)
    ensures var ranked := Rank(rows, prefs, w, round, true);
            var shown := Scored(rows, prefs, w, round, true);
            StableSort.Sorted(ranked, SortKey)
            && multiset(ranked) == multiset(shown)
            && (forall k :: StableSort.WithKey(ranked, SortKey, k) == StableSort.WithKey(shown, SortKey, k))
            && Recommended(rows, prefs, w, round, limit, offset).1 == |shown|
  {
    var shown := Scored(rows, prefs, w, round, true);
    StableSort.SortIsStable(shown, SortKey);
    assert |multiset(Rank(rows, prefs, w, round, true))| == |multiset(shown)|;
  }

  lemma BiggerLeadSortsFirst(a: Ranked, b: Ranked, prefs: Learned, w: Weights, round: Rounding)
    requires Capped(w) && 0.0 <= a.candidate.base <= 100.0 && 0.0 <= b.candidate.base <= 100.0
    requires a == RankOne(a.candidate, prefs, w, round) && b == RankOne(b.candidate, prefs, w, round)
    requires a.candidate.base >= b.candidate.base + Spread(w) && a.candidate.base > b.candidate.base
    ensures StableSort.Above(SortKey(a), SortKey(b))
  {
    PartsWithin(a.candidate, prefs, w);
    PartsWithin(b.candidate, prefs, w);
    assert Final(a.candidate, prefs, w) >= Final(b.candidate, prefs, w);
  }

  /** Learning and feedback reorder only so far: a base lead of the spread of all adjustments (71 by default) wins
      in every feed, even when rounding makes the two scores equal. */
  lemma BiggerLeadRanksFirst(
    rows: seq<Candidate>, prefs: Learned, w: Weights, round: Rounding, exclude: bool, i: nat, k: nat)
    requires Capped(w) && forall c :: c in rows ==> 0.0 <= c.base <= 100.0
    requires var ranked := Rank(rows, prefs, w, round, exclude);
             i < |ranked| && k < |ranked|
             && ranked[i].candidate.base >= ranked[k].candidate.base + Spread(w)
             && ranked[i].candidate.base > ranked[k].candidate.base
    ensures i < k
  {
    var ranked := Rank(rows, prefs, w, round, exclude);
    RankedAsScored(rows, prefs, w, round, exclude, i);
    RankedAsScored(rows, prefs, w, round, exclude, k);
    BiggerLeadSortsFirst(ranked[i], ranked[k], prefs, w, round);
    StableSort.AboveComesFirst(Scored(rows, prefs, w, round, exclude), SortKey, i, k);
  }

  lemma RankedAsScored(rows: seq<Candidate>, prefs: Learned, w: Weights, round: Rounding, exclude: bool, i: nat)
    requires i < |Rank(rows, prefs, w, round, exclude)|
    ensures var r := Rank(rows, prefs, w, round, exclude)[i];
            r.candidate in rows && r == RankOne(r.candidate, prefs, w, round)
  {
    RankHolds(rows, prefs, w, round, exclude, Rank(rows, prefs, w, round, exclude)[i]);
  }

  // ----- pages -----

  function Pages<T>(ranked: seq<T>, limit: nat, n: nat): seq<T> {
    if n == 0 then [] else Pages(ranked, limit, n - 1) + Page(ranked, limit, (n - 1) * limit)
  }

  lemma PageExtends<T>(ranked: seq<T>, limit: nat, offset: nat)
    ensures ranked[..Min(offset, |ranked|)] + Page(ranked, limit, offset) == ranked[..Min(offset + limit, |ranked|)]
  {
  }

  lemma {:induction false} PagesArePrefix<T>(ranked: seq<T>, limit: nat, n: nat, offered: nat)
    requires offered == n * limit
    ensures Pages(ranked, limit, n) == ranked[..Min(offered, |ranked|)]
    decreases n
  {
    if n > 0 {
      var before: nat := (n - 1) * limit;
      assert offered == before + limit;
      PagesArePrefix(ranked, limit, n - 1, before);
      PageExtends(ranked, limit, before);
    }
  }

  /** Read page by page, the feed is the whole ranking: nothing repeated, nothing skipped. */
  lemma PagesMakeTheFeed<T>(ranked: seq<T>, limit: nat, n: nat)
    requires n * limit >= |ranked|
    ensures Pages(ranked, limit, n) == ranked
  {
    PagesArePrefix(ranked, limit, n, n * limit);
  }
}
