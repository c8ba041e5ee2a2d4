/** What learned preferences do to a score: liking anything more never lowers it, and what a candidate shares with one
    liked or disliked thing raises or lowers it, dimension by dimension. */
module Tastes {
  import opened Prelude
  import opened JobIdentity
  import opened Learning
  import opened Ranking
  import opened Tenths
  import MatchCache

  /** Every dimension may move the score by something. */
  predicate Open(w: Weights) {
    w.preference >= 0.0 && w.role >= 0.0 && w.skill >= 0.0 && w.companyPref >= 0.0 && w.location >= 0.0
    && w.mode >= 0.0 && w.roleBoost >= 0.0
  }

  /** The same keys in the same order, none weighing less in the second. */
  ghost predicate NoLess<K>(xs: seq<Affinity<K>>, ys: seq<Affinity<K>>) {
    |xs| == |ys| && forall i :: 0 <= i < |xs| ==> xs[i].key == ys[i].key && xs[i].weight <= ys[i].weight
  }

  ghost predicate NoLessLiked(p: Learned, q: Learned) {
    NoLess(p.roles, q.roles) && NoLess(p.skills, q.skills) && NoLess(p.companies, q.companies)
    && NoLess(p.locations, q.locations) && NoLess(p.modes, q.modes) && (p.signals == 0 <==> q.signals == 0)
  }

  // ----- monotone steps -----

  lemma StrengthOrder(a: real, b: real)
    requires a <= b
    ensures Strength(a) <= Strength(b)
  {
  }

  lemma ScaledOrder(a: real, b: real, cap: real)
    requires a <= b && cap >= 0.0
    ensures a * cap <= b * cap
  {
  }

  lemma DeltaOrder(a: real, b: real, cap: real)
    requires a <= b && cap >= 0.0
    ensures Strength(a) * cap <= Strength(b) * cap
  {
    StrengthOrder(a, b);
    ScaledOrder(Strength(a), Strength(b), cap);
  }

  lemma SameFind<K>(xs: seq<Affinity<K>>, ys: seq<Affinity<K>>, key: K)
    requires NoLess(xs, ys)
    ensures Find(xs, key) == Find(ys, key)
  {
  }

  lemma KeyPartOrder<K>(xs: seq<Affinity<K>>, ys: seq<Affinity<K>>, key: K, cap: real)
    requires NoLess(xs, ys) && cap >= 0.0
    ensures KeyPart(xs, key, cap) <= KeyPart(ys, key, cap)
  {
    SameFind(xs, ys, key);
    var found := Find(xs, key);
    if found.Some? { DeltaOrder(xs[found.value].weight, ys[found.value].weight, cap); }
  }

  /** The most similar role is chosen by its key alone. */
  lemma SameSimilarRole(xs: seq<Affinity<string>>, ys: seq<Affinity<string>>, roleKey: string, threshold: real)
    requires NoLess(xs, ys)
    ensures FirstBest(xs, SimilarEnough(roleKey, threshold), SimilarTo(roleKey))
         == FirstBest(ys, SimilarEnough(roleKey, threshold), SimilarTo(roleKey))
  {
    var eligible, score := SimilarEnough(roleKey, threshold), SimilarTo(roleKey);
    forall i | 0 <= i < |xs| ensures eligible(xs[i]) == eligible(ys[i]) && score(xs[i]) == score(ys[i]) {}
    SameFirstBest(xs, ys, eligible, score);
  }

  lemma SameFirstBest<T>(xs: seq<T>, ys: seq<T>, eligible: T -> bool, score: T -> real)
    requires |xs| == |ys|
    requires forall i :: 0 <= i < |xs| ==> eligible(xs[i]) == eligible(ys[i]) && score(xs[i]) == score(ys[i])
    ensures FirstBest(xs, eligible, score) == FirstBest(ys, eligible, score)
  {
    var a, b := FirstBest(xs, eligible, score), FirstBest(ys, eligible, score);
    if a.Some? && b.Some? {
      assert eligible(ys[a.value]) && eligible(xs[b.value]);
      assert score(xs[a.value]) == score(ys[b.value]);
    }
  }

  lemma RoleDeltaOrder(a: real, b: real, similarity: real, cap: real)
    requires a <= b && similarity >= 0.0 && cap >= 0.0
    ensures Clamp(Strength(a) * similarity * cap, -cap, cap) <= Clamp(Strength(b) * similarity * cap, -cap, cap)
  {
    StrengthOrder(a, b);
    ScaledOrder(Strength(a), Strength(b), similarity);
    ScaledOrder(Strength(a) * similarity, Strength(b) * similarity, cap);
  }

  lemma RoleMatchOrder(c: Candidate, p: Learned, q: Learned, w: Weights)
    requires NoLess(p.roles, q.roles)
    ensures var a, b := RoleMatch(c, p, w), RoleMatch(c, q, w);
            a.Some? == b.Some?
            && (a.Some? ==> a.value.0.weight <= b.value.0.weight && a.value.1 == b.value.1 && a.value.1 >= 0.0)
  {
    SameFind(p.roles, q.roles, c.roleKey);
    SameSimilarRole(p.roles, q.roles, c.roleKey, w.roleBoost);
  }

  lemma RoleFoundOrder(a: Option<(Affinity<string>, real)>, b: Option<(Affinity<string>, real)>, cap: real)
    requires a.Some? == b.Some? && cap >= 0.0
    requires a.Some? ==> a.value.0.weight <= b.value.0.weight && a.value.1 == b.value.1 && a.value.1 >= 0.0
    ensures RoleDelta(a, cap) <= RoleDelta(b, cap)
  {
    if a.Some? { RoleDeltaOrder(a.value.0.weight, b.value.0.weight, a.value.1, cap); }
  }

  lemma RolePartOrder(c: Candidate, p: Learned, q: Learned, w: Weights)
    requires NoLess(p.roles, q.roles) && Open(w)
    ensures RolePart(c, p, w) <= RolePart(c, q, w)
  {
    RoleMatchOrder(c, p, q, w);
    RoleFoundOrder(RoleMatch(c, p, w), RoleMatch(c, q, w), w.role);
  }

  lemma {:induction false} HitStrengthOrder(xs: seq<Affinity<string>>, ys: seq<Affinity<string>>, job: set<string>)
    requires NoLess(xs, ys)
    ensures HitStrength(xs, job) <= HitStrength(ys, job)
    decreases |xs|
  {
    if xs != [] {
      var n := |xs| - 1;
      HitStrengthOrder(xs[..n], ys[..n], job);
      StrengthOrder(xs[n].weight, ys[n].weight);
    }
  }

  lemma SkillPartOrder(c: Candidate, p: Learned, q: Learned, w: Weights)
    requires NoLess(p.skills, q.skills) && Open(w)
    ensures SkillPart(c, p, w) <= SkillPart(c, q, w)
  {
    HitStrengthOrder(p.skills, q.skills, c.skills);
    ScaledOrder(Clamp(HitStrength(p.skills, c.skills), -1.0, 1.0), Clamp(HitStrength(q.skills, c.skills), -1.0, 1.0),
                w.skill);
  }

  /** Raising weights may change which of several places counts, but never for the worse: the strongest one is either
      liked, and then at least as much, or disliked, and then whatever takes its place is disliked no more. */
  lemma StrongestPlaceOrder(xs: seq<Affinity<string>>, ys: seq<Affinity<string>>, near: Affinity<string> -> bool)
    requires NoLess(xs, ys) && forall i :: 0 <= i < |xs| ==> near(xs[i]) == near(ys[i])
    ensures var a, b := FirstBest(xs, near, Magnitude), FirstBest(ys, near, Magnitude);
            a.Some? == b.Some? && (a.Some? ==> xs[a.value].weight <= ys[b.value].weight)
  {
    var a, b := FirstBest(xs, near, Magnitude), FirstBest(ys, near, Magnitude);
    if a.Some? && b.Some? {
      assert near(ys[a.value]) && near(xs[b.value]);
      assert Magnitude(xs[b.value]) <= Magnitude(xs[a.value]);
      assert Magnitude(ys[a.value]) <= Magnitude(ys[b.value]);
      if b.value < a.value {
        assert Magnitude(xs[b.value]) < Magnitude(xs[a.value]);
      } else if a.value < b.value {
        assert Magnitude(ys[a.value]) < Magnitude(ys[b.value]);
      }
    }
  }

  lemma FoundOrder<K>(a: Option<Affinity<K>>, b: Option<Affinity<K>>, cap: real)
    requires a.Some? == b.Some? && (a.Some? ==> a.value.weight <= b.value.weight) && cap >= 0.0
    ensures Delta(a, cap) <= Delta(b, cap)
  {
    if a.Some? { DeltaOrder(a.value.weight, b.value.weight, cap); }
  }

  lemma LocationMatchOrder(c: Candidate, p: Learned, q: Learned)
    requires NoLess(p.locations, q.locations)
    ensures var a, b := LocationMatch(c, p), LocationMatch(c, q);
            a.Some? == b.Some? && (a.Some? ==> a.value.weight <= b.value.weight)
  {
    if !Absent(c.location) {
      StrongestPlaceOrder(p.locations, q.locations, Near(c.location.value));
    }
  }

  lemma LocationPartOrder(c: Candidate, p: Learned, q: Learned, w: Weights)
    requires NoLess(p.locations, q.locations) && Open(w)
    ensures LocationPart(c, p, w) <= LocationPart(c, q, w)
  {
    LocationMatchOrder(c, p, q);
    FoundOrder(LocationMatch(c, p), LocationMatch(c, q), w.location);
  }

  /** Liking more, or disliking less, anything that was learned never lowers the score of any candidate. */
  lemma LikingMoreNeverScoresLower(c: Candidate, p: Learned, q: Learned, w: Weights, round: Rounding)
    requires NoLessLiked(p, q) && Open(w)
    ensures Preference(c, p, w) <= Preference(c, q, w)
    ensures RankOne(c, p, w, round).final <= RankOne(c, q, w, round).final
  {
    RolePartOrder(c, p, q, w);
    SkillPartOrder(c, p, q, w);
    LocationPartOrder(c, p, q, w);
    if c.companyKey != [] { KeyPartOrder(p.companies, q.companies, c.companyKey, w.companyPref); }
    if !Absent(c.mode) { KeyPartOrder(p.modes, q.modes, c.mode.value, w.mode); }
    assert Final(c, p, w) <= Final(c, q, w);
  }

  // ----- the shipped adjustments -----

  /** By default a job of the last two days gains six, of the last week four, of the last two weeks two. */
  lemma DefaultFreshness(age: real)
    ensures Freshness(None, DEFAULTS) == 0.0
    ensures Freshness(Some(age), DEFAULTS)
         == if age <= 2.0 then 6.0 else if age <= 7.0 then 4.0 else if age <= 14.0 then 2.0 else 0.0
  {
  }

  /** A good match gains five, an interesting one three, a poor match loses fifteen; other verdicts move nothing. */
  lemma DefaultFeedback()
    ensures FeedbackPart(Some(MatchCache.Positive), DEFAULTS) == 5.0
    ensures FeedbackPart(Some(MatchCache.Interested), DEFAULTS) == 3.0
    ensures FeedbackPart(Some(MatchCache.Negative), DEFAULTS) == -15.0
    ensures FeedbackPart(Some(MatchCache.NotRelevant), DEFAULTS) == 0.0 == FeedbackPart(None, DEFAULTS)
  {
  }

  /** A watched company gains two, three or five by its score, a preferred one three, both together at most five; an
      excluded one loses ten. */
  lemma DefaultStanding(c: Candidate)
    ensures var watched := if c.watchlist.None? then 0.0
                           else if c.watchlist.value >= 90.0 then 5.0 else if c.watchlist.value >= 75.0 then 3.0 else 2.0;
            var profile := if c.companyScore == Some(100.0) then 3.0
                           else if c.companyScore == Some(0.0) then -10.0 else 0.0;
            Standing(c, DEFAULTS) == if watched + profile > 5.0 then 5.0 else watched + profile
  {
  }

  /** The most each dimension moves a score by default, and all of them together. */
  lemma DefaultCaps(c: Candidate, p: Learned)
    ensures -6.0 <= RolePart(c, p, DEFAULTS) <= 6.0 && -5.0 <= SkillPart(c, p, DEFAULTS) <= 5.0
    ensures -4.0 <= CompanyPart(c, p, DEFAULTS) <= 4.0 && -3.0 <= LocationPart(c, p, DEFAULTS) <= 3.0
    ensures -3.0 <= ModePart(c, p, DEFAULTS) <= 3.0 && -15.0 <= Preference(c, p, DEFAULTS) <= 15.0
    ensures DEFAULTS.roleHide == 0.75 && DEFAULTS.roleBoost == 0.5
  {
  }

  // ----- one thing learned -----

  const NOTHING := Learned([], [], [], [], [], [], [], 1)

  /** A number has the sign of a weight. */
  predicate SameSign(x: real, weight: real) {
    (x > 0.0 <==> weight > 0.0) && (x < 0.0 <==> weight < 0.0)
  }

  lemma StrengthSign(weight: real)
    ensures SameSign(Strength(weight), weight)
    ensures weight >= 3.0 ==> Strength(weight) == 1.0
    ensures weight <= -3.0 ==> Strength(weight) == -1.0
  {
  }

  lemma ScaledSign(x: real, cap: real)
    requires cap > 0.0
    ensures SameSign(x * cap, x)
  {
  }

  lemma FindOnly<K>(a: Affinity<K>)
    ensures Find([a], a.key) == Some(0)
  {
  }

  /** What the one thing learned moves: up if it is liked, down if it is disliked, all the way at a weight of three. */
  predicate Moves(preference: real, weight: real, cap: real, w: Weights) {
    SameSign(preference, weight)
    && (weight >= 3.0 ==> preference == MinR(cap, w.preference))
    && (weight <= -3.0 ==> preference == -MinR(cap, w.preference))
  }

  lemma DeltaMoves(weight: real, cap: real, w: Weights)
    requires cap > 0.0 && w.preference > 0.0
    ensures Moves(Clamp(Strength(weight) * cap, -w.preference, w.preference), weight, cap, w)
  {
    StrengthSign(weight);
    ScaledSign(Strength(weight), cap);
  }

  lemma OneCompany(c: Candidate, a: Affinity<seq<string>>, w: Weights)
    requires w.companyPref > 0.0 && w.preference > 0.0 && c.companyKey == a.key != []
    ensures Moves(Preference(c, NOTHING.(companies := [a]), w), a.weight, w.companyPref, w)
  {
    FindOnly(a);
    DeltaMoves(a.weight, w.companyPref, w);
  }

  lemma OneMode(c: Candidate, a: Affinity<string>, w: Weights)
    requires w.mode > 0.0 && w.preference > 0.0 && c.mode == Some(a.key) && a.key != ""
    ensures Moves(Preference(c, NOTHING.(modes := [a]), w), a.weight, w.mode, w)
  {
    FindOnly(a);
    DeltaMoves(a.weight, w.mode, w);
  }

  lemma OnlyPlaceMatches(c: Candidate, a: Affinity<string>)
    requires !Absent(c.location) && a.key != ""
    requires Contains(c.location.value, a.key) || Contains(a.key, c.location.value)
    ensures LocationMatch(c, NOTHING.(locations := [a])) == Some(a)
  {
    assert FirstBest([a], Near(c.location.value), Magnitude) == Some(0);
  }

  /** A place counts when it contains the candidate's or lies in it. */
  lemma OnePlace(c: Candidate, a: Affinity<string>, w: Weights)
    requires w.location > 0.0 && w.preference > 0.0 && !Absent(c.location) && a.key != ""
    requires Contains(c.location.value, a.key) || Contains(a.key, c.location.value)
    ensures Moves(Preference(c, NOTHING.(locations := [a]), w), a.weight, w.location, w)
  {
    OnlyPlaceMatches(c, a);
    DeltaMoves(a.weight, w.location, w);
    OnlyPlace(c, a, w);
  }

  lemma OnlyPlace(c: Candidate, a: Affinity<string>, w: Weights)
    requires LocationMatch(c, NOTHING.(locations := [a])) == Some(a)
    ensures Preference(c, NOTHING.(locations := [a]), w)
         == Clamp(Strength(a.weight) * w.location, -w.preference, w.preference)
  {
  }

  lemma OneSkill(c: Candidate, a: Affinity<string>, w: Weights)
    requires w.skill > 0.0 && w.preference > 0.0 && a.key in c.skills
    ensures Moves(Preference(c, NOTHING.(skills := [a]), w), a.weight, w.skill, w)
  {
    assert HitStrength([a][..0], c.skills) == 0.0;
    DeltaMoves(a.weight, w.skill, w);
  }

  lemma OnlyRole(c: Candidate, a: Affinity<string>, w: Weights, similarity: real)
    requires RoleMatch(c, NOTHING.(roles := [a]), w) == Some((a, similarity))
    ensures Preference(c, NOTHING.(roles := [a]), w)
         == Clamp(RoleDelta(Some((a, similarity)), w.role), -w.preference, w.preference)
  {
  }

  /** Scaled by a similarity up to one, a strength stays within the cap. */
  lemma SimilarRoleDelta(a: Affinity<string>, similarity: real, cap: real)
    requires 0.0 < similarity <= 1.0 && cap > 0.0
    ensures RoleDelta(Some((a, similarity)), cap) == Strength(a.weight) * Product(similarity, cap)
    ensures Product(similarity, cap) > 0.0
  {
    var scaled := Product(similarity, cap);
    ScaledOrder(similarity, 1.0, cap);
    assert 0.0 < scaled <= cap;
    Within(Strength(a.weight), scaled, cap);
    Reassociate(Strength(a.weight), similarity, cap);
  }

  lemma Reassociate(a: real, b: real, c: real)
    ensures a * b * c == a * (b * c)
  {
  }

  lemma Within(strength: real, scaled: real, cap: real)
    requires -1.0 <= strength <= 1.0 && 0.0 < scaled <= cap
    ensures -cap <= strength * scaled <= cap
  {
    ProductOrder(scaled, strength, 1.0);
    ProductOrder(scaled, -1.0, strength);
    assert Product(scaled, strength) == strength * scaled;
  }

  lemma OneRole(c: Candidate, a: Affinity<string>, w: Weights)
    requires w.role > 0.0 && w.preference > 0.0 && c.roleKey == a.key != ""
    ensures Moves(Preference(c, NOTHING.(roles := [a]), w), a.weight, w.role, w)
  {
    FindOnly(a);
    assert RoleMatch(c, NOTHING.(roles := [a]), w) == Some((a, 1.0));
    OnlyRole(c, a, w, 1.0);
    SimilarRoleMoves(a, 1.0, w);
    assert Product(1.0, w.role) == w.role;
  }

  lemma OnlySimilarMatches(c: Candidate, a: Affinity<string>, w: Weights)
    requires c.roleKey != "" && c.roleKey != a.key && TokenJaccard(c.roleKey, a.key) >= w.roleBoost
    ensures RoleMatch(c, NOTHING.(roles := [a]), w) == Some((a, TokenJaccard(c.roleKey, a.key)))
  {
    assert Find([a], c.roleKey).None?;
    assert FirstBest([a], SimilarEnough(c.roleKey, w.roleBoost), SimilarTo(c.roleKey)) == Some(0);
  }

  /** A role that is only similar enough moves the score the same way, in proportion to the similarity. */
  lemma OneSimilarRole(c: Candidate, a: Affinity<string>, w: Weights)
    requires w.role > 0.0 && w.preference > 0.0 && c.roleKey != "" && c.roleKey != a.key
    requires TokenJaccard(c.roleKey, a.key) >= w.roleBoost > 0.0
    ensures Moves(Preference(c, NOTHING.(roles := [a]), w), a.weight, Product(TokenJaccard(c.roleKey, a.key), w.role), w)
  {
    OnlySimilarMatches(c, a, w);
    OnlyRole(c, a, w, TokenJaccard(c.roleKey, a.key));
    SimilarRoleMoves(a, TokenJaccard(c.roleKey, a.key), w);
  }

  lemma SimilarRoleMoves(a: Affinity<string>, similarity: real, w: Weights)
    requires 0.0 < similarity <= 1.0 && w.role > 0.0 && w.preference > 0.0
    ensures Moves(Clamp(RoleDelta(Some((a, similarity)), w.role), -w.preference, w.preference), a.weight,
                  Product(similarity, w.role), w)
  {
    SimilarRoleDelta(a, similarity, w.role);
    PartMoves(RoleDelta(Some((a, similarity)), w.role), a.weight, Product(similarity, w.role), w);
  }

  lemma PartMoves(part: real, weight: real, cap: real, w: Weights)
    requires part == Strength(weight) * cap && cap > 0.0 && w.preference > 0.0
    ensures Moves(Clamp(part, -w.preference, w.preference), weight, cap, w)
  {
    DeltaMoves(weight, cap, w);
  }
}
