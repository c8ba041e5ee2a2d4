/** The feed as it is computed, and what hiding does to it. */
module RankingService {
  import opened Prelude
  import opened JobIdentity
  import opened Learning
  import opened Ranking
  import opened Tenths
  import Signals
  import StableSort

  // ----- the loops -----

  method ScanBest(xs: seq<Affinity<string>>, eligible: Affinity<string> -> bool, score: Affinity<string> -> real)
    returns (best: Option<Affinity<string>>)
    ensures best == Entry(xs, FirstBest(xs, eligible, score))
  {
    best := None;
    for n := 0 to |xs|
      invariant best == Entry(xs[..n], FirstBest(xs[..n], eligible, score))
    {
      assert xs[..n + 1][..n] == xs[..n];
      if eligible(xs[n]) && (best.None? || score(xs[n]) > score(best.value)) {
        best := Some(xs[n]);
      }
    }
    assert xs[..|xs|] == xs;
  }

  method AddSkills(skills: seq<Affinity<string>>, job: set<string>) returns (total: real)
    ensures total == HitStrength(skills, job)
  {
    total := 0.0;
    for n := 0 to |skills|
      invariant total == HitStrength(skills[..n], job)
    {
      assert skills[..n + 1][..n] == skills[..n];
      if skills[n].key in job {
        total := total + Strength(skills[n].weight);
      }
    }
    assert skills[..|skills|] == skills;
  }

  /** Exact role key first, then the scan for the most similar. */
  method MatchRole(c: Candidate, prefs: Learned, w: Weights) returns (found: Option<(Affinity<string>, real)>)
    ensures found == RoleMatch(c, prefs, w)
  {
    if c.roleKey == "" {
      return None;
    }
    var exact := Find(prefs.roles, c.roleKey);
    if exact.Some? {
      return Some((prefs.roles[exact.value], 1.0));
    }
    var best := ScanBest(prefs.roles, SimilarEnough(c.roleKey, w.roleBoost), SimilarTo(c.roleKey));
    found := if best.None? then None else Some((best.value, TokenJaccard(c.roleKey, best.value.key)));
  }

  method MatchLocation(c: Candidate, prefs: Learned) returns (found: Option<Affinity<string>>)
    ensures found == LocationMatch(c, prefs)
  {
    if Absent(c.location) {
      return None;
    }
    found := ScanBest(prefs.locations, Near(c.location.value), Magnitude);
  }

  /** `preference` accumulates one dimension after another. */
  method AddPreference(c: Candidate, prefs: Learned, w: Weights) returns (preference: real)
    ensures preference == Preference(c, prefs, w)
  {
    preference := 0.0;
    if prefs.signals != 0 {
      var role := MatchRole(c, prefs, w);
      preference := preference + RoleDelta(role, w.role);
      var hits := AddSkills(prefs.skills, c.skills);
      preference := preference + SkillDelta(hits, w.skill);
      preference := preference + CompanyPart(c, prefs, w);
      var location := MatchLocation(c, prefs);
      preference := preference + Delta(location, w.location);
      preference := preference + ModePart(c, prefs, w);
    }
    preference := Clamp(preference, -w.preference, w.preference);
  }

  method RankRows(rows: seq<Candidate>, prefs: Learned, w: Weights, round: Rounding, exclude: bool)
    returns (ranked: seq<Ranked>, dropped: nat)
    ensures ranked == Rank(rows, prefs, w, round, exclude)
    ensures dropped + |ranked| == |rows|
  {
    ranked, dropped := [], 0;
    for n := 0 to |rows|
      invariant ranked == Scored(rows[..n], prefs, w, round, exclude)
      invariant dropped + |ranked| == n
    {
      assert rows[..n + 1][..n] == rows[..n];
      if exclude && Excluded(rows[n], prefs, w) {
        dropped := dropped + 1;
      } else {
        var preference := AddPreference(rows[n], prefs, w);
        var parts := Parts(
          preference, Freshness(rows[n].age, w), Standing(rows[n], w), FeedbackPart(rows[n].feedback, w));
        ranked := ranked + [Ranked(rows[n], round(Clamp(rows[n].base + Sum(parts), 0.0, 100.0)), parts)];
      }
    }
    assert rows[..|rows|] == rows;
    StableSort.SortIsStable(ranked, SortKey);
    assert |multiset(ranked)| == |multiset(StableSort.Sort(ranked, SortKey))|;
    ranked := StableSort.Sort(ranked, SortKey);
  }

  // ----- hiding sticks -----

  function RowsOf(s: Signals.Store, user: nat): seq<Signals.Row> {
    Signals.Without(s.rows, (r: Signals.Row) => r.user != user)
  }

  /** A company a user hid stays out of the feed, whatever the user does to other jobs and whatever is scored, until
      that very signal is undone. */
  lemma HiddenCompanyStaysHidden(
    s: Signals.Store, hiding: Signals.Row, events: seq<Signals.Event>,
    rows: seq<Candidate>, w: Weights, round: Rounding, limit: nat, offset: nat, shown: Ranked)
    requires hiding in s.rows && hiding.kind == Signals.HideCompany && hiding.facts.companyKey != []
    requires forall k :: 0 <= k < |events| ==> !Signals.Undoes(events[k], hiding)
    requires shown in
             Recommended(rows, LearnedFrom(RowsOf(Signals.Run(s, events), hiding.user)), w, round, limit, offset).0
    ensures shown.candidate.companyKey != hiding.facts.companyKey
  {
    var own := RowsOf(Signals.Run(s, events), hiding.user);
    Signals.SignalSurvives(s, events, hiding);
    assert hiding in own;
    var keyOf := (r: Signals.Row) => r.facts.companyKey;
    HiddenIff(own, Signals.HideCompany, keyOf, hiding.facts.companyKey);
    assert SomeRowHides(own, Signals.HideCompany, keyOf, hiding.facts.companyKey);
    NothingHiddenIsShown(rows, LearnedFrom(own), w, round, limit, offset, shown);
  }

  /** So does every role equal or close to one the user hid. */
  lemma HiddenRoleStaysHidden(
    s: Signals.Store, hiding: Signals.Row, events: seq<Signals.Event>,
    rows: seq<Candidate>, w: Weights, round: Rounding, limit: nat, offset: nat, shown: Ranked)
    requires hiding in s.rows && hiding.kind == Signals.HideRole
    requires forall k :: 0 <= k < |events| ==> !Signals.Undoes(events[k], hiding)
    requires shown in
             Recommended(rows, LearnedFrom(RowsOf(Signals.Run(s, events), hiding.user)), w, round, limit, offset).0
    requires shown.candidate.roleKey != ""
    ensures shown.candidate.roleKey != hiding.facts.roleKey
    ensures TokenJaccard(shown.candidate.roleKey, hiding.facts.roleKey) < w.roleHide
  {
    var own := RowsOf(Signals.Run(s, events), hiding.user);
    Signals.SignalSurvives(s, events, hiding);
    assert hiding in own;
    var keyOf := (r: Signals.Row) => r.facts.roleKey;
    HiddenIff(own, Signals.HideRole, keyOf, hiding.facts.roleKey);
    assert SomeRowHides(own, Signals.HideRole, keyOf, hiding.facts.roleKey);
    var hidden := LearnedFrom(own).hiddenRoles;
    var i :| 0 <= i < |hidden| && hidden[i].key == hiding.facts.roleKey;
    assert hidden[i] in hidden;
    NothingHiddenIsShown(rows, LearnedFrom(own), w, round, limit, offset, shown);
  }
}
