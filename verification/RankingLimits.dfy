/** How sharp the lead of 71 is: a user's own four actions teach preferences under which a job 71 points ahead, less
    any amount rounding can show, ranks behind. */
module RankingLimits {
  import opened Prelude
  import opened JobIdentity
  import opened Learning
  import opened Ranking
  import opened RankingService
  import opened Tenths
  import MatchCache
  import RuleComponents
  import RuleScores
  import Signals
  import StableSort

  // ----- first signals -----

  function Facts(word: string): Signals.Snapshot {
    Signals.Snapshot(word, [word], None, None, [word])
  }

  /** Applied to one good job, found one bad job irrelevant, disliked job 0, liked job 1. */
  function History(user: nat, good: string, bad: string): (h: seq<Signals.Event>)
    ensures |h| == 4 && FirstSignals(h)
  {
    [Signals.Record(user, 2, Signals.Applied, Facts(good)), Signals.Record(user, 3, Signals.Irrelevant, Facts(bad)),
     Signals.Record(user, 0, Signals.Negative, Facts(bad)), Signals.Record(user, 1, Signals.Positive, Facts(good))]
  }

  /** One action on each of several jobs. */
  predicate FirstSignals(events: seq<Signals.Event>) {
    (forall i :: 0 <= i < |events| ==> events[i].Record?)
    && (forall i, k :: 0 <= i < k < |events| ==> events[i].job != events[k].job)
  }

  function RowFor(id: nat, e: Signals.Event): Signals.Row
    requires e.Record?
  {
    Signals.Row(id, e.user, e.job, Signals.Taught(e.action).0, e.facts, Signals.Taught(e.action).1)
  }

  function RowsFor(events: seq<Signals.Event>): (rows: seq<Signals.Row>)
    requires FirstSignals(events)
    ensures |rows| == |events| && forall i :: 0 <= i < |rows| ==> rows[i] == RowFor(i, events[i])
  {
    seq(|events|, i requires 0 <= i < |events| => RowFor(i, events[i]))
  }

  ghost predicate Untouched(rows: seq<Signals.Row>, job: nat) {
    forall i :: 0 <= i < |rows| ==> rows[i].job != job
  }

  /** The first signal on a job appends a row. */
  lemma FirstSignalAppends(s: Signals.Store, e: Signals.Event)
    requires e.Record? && Untouched(s.rows, e.job)
    ensures Signals.Step(s, e) == Signals.Store(s.rows + [RowFor(s.next, e)], s.next + 1)
  {
    var kind := Signals.Taught(e.action).0;
    Signals.WithoutNone(s.rows, Signals.InSlot(e.user, e.job, Signals.VERDICTS - {kind}));
  }

  lemma OneMoreRow(events: seq<Signals.Event>, n: nat)
    requires FirstSignals(events) && n < |events|
    ensures RowsFor(events)[..n + 1] == RowsFor(events)[..n] + [RowFor(n, events[n])]
    ensures Untouched(RowsFor(events)[..n], events[n].job)
  {
  }

  lemma RunPrefix(start: Signals.Store, events: seq<Signals.Event>, n: nat)
    requires n < |events|
    ensures Signals.Run(start, events[..n + 1]) == Signals.Step(Signals.Run(start, events[..n]), events[n])
  {
    assert events[..n + 1][..n] == events[..n];
  }

  lemma {:induction false} FirstSignalsGiveRows(start: Signals.Store, events: seq<Signals.Event>, n: nat)
    requires FirstSignals(events) && start == Signals.Store([], 0) && n <= |events|
    ensures Signals.Run(start, events[..n]) == Signals.Store(RowsFor(events)[..n], n)
    decreases n
  {
    if n > 0 {
      FirstSignalsGiveRows(start, events, n - 1);
      RunPrefix(start, events, n - 1);
      OneMoreRow(events, n - 1);
      FirstSignalAppends(Signals.Store(RowsFor(events)[..n - 1], n - 1), events[n - 1]);
    }
  }

  /** What the user's preferences are after those actions. */
  function Opinion(user: nat, good: string, bad: string): Learned {
    LearnedFrom(RowsFor(History(user, good, bad)))
  }

  lemma HistoryTeaches(user: nat, good: string, bad: string)
    ensures LearnedFrom(RowsOf(Signals.Run(Signals.Store([], 0), History(user, good, bad)), user))
         == Opinion(user, good, bad)
  {
    var h := History(user, good, bad);
    FirstSignalsGiveRows(Signals.Store([], 0), h, |h|);
    assert h[..|h|] == h && RowsFor(h)[..|h|] == RowsFor(h);
    Signals.WithoutNone(RowsFor(History(user, good, bad)), (r: Signals.Row) => r.user != user);
  }

  // ----- what they teach -----

  function Share<K(==)>(r: Signals.Row, keysOf: Signals.Row -> seq<K>, key: K): real {
    if !Hides(r.kind) && key in keysOf(r) then r.weight else 0.0
  }

  lemma WeightOfFour<K>(rows: seq<Signals.Row>, keysOf: Signals.Row -> seq<K>, key: K)
    requires |rows| == 4
    ensures KeyWeight(rows, keysOf, key)
         == Share(rows[0], keysOf, key) + Share(rows[1], keysOf, key) + Share(rows[2], keysOf, key)
            + Share(rows[3], keysOf, key)
  {
    assert rows[..3][..2] == rows[..2] && rows[..2][..1] == rows[..1] && rows[..1][..0] == [];
    assert KeyWeight(rows[..1], keysOf, key) == Share(rows[0], keysOf, key);
    assert KeyWeight(rows[..2], keysOf, key) == KeyWeight(rows[..1], keysOf, key) + Share(rows[1], keysOf, key);
    assert KeyWeight(rows[..3], keysOf, key) == KeyWeight(rows[..2], keysOf, key) + Share(rows[2], keysOf, key);
  }

  /** The rows of the history name the good key, the bad key, the bad key and the good key. */
  ghost predicate Names<K>(rows: seq<Signals.Row>, keysOf: Signals.Row -> seq<K>, good: K, bad: K) {
    |rows| == 4 && good != bad
    && keysOf(rows[0]) == [good] && keysOf(rows[1]) == [bad] && keysOf(rows[2]) == [bad] && keysOf(rows[3]) == [good]
  }

  /** Each dimension weighs the good key 4 and the bad key -3. */
  lemma LearnedWeight<K(!new)>(user: nat, a: string, b: string, keysOf: Signals.Row -> seq<K>, good: K, bad: K)
    requires Names(RowsFor(History(user, a, b)), keysOf, good, bad)
    ensures OnePerKey(Fold(RowsFor(History(user, a, b)), keysOf))
    ensures WeightAt(Fold(RowsFor(History(user, a, b)), keysOf), good) == 4.0
    ensures WeightAt(Fold(RowsFor(History(user, a, b)), keysOf), bad) == -3.0
  {
    var rows := RowsFor(History(user, a, b));
    WeightOfFour(rows, keysOf, good);
    WeightOfFour(rows, keysOf, bad);
    AggregateIsSum(rows, keysOf, good, None);
    AggregateIsSum(rows, keysOf, bad, None);
  }

  lemma KeyPartOfWeight<K>(bucket: seq<Affinity<K>>, key: K, cap: real)
    ensures WeightAt(bucket, key) == 4.0 ==> KeyPart(bucket, key, cap) == cap
    ensures WeightAt(bucket, key) == -3.0 ==> KeyPart(bucket, key, cap) == -cap
  {
  }

  lemma {:induction false} HitStrengthOfOne(skills: seq<Affinity<string>>, key: string)
    requires OnePerKey(skills)
    ensures HitStrength(skills, {key}) == Strength(WeightAt(skills, key))
    decreases |skills|
  {
    if skills != [] {
      var n := |skills| - 1;
      HitStrengthOfOne(skills[..n], key);
      if skills[n].key == key {
        FindUnique(skills, n);
        assert Find(skills[..n], key).None?;
      } else if Find(skills[..n], key).Some? {
        FindUnique(skills, Find(skills[..n], key).value);
      }
    }
  }

  lemma {:induction false} BumpAllLength<K>(bucket: seq<Affinity<K>>, keys: seq<K>, kind: Signals.Kind, weight: real)
    ensures |BumpAll(bucket, keys, kind, weight)| <= |bucket| + |keys|
    decreases |keys|
  {
    if keys != [] {
      BumpAllLength(bucket, keys[..|keys| - 1], kind, weight);
    }
  }

  lemma {:induction false} FewRoles(rows: seq<Signals.Row>)
    ensures |Fold(rows, RoleKeys)| <= |rows|
    decreases |rows|
  {
    if rows != [] {
      var r := rows[|rows| - 1];
      FewRoles(rows[..|rows| - 1]);
      BumpAllLength(Fold(rows[..|rows| - 1], RoleKeys), RoleKeys(r), r.kind, r.weight);
    }
  }

  lemma SameMembersSameWeight(top: seq<Affinity<string>>, roles: seq<Affinity<string>>, key: string)
    requires OnePerKey(roles) && forall a :: a in top <==> a in roles
    ensures WeightAt(top, key) == WeightAt(roles, key)
  {
    var i, k := Find(top, key), Find(roles, key);
    if k.Some? {
      assert roles[k.value] in top;
    }
    if i.Some? {
      assert top[i.value] in roles;
      var x :| 0 <= x < |roles| && roles[x] == top[i.value];
      FindUnique(roles, x);
    }
  }

  /** With twenty roles or fewer, the cut changes no lookup. */
  lemma TopRolesKeepWeights(roles: seq<Affinity<string>>, key: string)
    requires OnePerKey(roles) && |roles| <= MAX_ROLE_KEYS
    ensures WeightAt(TopRoles(roles), key) == WeightAt(roles, key)
  {
    FewRolesAllKept(roles);
    forall a ensures a in TopRoles(roles) <==> a in roles {
      assert a in multiset(TopRoles(roles)) <==> a in multiset(roles);
    }
    SameMembersSameWeight(TopRoles(roles), roles, key);
  }

  lemma {:induction false} NothingHidden<K>(rows: seq<Signals.Row>, kind: Signals.Kind, keyOf: Signals.Row -> K)
    requires forall i :: 0 <= i < |rows| ==> rows[i].kind != kind
    ensures HiddenBy(rows, kind, keyOf) == []
    decreases |rows|
  {
    if rows != [] {
      NothingHidden(rows[..|rows| - 1], kind, keyOf);
    }
  }

  lemma OpinionHidesNothing(user: nat, good: string, bad: string, c: Candidate)
    ensures !Excluded(c, Opinion(user, good, bad), DEFAULTS)
  {
    var rows := RowsFor(History(user, good, bad));
    NothingHidden(rows, Signals.HideCompany, (r: Signals.Row) => r.facts.companyKey);
    NothingHidden(rows, Signals.HideRole, (r: Signals.Row) => r.facts.roleKey);
  }

  // ----- two candidates -----

  /** Job 0: old, at a company the profile excludes. */
  function Disliked(base: real, bad: string): Candidate {
    Candidate(0, base, bad, [bad], {bad}, None, None, Some(30.0), None, Some(0.0), Some(MatchCache.Negative))
  }

  /** Job 1: new, at a company watched with high priority. */
  function Favourite(base: real, good: string): Candidate {
    Candidate(1, base, good, [good], {good}, None, None, Some(0.0), Some(90.0), Some(50.0), Some(MatchCache.Positive))
  }

  predicate Words(good: string, bad: string) {
    good != bad && good != "" && bad != ""
  }

  predicate About(c: Candidate, word: string) {
    c.roleKey == word && c.companyKey == [word] && c.skills == {word} && c.location.None? && c.mode.None?
  }

  lemma RoleWeights(user: nat, good: string, bad: string)
    requires Words(good, bad)
    ensures WeightAt(Opinion(user, good, bad).roles, good) == 4.0
    ensures WeightAt(Opinion(user, good, bad).roles, bad) == -3.0
  {
    var rows := RowsFor(History(user, good, bad));
    LearnedWeight(user, good, bad, RoleKeys, good, bad);
    FewRoles(rows);
    TopRolesKeepWeights(Fold(rows, RoleKeys), good);
    TopRolesKeepWeights(Fold(rows, RoleKeys), bad);
  }

  lemma RolePartOfWeight(c: Candidate, prefs: Learned)
    requires c.roleKey != ""
    ensures WeightAt(prefs.roles, c.roleKey) == 4.0 ==> RolePart(c, prefs, DEFAULTS) == 6.0
    ensures WeightAt(prefs.roles, c.roleKey) == -3.0 ==> RolePart(c, prefs, DEFAULTS) == -6.0
  {
  }

  lemma RoleOpinion(user: nat, good: string, bad: string, c: Candidate)
    requires Words(good, bad)
    ensures About(c, good) ==> RolePart(c, Opinion(user, good, bad), DEFAULTS) == 6.0
    ensures About(c, bad) ==> RolePart(c, Opinion(user, good, bad), DEFAULTS) == -6.0
  {
    RoleWeights(user, good, bad);
    if c.roleKey != "" { RolePartOfWeight(c, Opinion(user, good, bad)); }
  }

  lemma SkillOpinion(user: nat, good: string, bad: string, c: Candidate)
    requires Words(good, bad)
    ensures About(c, good) ==> SkillPart(c, Opinion(user, good, bad), DEFAULTS) == 5.0
    ensures About(c, bad) ==> SkillPart(c, Opinion(user, good, bad), DEFAULTS) == -5.0
  {
    LearnedWeight(user, good, bad, SkillKeys, good, bad);
    HitStrengthOfOne(Opinion(user, good, bad).skills, good);
    HitStrengthOfOne(Opinion(user, good, bad).skills, bad);
  }

  lemma CompanyOpinion(user: nat, good: string, bad: string, c: Candidate)
    requires Words(good, bad)
    ensures About(c, good) ==> CompanyPart(c, Opinion(user, good, bad), DEFAULTS) == 4.0
    ensures About(c, bad) ==> CompanyPart(c, Opinion(user, good, bad), DEFAULTS) == -4.0
  {
    LearnedWeight(user, good, bad, CompanyKeys, [good], [bad]);
    KeyPartOfWeight(Opinion(user, good, bad).companies, [good], DEFAULTS.companyPref);
    KeyPartOfWeight(Opinion(user, good, bad).companies, [bad], DEFAULTS.companyPref);
  }

  lemma PreferenceIsExtreme(user: nat, good: string, bad: string, c: Candidate)
    requires Words(good, bad)
    ensures About(c, good) ==> Preference(c, Opinion(user, good, bad), DEFAULTS) == 15.0
    ensures About(c, bad) ==> Preference(c, Opinion(user, good, bad), DEFAULTS) == -15.0
  {
    RoleOpinion(user, good, bad, c);
    SkillOpinion(user, good, bad, c);
    CompanyOpinion(user, good, bad, c);
  }

  lemma DislikedScore(user: nat, good: string, bad: string, base: real)
    requires Words(good, bad) && 0.0 <= base <= 100.0
    ensures Final(Disliked(base, bad), Opinion(user, good, bad), DEFAULTS) == MaxR(0.0, base - 40.0)
  {
    PreferenceIsExtreme(user, good, bad, Disliked(base, bad));
  }

  lemma FavouriteScore(user: nat, good: string, bad: string, base: real)
    requires Words(good, bad) && 0.0 <= base <= 69.0
    ensures Final(Favourite(base, good), Opinion(user, good, bad), DEFAULTS) == base + 31.0
  {
    PreferenceIsExtreme(user, good, bad, Favourite(base, good));
  }

  // ----- their base scores -----

  lemma NineTerms(shares: seq<real>, values: seq<real>)
    requires |shares| == |values| == 9
    ensures RuleScores.WeightedSum(shares, values)
         == RuleScores.WeightedSum(shares[..7], values[..7]) + Product(shares[7], values[7]) + Product(shares[8], values[8])
  {
    assert shares[..8][..7] == shares[..7] && values[..8][..7] == values[..7];
  }

  /** Equal components but for company and watchlist. */
  function Uniform(v: RuleComponents.Score, company: RuleComponents.Score, watchlist: Option<RuleComponents.Score>)
    : RuleComponents.Components
  {
    RuleComponents.Components(v, v, v, v, v, v, v, company, watchlist)
  }

  lemma SharesSum()
    ensures var shares := RuleScores.Shares(RuleScores.DEFAULTS);
            RuleScores.Total(shares[..7]) == 0.95 && RuleScores.Total(shares) == 1.10
  {
    var s := RuleScores.Shares(RuleScores.DEFAULTS);
    assert s[..8][..7] == s[..7] && s[..7][..6] == s[..6] && s[..6][..5] == s[..5] && s[..5][..4] == s[..4];
    assert s[..4][..3] == s[..3] && s[..3][..2] == s[..2] && s[..2][..1] == s[..1] && s[..1][..0] == [];
    assert RuleScores.Total(s[..1]) == 0.25 && RuleScores.Total(s[..2]) == 0.50 && RuleScores.Total(s[..3]) == 0.65;
    assert RuleScores.Total(s[..4]) == 0.75 && RuleScores.Total(s[..5]) == 0.85 && RuleScores.Total(s[..6]) == 0.90;
    assert RuleScores.Total(s[..7]) == 0.95 && RuleScores.Total(s[..8]) == 1.0;
  }

  lemma UniformMean(v: RuleComponents.Score, company: RuleComponents.Score, watchlist: Option<RuleComponents.Score>)
    ensures RuleScores.Mean(RuleScores.DEFAULTS, Uniform(v, company, watchlist))
         == (0.95 * v + 0.05 * company + 0.10 * (if watchlist.Some? then watchlist.value else 50.0)) / 1.10
  {
    var shares := RuleScores.Shares(RuleScores.DEFAULTS);
    var values := RuleScores.Values(Uniform(v, company, watchlist));
    SharesSum();
    NineTerms(shares, values);
    RuleScores.SumOfEqual(shares[..7], values[..7], v);
  }

  /** Some components with this company score and watchlist score average to the base. */
  ghost predicate Reachable(base: real, company: RuleComponents.Score, watchlist: Option<RuleComponents.Score>) {
    exists c: RuleComponents.Components ::
      c.company == company && c.watchlist == watchlist && RuleScores.Mean(RuleScores.DEFAULTS, c) == base
  }

  /** Excluded and unwatched jobs reach every base from 5 to 90. */
  lemma DislikedBase(base: real)
    requires 5.0 <= base <= 90.0
    ensures Reachable(base, 0.0, None)
  {
    var v: RuleComponents.Score := (1.10 * base - 5.0) / 0.95;
    UniformMean(v, 0.0, None);
    assert RuleScores.Mean(RuleScores.DEFAULTS, Uniform(v, 0.0, None)) == base;
  }

  /** Jobs watched with high priority reach every base from 11 to 96. */
  lemma FavouriteBase(base: real)
    requires 11.0 <= base <= 96.0
    ensures Reachable(base, 50.0, Some(90.0))
  {
    var v: RuleComponents.Score := (1.10 * base - 11.5) / 0.95;
    UniformMean(v, 50.0, Some(90.0));
    assert RuleScores.Mean(RuleScores.DEFAULTS, Uniform(v, 50.0, Some(90.0))) == base;
  }

  // ----- the lead lost -----

  lemma RoundedBelow(round: Rounding, short: real)
    requires 0.05 < short
    ensures round(MaxR(0.0, 42.0 - short)) < round(42.0)
  {
    WholeNumbersStay(round, 0);
    WholeNumbersStay(round, 42);
  }

  predicate SortsBefore(a: Candidate, b: Candidate, prefs: Learned, round: Rounding) {
    StableSort.Above(SortKey(RankOne(a, prefs, DEFAULTS, round)), SortKey(RankOne(b, prefs, DEFAULTS, round)))
  }

  lemma HigherFinalSortsFirst(a: Candidate, b: Candidate, prefs: Learned, round: Rounding, x: real, y: real)
    requires Final(a, prefs, DEFAULTS) == x && Final(b, prefs, DEFAULTS) == y && round(y) < round(x)
    ensures SortsBefore(a, b, prefs, round)
  {
  }

  lemma FavouriteWins(
    round: Rounding, user: nat, good: string, bad: string, short: real, a: Candidate, b: Candidate, prefs: Learned)
    requires Words(good, bad) && 0.05 < short <= 71.0 && prefs == Opinion(user, good, bad)
    requires a == Favourite(11.0, good) && b == Disliked(82.0 - short, bad)
    ensures SortsBefore(a, b, prefs, round)
  {
    DislikedScore(user, good, bad, 82.0 - short);
    FavouriteScore(user, good, bad, 11.0);
    RoundedBelow(round, short);
    HigherFinalSortsFirst(a, b, prefs, round, 42.0, MaxR(0.0, 42.0 - short));
  }

  /** Any lead short of 71 by more than rounding hides can be overturned, after four actions of the user, by jobs whose
      base scores their components can have. */
  lemma SmallerLeadCanLose(round: Rounding, user: nat, good: string, bad: string, short: real)
    requires Words(good, bad) && 0.05 < short <= 71.0
    ensures var prefs := LearnedFrom(RowsOf(Signals.Run(Signals.Store([], 0), History(user, good, bad)), user));
            var ahead, behind := Disliked(82.0 - short, bad), Favourite(11.0, good);
            ahead.base - behind.base == Spread(DEFAULTS) - short
            && !Excluded(ahead, prefs, DEFAULTS) && !Excluded(behind, prefs, DEFAULTS)
            && SortsBefore(behind, ahead, prefs, round)
    ensures Reachable(82.0 - short, 0.0, None) && Reachable(11.0, 50.0, Some(90.0))
  {
    HistoryTeaches(user, good, bad);
    OpinionHidesNothing(user, good, bad, Disliked(82.0 - short, bad));
    OpinionHidesNothing(user, good, bad, Favourite(11.0, good));
    FavouriteWins(round, user, good, bad, short, Favourite(11.0, good), Disliked(82.0 - short, bad),
                  Opinion(user, good, bad));
    DislikedBase(82.0 - short);
    FavouriteBase(11.0);
  }
}
