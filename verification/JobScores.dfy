/** The match cache with the scores the rules give: what the stored overall score of a job is. */
module JobScores {
  import opened Prelude
  import opened JobIdentity
  import opened JobStore
  import opened Watchlist
  import opened MatchCache
  import opened MatchRuns
  import opened MatchExplanations
  import opened Tenths
  import RuleComponents
  import RuleScores

  /** The columns of a job that only scoring reads. */
  datatype Details = Details(
    haystack: string, remote: bool, hybrid: bool, experienceMin: Option<real>, experienceMax: Option<real>,
    salaryMax: Option<real>, currency: Option<string>)

  /** Everything scoring depends on besides the tables. */
  datatype Rulebook = Rulebook(
    words: RuleComponents.Words, caseFold: string -> string, weights: RuleScores.Weights, round: Rounding,
    profile: nat -> RuleComponents.Profile, details: nat -> Details,
    analysis: nat -> Option<RuleComponents.Analysis>)

  function FactsOf(job: Job, d: Details): RuleComponents.JobFacts {
    RuleComponents.JobFacts(
      job.posting.title, d.haystack, job.posting.location, job.companyName, d.remote, d.hybrid,
      d.experienceMin, d.experienceMax, d.salaryMax, d.currency)
  }

  /** Title, place and company are those of the stored row; the rest are columns no other part reads. */
  lemma FactsAreTheRows(job: Job, d: Details)
    ensures var facts := FactsOf(job, d);
            facts.title == job.posting.title && facts.location == job.posting.location
            && facts.company == job.companyName && facts.haystack == d.haystack
            && facts.remote == d.remote && facts.hybrid == d.hybrid && facts.currency == d.currency
            && facts.experienceMin == d.experienceMin && facts.experienceMax == d.experienceMax
            && facts.salaryMax == d.salaryMax
  {
  }

  function AsScore(v: real): RuleComponents.Score {
    MaxR(0.0, MinR(100.0, v))
  }

  /** The score of the rules for a user and a stored job, once its watchlist score is known. */
  function ScoreOf(
    b: Rulebook, user: nat, id: nat, job: Job, watchlist: Option<RuleComponents.Score>): (r: real)
  {
    RuleScores.ScoreJob(
      b.weights, b.words, b.profile(user), FactsOf(job, b.details(id)), b.analysis(id), watchlist, b.round)
  }

  function AnalysedTitle(analysis: Option<RuleComponents.Analysis>): Option<string> {
    if analysis.None? then None else analysis.value.title
  }

  function RulesOf(b: Rulebook): Rules {
    Rules(
      b.words.text, b.caseFold, b.words.title, (id: nat) => AnalysedTitle(b.analysis(id)),
      (user: nat, id: nat, job: Job, watchlist: real) => ScoreOf(b, user, id, job, Some(AsScore(watchlist))))
  }

  /** No watchlist score counts as a neutral one. */
  lemma OverallIsScore(b: Rulebook, user: nat, id: nat, job: Job, watchlist: Option<RuleComponents.Score>)
    ensures RulesOf(b).overall(user, id, job, Value(watchlist)) == ScoreOf(b, user, id, job, watchlist)
  {
    var facts := FactsOf(job, b.details(id));
    var with := RuleComponents.ComponentsOf(
      b.words, b.profile(user), facts, b.analysis(id), Some(AsScore(Value(watchlist))), b.round);
    var without := RuleComponents.ComponentsOf(
      b.words, b.profile(user), facts, b.analysis(id), watchlist, b.round);
    assert RuleScores.Values(with) == RuleScores.Values(without);
  }

  const EMPTY := Cache(Store([], [], []), [], map[])

  /** From nothing, after every history of discoveries, watchlist edits, matching and feedback: the current row of a
      resolved job holds the score of the rules under the user's watchlist as it is now, a number from 0 to 100. */
  lemma CurrentScoreIsJobScore(b: Rulebook, w: World, events: seq<Event>, user: nat, job: nat)
    requires w.rules == RulesOf(b) && RuleScores.NonNegative(b.weights)
    ensures Coherent(w.rules, EMPTY)
    ensures var d := RunEvents(w, EMPTY, events);
            CurrentResolved(d, user, job) ==>
              var row := d.store.jobs[job];
              var watched := WatchlistScore(w.rules, job, row, Entries(w.rules.text, d.store, d.rows, user));
              d.matches[(user, job)].watchlist == watched
              && d.matches[(user, job)].overall == ScoreOf(b, user, job, row, watched)
              && 0.0 <= d.matches[(user, job)].overall <= 100.0
  {
    EmptyIsCoherent(w.rules);
    CacheIsCoherent(w, EMPTY, events, user, job);
    var d := RunEvents(w, EMPTY, events);
    if CurrentResolved(d, user, job) {
      var row := d.store.jobs[job];
      var watched := WatchlistScore(w.rules, job, row, Entries(w.rules.text, d.store, d.rows, user));
      OverallIsScore(b, user, job, row, watched);
      RuleScores.JobScoreIsScore(
        b.weights, b.words, b.profile(user), FactsOf(row, b.details(job)), b.analysis(job), watched, b.round);
    }
  }

  // ----- recommendations -----

  /** Without an answer of the model, a recommendation is a band of the score: 90, 75, 55 and 35 begin one. */
  predicate InBand(r: Recommendation, overall: real) {
    match r
    case MustApply => 90.0 <= overall
    case StrongMatch => 75.0 <= overall < 90.0
    case Consider => 55.0 <= overall < 75.0
    case LowPriority => 35.0 <= overall < 55.0
    case Ignore => overall < 35.0
  }

  lemma RecommendationIsBand(overall: real, r: Recommendation)
    ensures RecommendationFor(overall) == r <==> InBand(r, overall)
  {
  }

  /** What a row that was matched anew carries: the model's answer, its own band where the model named no recommendation,
      the current version. */
  predicate Anew(row: Match, answer: Option<Explanation>) {
    row.version == SCORING_VERSION
    && (row.why == if answer.Some? then Some(answer.value.why) else None)
    && (if answer.Some? && answer.value.recommendation.Some? then row.recommendation == answer.value.recommendation.value
        else InBand(row.recommendation, row.overall))
  }

  lemma ScoredAnew(rules: Rules, c: Cache, user: nat, job: nat, entries: seq<Entry>, ai: Option<Explanation>)
    requires job < |c.store.jobs|
    ensures var row := Scored(rules, c, user, job, entries, ai);
            Anew(row, ai) && row.feedback == FeedbackOf(c, user, job)
  {
    var row := Scored(rules, c, user, job, entries, ai);
    RecommendationIsBand(row.overall, RecommendationFor(row.overall));
  }

  /** A job that is matched anew carries what the model answered and the feedback it had, and no other row changes; one
      whose scoring raises stays as it was. */
  lemma MatchedAnew(w: World, c: Cache, user: nat, job: nat, env: Env)
    requires Valid(w.rules, c) && job < |c.store.jobs|
    ensures var d := Apply(w, c, MatchOne(user, job, true, env));
            if job in env.raises then d == c
            else
              (user, job) in d.matches && Anew(d.matches[(user, job)], env.explain(job))
              && FeedbackOf(d, user, job) == FeedbackOf(c, user, job)
              && d.matches.Keys == c.matches.Keys + {(user, job)}
              && forall k :: k in c.matches && k != (user, job) ==> d.matches[k] == c.matches[k]
  {
    if job !in env.raises {
      ScoredAnew(w.rules, c, user, job, Entries(w.rules.text, c.store, c.rows, user), env.explain(job));
    }
  }

  /** A better watchlist score never lowers the score of a job. */
  lemma BetterWatchlistNeverLowers(
    b: Rulebook, user: nat, id: nat, job: Job, x: RuleComponents.Score, y: RuleComponents.Score)
    requires RuleScores.NonNegative(b.weights) && x <= y
    ensures ScoreOf(b, user, id, job, Some(x)) <= ScoreOf(b, user, id, job, Some(y))
  {
    var low := RuleComponents.ComponentsOf(
      b.words, b.profile(user), FactsOf(job, b.details(id)), b.analysis(id), Some(x), b.round);
    var high := RuleComponents.ComponentsOf(
      b.words, b.profile(user), FactsOf(job, b.details(id)), b.analysis(id), Some(y), b.round);
    assert RuleScores.Values(low)[..8] == RuleScores.Values(high)[..8];
    assert RuleScores.NoBetter(low, high);
    RuleScores.OverallIsMonotone(b.weights, low, high, b.round);
  }

  /** The same number in every history that differs only in what the language model answered. */
  lemma JobScoreIgnoresTheModel(b: Rulebook, w: World, events: seq<Event>, user: nat, job: nat)
    requires w.rules == RulesOf(b) && RuleScores.NonNegative(b.weights)
    ensures Coherent(w.rules, EMPTY)
    ensures var d := RunEvents(w, EMPTY, events);
            var quiet := RunEvents(w, EMPTY, AllSilenced(events));
            CurrentResolved(d, user, job) ==>
              (user, job) in quiet.matches && job < |d.store.jobs|
              && quiet.matches[(user, job)].overall
                 == ScoreOf(b, user, job, d.store.jobs[job], d.matches[(user, job)].watchlist)
  {
    CurrentScoreIsJobScore(b, w, events, user, job);
    ScoresIgnoreTheModel(w, EMPTY, events, user, job);
  }
}
