/** Stored match scores, the watchlist edits that invalidate them, and the passes that score again.
    Every service call is one step. */
module MatchCache {
  import opened Prelude
  import opened JobIdentity
  import opened DuplicateDetection
  import opened JobStore
  import opened Deduplication
  import opened Watchlist

  const SCORING_VERSION := "rules-v2"
  const STALE := "stale"
  const PROMPT_VERSION := "match-v1"

  datatype Feedback = Positive | Negative | Interested | NotRelevant

  datatype Recommendation = MustApply | StrongMatch | Consider | LowPriority | Ignore

  function RecommendationFor(overall: real): Recommendation {
    if overall >= 90.0 then MustApply
    else if overall >= 75.0 then StrongMatch
    else if overall >= 55.0 then Consider
    else if overall >= 35.0 then LowPriority
    else Ignore
  }

  /** What the language model may add; it may also add nothing. */
  datatype Explanation = Explanation(recommendation: Option<Recommendation>, why: string)

  datatype Match = Match(
    overall: real,
    watchlist: Option<real>,
    recommendation: Recommendation,
    why: Option<string>,
    version: string,
    prompt: Option<string>,
    feedback: Option<Feedback>)

  /** What one pass meets: the model's answers, and the jobs whose scoring raises. */
  datatype Env = Env(explain: nat -> Option<Explanation>, raises: set<nat>)

  datatype Cache = Cache(store: Store, rows: seq<WatchRow>, matches: map<(nat, nat), Match>)

  ghost predicate Valid(rules: Rules, c: Cache) {
    Consistent(rules.text, c.store) && RowsResolved(c.store, c.rows) && RowsUnique(c.rows)
    && forall k :: k in c.matches ==> k.1 < |c.store.jobs|
  }

  // ----- scoring one job -----

  predicate Cached(c: Cache, user: nat, job: nat) {
    (user, job) in c.matches
    && c.matches[(user, job)].version == SCORING_VERSION
    && (c.matches[(user, job)].prompt == Some(PROMPT_VERSION) || c.matches[(user, job)].prompt == None)
  }

  /** The row an upsert leaves: every scored column replaced, feedback untouched. */
  function Scored(rules: Rules, c: Cache, user: nat, job: nat, entries: seq<Entry>, ai: Option<Explanation>): Match
    requires job < |c.store.jobs|
  {
    var score := WatchlistScore(rules, job, c.store.jobs[job], entries);
    var overall := rules.overall(user, job, c.store.jobs[job], Value(score));
    var fallback := RecommendationFor(overall);
    Match(
      overall, score,
      if ai.Some? && ai.value.recommendation.Some? then ai.value.recommendation.value else fallback,
      if ai.Some? then Some(ai.value.why) else None,
      SCORING_VERSION,
      if ai.Some? then Some(PROMPT_VERSION) else None,
      if (user, job) in c.matches then c.matches[(user, job)].feedback else None)
  }

  function MatchJob(
    rules: Rules, c: Cache, user: nat, job: nat, force: bool, entries: seq<Entry>, ai: Option<Explanation>): Cache
    requires job < |c.store.jobs|
  {
    if !force && Cached(c, user, job) then c
    else c.(matches := c.matches[(user, job) := Scored(rules, c, user, job, entries, ai)])
  }

  /** A pass over some jobs: one that raises is skipped, the rest are scored. */
  function MatchAll(rules: Rules, c: Cache, user: nat, jobs: seq<nat>, force: bool, entries: seq<Entry>, env: Env)
    : (d: Cache)
    requires forall k :: 0 <= k < |jobs| ==> jobs[k] < |c.store.jobs|
    ensures d.store == c.store && d.rows == c.rows
  {
    if jobs == [] then c
    else
      var last := |jobs| - 1;
      var d := MatchAll(rules, c, user, jobs[..last], force, entries, env);
      if jobs[last] in env.raises then d
      else MatchJob(rules, d, user, jobs[last], force, entries, env.explain(jobs[last]))
  }

  function RescoreCompany(rules: Rules, c: Cache, user: nat, company: nat, limit: nat, env: Env): Cache
    requires RowsResolved(c.store, c.rows)
  {
    MatchAll(rules, c, user, CandidateIds(c.store, company, limit), true,
             Entries(rules.text, c.store, c.rows, user), env)
  }

  /** Selected by company id, or by company name ignoring case. */
  predicate Affected(rules: Rules, job: Job, company: nat, name: string) {
    job.companyId == Some(company) || rules.caseFold(job.companyName) == rules.caseFold(name)
  }

  function MarkStale(rules: Rules, c: Cache, user: nat, company: nat, name: string): Cache
    requires forall k :: k in c.matches ==> k.1 < |c.store.jobs|
  {
    c.(matches := map k | k in c.matches ::
                    if k.0 == user && Affected(rules, c.store.jobs[k.1], company, name)
                    then c.matches[k].(version := STALE)
                    else c.matches[k])
  }

  /** What every watchlist edit ends with. */
  function AfterChange(rules: Rules, c: Cache, user: nat, company: nat, limit: nat, env: Env): Cache
    requires RowsResolved(c.store, c.rows) && company < |c.store.companies|
    requires forall k :: k in c.matches ==> k.1 < |c.store.jobs|
  {
    var stale := MarkStale(rules, c, user, company, c.store.companies[company].name);
    RescoreCompany(rules, stale, user, company, limit, env)
  }

  // ----- watchlist edits -----

  datatype Answer = Accepted | Conflict | NotFound

  function Add(rules: Rules, c: Cache, row: WatchRow, limit: nat, env: Env): (Cache, Answer)
    requires Valid(rules, c)
  {
    if row.company >= |c.store.companies| then (c, NotFound)
    else if RowOf(c.rows, row.user, row.company).Some? then (c, Conflict)
    else (AfterChange(rules, c.(rows := c.rows + [row]), row.user, row.company, limit, env), Accepted)
  }

  /** Watching by name resolves the company first, creating its row if need be. */
  function AddByName(
    rules: Rules, c: Cache, row: WatchRow, name: string, metadata: Option<Columns>, limit: nat, env: Env)
    : (Cache, Answer)
    requires Valid(rules, c)
  {
    ResolveForWatch(rules, c, name, metadata);
    var (d, company) := Resolve(rules, c, name, metadata);
    Add(rules, d, row.(company := company), limit, env)
  }

  function Resolve(rules: Rules, c: Cache, name: string, metadata: Option<Columns>): (Cache, nat) {
    var (s, company) := UpsertCompany(rules.text, c.store, name);
    (c.(store := FillColumns(s, company, MissingColumns(s.companies[company], metadata))), company)
  }

  /** The columns of an edit that are present; none means there is nothing to do. */
  datatype Changes = Changes(
    priority: Option<Priority>, preferred: Option<seq<string>>, excluded: Option<seq<string>>, notes: bool)
  {
    predicate Empty() {
      priority.None? && preferred.None? && excluded.None? && !notes
    }

    function On(row: WatchRow): (r: WatchRow)
      ensures r.user == row.user && r.company == row.company
    {
      row.(priority := if priority.Some? then priority.value else row.priority,
           preferred := if preferred.Some? then preferred.value else row.preferred,
           excluded := if excluded.Some? then excluded.value else row.excluded)
    }
  }

  function Update(rules: Rules, c: Cache, user: nat, company: nat, changes: Changes, limit: nat, env: Env)
    : (Cache, Answer)
    requires Valid(rules, c)
  {
    match RowOf(c.rows, user, company)
    case None => (c, NotFound)
    case Some(i) =>
      if changes.Empty() then (c, Accepted)
      else (AfterChange(rules, c.(rows := c.rows[i := changes.On(c.rows[i])]), user, company, limit, env), Accepted)
  }

  function Remove(rules: Rules, c: Cache, user: nat, company: nat, limit: nat, env: Env): (Cache, Answer)
    requires Valid(rules, c)
  {
    match RowOf(c.rows, user, company)
    case None => (c, NotFound)
    case Some(i) =>
      RemovedRows(c.store, c.rows, i);
      (AfterChange(rules, c.(rows := c.rows[..i] + c.rows[i + 1..]), user, company, limit, env), Accepted)
  }

  // ----- batch matching and feedback -----

  predicate Pending(c: Cache, user: nat, job: nat) {
    job < |c.store.jobs| && !c.store.jobs[job].deleted
    && ((user, job) in c.matches ==> c.matches[(user, job)].version != SCORING_VERSION)
  }

  /** Live jobs below `n` without a current match, newest first. */
  function PendingBelow(c: Cache, user: nat, n: nat): (r: seq<nat>)
    ensures forall j :: j in r <==> 0 <= j < n && Pending(c, user, j)
    ensures forall k :: 0 <= k < |r| ==> r[k] < n
    ensures forall i, k :: 0 <= i < k < |r| ==> r[k] < r[i]
  {
    if n == 0 then []
    else (if Pending(c, user, n - 1) then [n - 1] else []) + PendingBelow(c, user, n - 1)
  }

  function PendingJobs(c: Cache, user: nat): seq<nat> {
    PendingBelow(c, user, |c.store.jobs|)
  }

  function EnsureMatches(rules: Rules, c: Cache, user: nat, limit: nat, env: Env): Cache
    requires RowsResolved(c.store, c.rows)
  {
    MatchAll(rules, c, user, Take(PendingJobs(c, user), limit), false,
             Entries(rules.text, c.store, c.rows, user), env)
  }

  /** Feedback on a job scores it first if it has no row yet. */
  function RecordFeedback(
    rules: Rules, c: Cache, user: nat, job: nat, feedback: Feedback, ai: Option<Explanation>): Cache
    requires RowsResolved(c.store, c.rows) && job < |c.store.jobs|
  {
    var d := if (user, job) in c.matches then c
             else MatchJob(rules, c, user, job, false, Entries(rules.text, c.store, c.rows, user), ai);
    d.(matches := d.matches[(user, job) := d.matches[(user, job)].(feedback := Some(feedback))])
  }

  // ----- coherence -----

  /** A row agrees with what scoring the job now would store. */
  ghost predicate Agrees(rules: Rules, c: Cache, user: nat, job: nat, row: Match)
    requires RowsResolved(c.store, c.rows) && job < |c.store.jobs|
  {
    var score := WatchlistScore(rules, job, c.store.jobs[job], Entries(rules.text, c.store, c.rows, user));
    row.watchlist == score && row.overall == rules.overall(user, job, c.store.jobs[job], Value(score))
  }

  /** Every current row of a job with a resolved company agrees with recomputation. */
  ghost predicate Coherent(rules: Rules, c: Cache) {
    Valid(rules, c)
    && forall u: nat, j: nat :: CurrentResolved(c, u, j) ==> Agrees(rules, c, u, j, c.matches[(u, j)])
  }

  predicate CurrentResolved(c: Cache, user: nat, job: nat) {
    (user, job) in c.matches && c.matches[(user, job)].version == SCORING_VERSION
    && job < |c.store.jobs| && c.store.jobs[job].companyId.Some?
  }

  lemma MatchJobKeeps(rules: Rules, c: Cache, user: nat, job: nat, force: bool, ai: Option<Explanation>)
    requires Coherent(rules, c) && job < |c.store.jobs|
    ensures Coherent(rules, MatchJob(rules, c, user, job, force, Entries(rules.text, c.store, c.rows, user), ai))
  {
    var d := MatchJob(rules, c, user, job, force, Entries(rules.text, c.store, c.rows, user), ai);
    forall u: nat, j: nat | CurrentResolved(d, u, j) ensures Agrees(rules, d, u, j, d.matches[(u, j)]) {
      if (u, j) != (user, job) || d == c {
        assert CurrentResolved(c, u, j);
      }
    }
  }

  lemma {:induction false} MatchAllKeeps(
    rules: Rules, c: Cache, user: nat, jobs: seq<nat>, force: bool, env: Env)
    requires Coherent(rules, c)
    requires forall k :: 0 <= k < |jobs| ==> jobs[k] < |c.store.jobs|
    ensures Coherent(rules, MatchAll(rules, c, user, jobs, force, Entries(rules.text, c.store, c.rows, user), env))
    decreases |jobs|
  {
    if jobs != [] {
      var last := |jobs| - 1;
      MatchAllKeeps(rules, c, user, jobs[..last], force, env);
      var d := MatchAll(rules, c, user, jobs[..last], force, Entries(rules.text, c.store, c.rows, user), env);
      MatchJobKeeps(rules, d, user, jobs[last], force, env.explain(jobs[last]));
    }
  }

  /** An edit of the row of one user and one company leaves every other entry where it was. */
  ghost predicate OnlyRowChanged(before: seq<WatchRow>, after: seq<WatchRow>, user: nat, company: nat) {
    forall u: nat, d: nat :: (u, d) != (user, company) ==>
      match (RowOf(before, u, d), RowOf(after, u, d))
      case (None, None) => true
      case (Some(i), Some(k)) => before[i] == after[k]
      case _ => false
  }

  lemma SameEntryElsewhere(rules: Rules, c: Cache, rows: seq<WatchRow>, user: nat, company: nat, u: nat, j: nat)
    requires Valid(rules, c) && RowsResolved(c.store, rows) && RowsUnique(rows)
    requires OnlyRowChanged(c.rows, rows, user, company)
    requires j < |c.store.jobs| && c.store.jobs[j].companyId.Some?
    requires (u, c.store.jobs[j].companyId.value) != (user, company)
    ensures WatchlistScore(rules, j, c.store.jobs[j], Entries(rules.text, c.store, c.rows, u))
         == WatchlistScore(rules, j, c.store.jobs[j], Entries(rules.text, c.store, rows, u))
  {
    assert JobResolved(rules.text, c.store, c.store.jobs[j]);
    ResolvedEntry(rules.text, c.store, c.rows, u, c.store.jobs[j]);
    ResolvedEntry(rules.text, c.store, rows, u, c.store.jobs[j]);
  }

  /** The invalidation protocol: editing one row, marking that company's matches stale and rescoring some of them
      keeps every current row right, although most rows are never looked at. */
  lemma AfterChangeKeeps(
    rules: Rules, c: Cache, rows: seq<WatchRow>, user: nat, company: nat, limit: nat, env: Env)
    requires Coherent(rules, c) && company < |c.store.companies|
    requires RowsResolved(c.store, rows) && RowsUnique(rows) && OnlyRowChanged(c.rows, rows, user, company)
    ensures Coherent(rules, AfterChange(rules, c.(rows := rows), user, company, limit, env))
  {
    var d := MarkStale(rules, c.(rows := rows), user, company, c.store.companies[company].name);
    forall u: nat, j: nat | CurrentResolved(d, u, j) ensures Agrees(rules, d, u, j, d.matches[(u, j)]) {
      assert CurrentResolved(c, u, j);
      assert (u, c.store.jobs[j].companyId.value) != (user, company);
      SameEntryElsewhere(rules, c, rows, user, company, u, j);
    }
    MatchAllKeeps(rules, d, user, CandidateIds(d.store, company, limit), true, env);
  }

  lemma AppendedRow(rows: seq<WatchRow>, row: WatchRow)
    requires RowsUnique(rows) && RowOf(rows, row.user, row.company).None?
    ensures RowsUnique(rows + [row]) && OnlyRowChanged(rows, rows + [row], row.user, row.company)
  {
    forall u: nat, d: nat | (u, d) != (row.user, row.company)
      ensures RowOf(rows + [row], u, d) == RowOf(rows, u, d)
    {
      SameFind(rows, rows + [row], u, d);
    }
  }

  lemma SameFind(before: seq<WatchRow>, after: seq<WatchRow>, u: nat, d: nat)
    requires before <= after
    requires forall i :: |before| <= i < |after| ==> !(after[i].user == u && after[i].company == d)
    ensures RowOf(after, u, d) == RowOf(before, u, d)
  {
    var i := RowOf(before, u, d);
    if i.Some? {
      assert after[i.value] == before[i.value];
    }
  }

  lemma UniqueFind(rows: seq<WatchRow>, i: nat)
    requires RowsUnique(rows) && i < |rows|
    ensures RowOf(rows, rows[i].user, rows[i].company) == Some(i)
  {
  }

  lemma ReplacedRow(rows: seq<WatchRow>, i: nat, row: WatchRow)
    requires RowsUnique(rows) && i < |rows| && rows[i].user == row.user && rows[i].company == row.company
    ensures RowsUnique(rows[i := row]) && OnlyRowChanged(rows, rows[i := row], row.user, row.company)
  {
    var after := rows[i := row];
    forall u: nat, d: nat | (u, d) != (row.user, row.company)
      ensures RowOf(after, u, d) == RowOf(rows, u, d)
    {
      if RowOf(rows, u, d).Some? { UniqueFind(after, RowOf(rows, u, d).value); }
    }
  }

  lemma RemovedRows(s: Store, rows: seq<WatchRow>, i: nat)
    requires RowsResolved(s, rows) && i < |rows|
    ensures RowsResolved(s, rows[..i] + rows[i + 1..])
  {
  }

  lemma RemovedRow(rows: seq<WatchRow>, i: nat)
    requires RowsUnique(rows) && i < |rows|
    ensures RowsUnique(rows[..i] + rows[i + 1..])
    ensures OnlyRowChanged(rows, rows[..i] + rows[i + 1..], rows[i].user, rows[i].company)
  {
    var after := rows[..i] + rows[i + 1..];
    assert forall k :: 0 <= k < |after| ==> after[k] == rows[if k < i then k else k + 1];
    forall u: nat, d: nat | (u, d) != (rows[i].user, rows[i].company)
      ensures match (RowOf(rows, u, d), RowOf(after, u, d))
              case (None, None) => true
              case (Some(x), Some(y)) => rows[x] == after[y]
              case _ => false
    {
      var x := RowOf(rows, u, d);
      if x.Some? {
        var y: nat := if x.value < i then x.value else x.value - 1;
        assert after[y] == rows[x.value];
        UniqueFind(after, y);
      }
    }
  }

  /** New companies and new jobs change no score of an existing row. */
  lemma {:induction false} EntriesStay(text: Text, s: Store, t: Store, rows: seq<WatchRow>, user: nat)
    requires Extends(s, t) && RowsResolved(s, rows)
    ensures RowsResolved(t, rows) && Entries(text, s, rows, user) == Entries(text, t, rows, user)
    decreases |rows|
  {
    if rows != [] {
      assert forall i :: 0 <= i < |rows| - 1 ==> rows[..|rows| - 1][i] == rows[i];
      EntriesStay(text, s, t, rows[..|rows| - 1], user);
      assert rows[|rows| - 1].company < |s.companies|;
    }
  }

  lemma GrowthKeeps(rules: Rules, c: Cache, t: Store)
    requires Coherent(rules, c) && Consistent(rules.text, t) && Extends(c.store, t)
    ensures Coherent(rules, c.(store := t))
  {
    var d := c.(store := t);
    forall u: nat ensures RowsResolved(t, c.rows)
                  && Entries(rules.text, t, c.rows, u) == Entries(rules.text, c.store, c.rows, u) {
      EntriesStay(rules.text, c.store, t, c.rows, u);
    }
    forall u: nat, j: nat | CurrentResolved(d, u, j) ensures Agrees(rules, d, u, j, d.matches[(u, j)]) {
      assert CurrentResolved(c, u, j) && t.jobs[j] == c.store.jobs[j];
    }
  }

  lemma ResolveForWatch(rules: Rules, c: Cache, name: string, metadata: Option<Columns>)
    requires Valid(rules, c)
    ensures Valid(rules, Resolve(rules, c, name, metadata).0)
    ensures Extends(c.store, Resolve(rules, c, name, metadata).0.store)
  {
    var (s, company) := UpsertCompany(rules.text, c.store, name);
    var columns := MissingColumns(s.companies[company], metadata);
    UpsertCompanyKeeps(rules.text, c.store, name);
    FillColumnsKeeps(rules.text, s, company, columns);
    ExtendsTransitive(c.store, s, FillColumns(s, company, columns));
    EntriesStay(rules.text, c.store, FillColumns(s, company, columns), c.rows, 0);
  }
}
