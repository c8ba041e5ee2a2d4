/** The matching and watchlist services as they run: tables updated in place, one pass over the jobs at a time.
    Every method leaves exactly the state its specification function names. */
module MatchService {
  import opened Prelude
  import opened JobIdentity
  import opened JobStore
  import opened Watchlist
  import opened MatchCache

  /** How many of `jobs` did not raise: the counter a pass returns. */
  function Succeeded(jobs: seq<nat>, raises: set<nat>): (n: nat)
    ensures n <= |jobs|
    ensures n == |jobs| <==> forall k :: 0 <= k < |jobs| ==> jobs[k] !in raises
  {
    if jobs == [] then 0
    else
      var last := |jobs| - 1;
      assert jobs == jobs[..last] + [jobs[last]];
      Succeeded(jobs[..last], raises) + (if jobs[last] in raises then 0 else 1)
  }

  /** One more turn of the matching loop. */
  lemma MoreJobs(
    rules: Rules, c: Cache, user: nat, jobs: seq<nat>, i: nat, force: bool, entries: seq<Entry>, env: Env)
    requires i < |jobs| && forall k :: 0 <= k < |jobs| ==> jobs[k] < |c.store.jobs|
    ensures var d := MatchAll(rules, c, user, jobs[..i], force, entries, env);
            MatchAll(rules, c, user, jobs[..i + 1], force, entries, env)
            == if jobs[i] in env.raises then d
               else MatchJob(rules, d, user, jobs[i], force, entries, env.explain(jobs[i]))
    ensures Succeeded(jobs[..i + 1], env.raises)
         == Succeeded(jobs[..i], env.raises) + (if jobs[i] in env.raises then 0 else 1)
  {
    assert jobs[..i + 1][..i] == jobs[..i];
  }

  class Service {
    const rules: Rules
    var store: Store
    var rows: seq<WatchRow>
    var matches: map<(nat, nat), Match>

    constructor (rules: Rules, store: Store)
      ensures this.rules == rules && View() == Cache(store, [], map[])
    {
      this.rules := rules;
      this.store, rows, matches := store, [], map[];
    }

    function View(): Cache
      reads this
    {
      Cache(store, rows, matches)
    }

    /** The rows of one user, converted in a loop. */
    method ToWatchlistEntries(user: nat) returns (entries: seq<Entry>)
      requires RowsResolved(store, rows)
      ensures entries == Entries(rules.text, store, rows, user)
    {
      entries := [];
      for i := 0 to |rows|
        invariant entries == Entries(rules.text, store, rows[..i], user)
      {
        if rows[i].user == user {
          entries := entries + [ToEntry(rules.text, store, rows[i])];
        }
        assert rows[..i + 1][..i] == rows[..i];
      }
      assert rows[..|rows|] == rows;
    }

    method MatchOne(user: nat, job: nat, force: bool, entries: seq<Entry>, ai: Option<Explanation>)
      requires job < |store.jobs|
      modifies `matches
      ensures View() == MatchJob(rules, old(View()), user, job, force, entries, ai)
    {
      if !force {
        if (user, job) in matches {
          var cached := matches[(user, job)];
          if cached.version == SCORING_VERSION && (cached.prompt == Some(PROMPT_VERSION) || cached.prompt == None) {
            return;
          }
        }
      }
      var score := WatchlistScore(rules, job, store.jobs[job], entries);
      var overall := rules.overall(user, job, store.jobs[job], Value(score));
      var kept := if (user, job) in matches then matches[(user, job)].feedback else None;
      var row := Match(overall, score, RecommendationFor(overall), None, SCORING_VERSION, None, kept);
      if ai.Some? {
        var suggested := ai.value.recommendation;
        row := row.(recommendation := if suggested.Some? then suggested.value else RecommendationFor(overall),
                    why := Some(ai.value.why), prompt := Some(PROMPT_VERSION));
      }
      matches := matches[(user, job) := row];
    }

    /** The loop both passes share; a job whose scoring raises is logged and skipped. */
    method Pass(user: nat, jobs: seq<nat>, force: bool, env: Env) returns (done: nat)
      requires RowsResolved(store, rows)
      requires forall k :: 0 <= k < |jobs| ==> jobs[k] < |store.jobs|
      modifies `matches
      ensures View() == MatchAll(rules, old(View()), user, jobs, force, Entries(rules.text, store, rows, user), env)
      ensures done == Succeeded(jobs, env.raises)
    {
      var entries := ToWatchlistEntries(user);
      done := 0;
      for i := 0 to |jobs|
        invariant View() == MatchAll(rules, old(View()), user, jobs[..i], force, entries, env)
        invariant done == Succeeded(jobs[..i], env.raises)
      {
        MoreJobs(rules, old(View()), user, jobs, i, force, entries, env);
        if jobs[i] !in env.raises {
          MatchOne(user, jobs[i], force, entries, env.explain(jobs[i]));
          done := done + 1;
        }
      }
      assert jobs[..|jobs|] == jobs;
    }

    method EnsureMatchesForUser(user: nat, limit: nat, env: Env) returns (matched: nat)
      requires RowsResolved(store, rows)
      modifies `matches
      ensures View() == EnsureMatches(rules, old(View()), user, limit, env)
      ensures matched == Succeeded(Take(PendingJobs(old(View()), user), limit), env.raises)
    {
      matched := Pass(user, Take(PendingJobs(View(), user), limit), false, env);
    }

    method RescoreOne(user: nat, company: nat, limit: nat, env: Env) returns (rescored: nat)
      requires RowsResolved(store, rows)
      modifies `matches
      ensures View() == RescoreCompany(rules, old(View()), user, company, limit, env)
      ensures rescored == Succeeded(CandidateIds(store, company, limit), env.raises)
    {
      rescored := Pass(user, CandidateIds(store, company, limit), true, env);
    }

    method MarkStaleForCompany(user: nat, company: nat, name: string)
      requires forall k :: k in matches ==> k.1 < |store.jobs|
      modifies `matches
      ensures View() == MarkStale(rules, old(View()), user, company, name)
    {
      matches := map k | k in matches ::
        if k.0 == user && Affected(rules, store.jobs[k.1], company, name) then matches[k].(version := STALE)
        else matches[k];
    }

    method AfterEdit(user: nat, company: nat, limit: nat, env: Env)
      requires RowsResolved(store, rows) && company < |store.companies|
      requires forall k :: k in matches ==> k.1 < |store.jobs|
      modifies `matches
      ensures View() == AfterChange(rules, old(View()), user, company, limit, env)
    {
      MarkStaleForCompany(user, company, store.companies[company].name);
      var _ := RescoreOne(user, company, limit, env);
    }

    method AddToWatchlist(row: WatchRow, limit: nat, env: Env) returns (answer: Answer)
      requires Valid(rules, View())
      modifies `rows, `matches
      ensures (View(), answer) == Add(rules, old(View()), row, limit, env)
    {
      if row.company >= |store.companies| {
        return NotFound;
      }
      if RowOf(rows, row.user, row.company).Some? {
        return Conflict;
      }
      rows := rows + [row];
      AfterEdit(row.user, row.company, limit, env);
      answer := Accepted;
    }

    /** One company row per key; metadata fills only what is missing. */
    method ResolveByName(name: string, metadata: Option<Columns>) returns (company: nat)
      modifies `store
      ensures (View(), company) == Resolve(rules, old(View()), name, metadata)
      ensures company < |store.companies|
    {
      var key := KeyOf(rules.text, name);
      var found := FindCompany(store, key);
      if found.Some? {
        company := found.value;
      } else {
        company := |store.companies|;
        store := store.(companies := store.companies + [Company(name, key, map[])]);
      }
      store := FillColumns(store, company, MissingColumns(store.companies[company], metadata));
    }

    /** Watching by name: the company is resolved first, then watched like any other. */
    method AddToWatchlistByName(row: WatchRow, name: string, metadata: Option<Columns>, limit: nat, env: Env)
      returns (answer: Answer)
      requires Valid(rules, View())
      modifies this
      ensures (View(), answer) == AddByName(rules, old(View()), row, name, metadata, limit, env)
    {
      ResolveForWatch(rules, View(), name, metadata);
      var company := ResolveByName(name, metadata);
      answer := AddToWatchlist(row.(company := company), limit, env);
    }

    method UpdateEntry(user: nat, company: nat, changes: Changes, limit: nat, env: Env) returns (answer: Answer)
      requires Valid(rules, View())
      modifies `rows, `matches
      ensures (View(), answer) == Update(rules, old(View()), user, company, changes, limit, env)
    {
      var found := RowOf(rows, user, company);
      if found.None? {
        return NotFound;
      }
      if !changes.Empty() {
        rows := rows[found.value := changes.On(rows[found.value])];
        AfterEdit(user, company, limit, env);
      }
      answer := Accepted;
    }

    method RemoveEntry(user: nat, company: nat, limit: nat, env: Env) returns (answer: Answer)
      requires Valid(rules, View())
      modifies `rows, `matches
      ensures (View(), answer) == Remove(rules, old(View()), user, company, limit, env)
    {
      var found := RowOf(rows, user, company);
      if found.None? {
        return NotFound;
      }
      RemovedRows(store, rows, found.value);
      rows := rows[..found.value] + rows[found.value + 1..];
      AfterEdit(user, company, limit, env);
      answer := Accepted;
    }

    method Record(user: nat, job: nat, feedback: Feedback, ai: Option<Explanation>)
      requires RowsResolved(store, rows) && job < |store.jobs|
      modifies `matches
      ensures View() == RecordFeedback(rules, old(View()), user, job, feedback, ai)
    {
      if (user, job) !in matches {
        var entries := ToWatchlistEntries(user);
        MatchOne(user, job, false, entries, ai);
      }
      matches := matches[(user, job) := matches[(user, job)].(feedback := Some(feedback))];
    }
  }
}
