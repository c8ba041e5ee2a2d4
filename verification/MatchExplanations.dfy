/** The language model explains matches; it cannot move a score. Every history is compared with its twin in which the
    model never answers. */
module MatchExplanations {
  import opened Prelude
  import opened JobIdentity
  import opened JobStore
  import opened Watchlist
  import opened MatchCache
  import opened MatchRuns

  function Silent(env: Env): Env {
    env.(explain := (job: nat) => None)
  }

  function Silenced(e: Event): Event {
    match e
    case Watch(row, limit, env) => Watch(row, limit, Silent(env))
    case WatchByName(row, name, metadata, limit, env) => WatchByName(row, name, metadata, limit, Silent(env))
    case Change(user, company, changes, limit, env) => Change(user, company, changes, limit, Silent(env))
    case Unwatch(user, company, limit, env) => Unwatch(user, company, limit, Silent(env))
    case MatchOne(user, job, force, env) => MatchOne(user, job, force, Silent(env))
    case MatchBatch(user, limit, env) => MatchBatch(user, limit, Silent(env))
    case GiveFeedback(user, job, feedback, env) => GiveFeedback(user, job, feedback, Silent(env))
    case Discover(batch) => e
  }

  function AllSilenced(events: seq<Event>): (r: seq<Event>)
    ensures |r| == |events| && forall i :: 0 <= i < |r| ==> r[i] == Silenced(events[i])
  {
    seq(|events|, i requires 0 <= i < |events| => Silenced(events[i]))
  }

  predicate PromptAccepted(m: Match) {
    m.prompt == Some(PROMPT_VERSION) || m.prompt == None
  }

  /** Two rows that differ only in what the model wrote. */
  predicate SameFacts(a: Match, b: Match) {
    a.overall == b.overall && a.watchlist == b.watchlist && a.version == b.version && a.feedback == b.feedback
    && PromptAccepted(a) == PromptAccepted(b)
  }

  ghost predicate Similar(c: Cache, d: Cache) {
    c.store == d.store && c.rows == d.rows && c.matches.Keys == d.matches.Keys
    && forall k :: k in c.matches ==> SameFacts(c.matches[k], d.matches[k])
  }

  lemma MatchJobSimilar(
    rules: Rules, c: Cache, d: Cache, user: nat, job: nat, force: bool, entries: seq<Entry>,
    x: Option<Explanation>, y: Option<Explanation>)
    requires Similar(c, d) && job < |c.store.jobs|
    ensures Similar(MatchJob(rules, c, user, job, force, entries, x), MatchJob(rules, d, user, job, force, entries, y))
  {
    assert Cached(c, user, job) == Cached(d, user, job);
    assert SameFacts(Scored(rules, c, user, job, entries, x), Scored(rules, d, user, job, entries, y));
  }

  lemma {:induction false} MatchAllSimilar(
    rules: Rules, c: Cache, d: Cache, user: nat, jobs: seq<nat>, force: bool, entries: seq<Entry>, env: Env)
    requires Similar(c, d)
    requires forall k :: 0 <= k < |jobs| ==> jobs[k] < |c.store.jobs|
    ensures Similar(MatchAll(rules, c, user, jobs, force, entries, env),
                    MatchAll(rules, d, user, jobs, force, entries, Silent(env)))
    decreases |jobs|
  {
    if jobs != [] {
      var last := |jobs| - 1;
      MatchAllSimilar(rules, c, d, user, jobs[..last], force, entries, env);
      MatchJobSimilar(rules, MatchAll(rules, c, user, jobs[..last], force, entries, env),
                      MatchAll(rules, d, user, jobs[..last], force, entries, Silent(env)),
                      user, jobs[last], force, entries, env.explain(jobs[last]), None);
    }
  }

  lemma AfterChangeSimilar(rules: Rules, c: Cache, d: Cache, user: nat, company: nat, limit: nat, env: Env)
    requires Similar(c, d) && RowsResolved(c.store, c.rows) && company < |c.store.companies|
    requires forall k :: k in c.matches ==> k.1 < |c.store.jobs|
    ensures Similar(AfterChange(rules, c, user, company, limit, env),
                    AfterChange(rules, d, user, company, limit, Silent(env)))
  {
    var name := c.store.companies[company].name;
    var x, y := MarkStale(rules, c, user, company, name), MarkStale(rules, d, user, company, name);
    forall k | k in x.matches ensures SameFacts(x.matches[k], y.matches[k]) {
      assert SameFacts(c.matches[k], d.matches[k]);
    }
    MatchAllSimilar(rules, x, y, user, CandidateIds(c.store, company, limit), true,
                    Entries(rules.text, c.store, c.rows, user), env);
  }

  lemma AddSimilar(rules: Rules, c: Cache, d: Cache, row: WatchRow, limit: nat, env: Env)
    requires Similar(c, d) && Valid(rules, c) && Valid(rules, d)
    ensures Similar(Add(rules, c, row, limit, env).0, Add(rules, d, row, limit, Silent(env)).0)
  {
    if row.company < |c.store.companies| && RowOf(c.rows, row.user, row.company).None? {
      AfterChangeSimilar(
        rules, c.(rows := c.rows + [row]), d.(rows := d.rows + [row]), row.user, row.company, limit, env);
    }
  }

  lemma AddByNameSimilar(
    rules: Rules, c: Cache, d: Cache, row: WatchRow, name: string, metadata: Option<Columns>, limit: nat, env: Env)
    requires Similar(c, d) && Valid(rules, c) && Valid(rules, d)
    ensures Similar(AddByName(rules, c, row, name, metadata, limit, env).0,
                    AddByName(rules, d, row, name, metadata, limit, Silent(env)).0)
  {
    ResolveForWatch(rules, c, name, metadata);
    ResolveForWatch(rules, d, name, metadata);
    var (x, company) := Resolve(rules, c, name, metadata);
    AddSimilar(rules, x, Resolve(rules, d, name, metadata).0, row.(company := company), limit, env);
  }

  lemma ScoreOneSimilar(rules: Rules, c: Cache, d: Cache, user: nat, job: nat, force: bool, env: Env)
    requires Similar(c, d) && Valid(rules, c) && Valid(rules, d)
    ensures Similar(ScoreOne(rules, c, user, job, force, env), ScoreOne(rules, d, user, job, force, Silent(env)))
  {
    if job < |c.store.jobs| {
      MatchJobSimilar(
        rules, c, d, user, job, force, Entries(rules.text, c.store, c.rows, user), env.explain(job), None);
    }
  }

  lemma SetFeedbackSimilar(c: Cache, d: Cache, k: (nat, nat), feedback: Feedback)
    requires Similar(c, d) && k in c.matches
    ensures Similar(c.(matches := c.matches[k := c.matches[k].(feedback := Some(feedback))]),
                    d.(matches := d.matches[k := d.matches[k].(feedback := Some(feedback))]))
  {
  }

  lemma FeedbackSimilar(
    rules: Rules, c: Cache, d: Cache, user: nat, job: nat, feedback: Feedback, x: Option<Explanation>)
    requires Similar(c, d) && RowsResolved(c.store, c.rows) && job < |c.store.jobs|
    ensures Similar(RecordFeedback(rules, c, user, job, feedback, x), RecordFeedback(rules, d, user, job, feedback, None))
  {
    if (user, job) in c.matches {
      SetFeedbackSimilar(c, d, (user, job), feedback);
    } else {
      var entries := Entries(rules.text, c.store, c.rows, user);
      MatchJobSimilar(rules, c, d, user, job, false, entries, x, None);
      SetFeedbackSimilar(MatchJob(rules, c, user, job, false, entries, x),
                         MatchJob(rules, d, user, job, false, entries, None), (user, job), feedback);
    }
  }

  lemma JudgeSimilar(rules: Rules, c: Cache, d: Cache, user: nat, job: nat, feedback: Feedback, env: Env)
    requires Similar(c, d) && Valid(rules, c) && Valid(rules, d)
    ensures Similar(Judge(rules, c, user, job, feedback, env), Judge(rules, d, user, job, feedback, Silent(env)))
  {
    if job < |c.store.jobs| {
      FeedbackSimilar(rules, c, d, user, job, feedback, env.explain(job));
    }
  }

  lemma {:induction false} SamePending(c: Cache, d: Cache, user: nat, n: nat)
    requires Similar(c, d)
    ensures PendingBelow(c, user, n) == PendingBelow(d, user, n)
  {
    if n > 0 {
      SamePending(c, d, user, n - 1);
      assert Pending(c, user, n - 1) == Pending(d, user, n - 1);
    }
  }

  lemma UpdateSimilar(
    rules: Rules, c: Cache, d: Cache, user: nat, company: nat, changes: Changes, limit: nat, env: Env)
    requires Similar(c, d) && Valid(rules, c) && Valid(rules, d)
    ensures Similar(Update(rules, c, user, company, changes, limit, env).0,
                    Update(rules, d, user, company, changes, limit, Silent(env)).0)
  {
    var i := RowOf(c.rows, user, company);
    if i.Some? {
      var rows := c.rows[i.value := changes.On(c.rows[i.value])];
      AfterChangeSimilar(rules, c.(rows := rows), d.(rows := rows), user, company, limit, env);
    }
  }

  lemma RemoveSimilar(rules: Rules, c: Cache, d: Cache, user: nat, company: nat, limit: nat, env: Env)
    requires Similar(c, d) && Valid(rules, c) && Valid(rules, d)
    ensures Similar(Remove(rules, c, user, company, limit, env).0,
                    Remove(rules, d, user, company, limit, Silent(env)).0)
  {
    var i := RowOf(c.rows, user, company);
    if i.Some? {
      RemovedRows(c.store, c.rows, i.value);
      var rows := c.rows[..i.value] + c.rows[i.value + 1..];
      AfterChangeSimilar(rules, c.(rows := rows), d.(rows := rows), user, company, limit, env);
    }
  }

  lemma BatchSimilar(rules: Rules, c: Cache, d: Cache, user: nat, limit: nat, env: Env)
    requires Similar(c, d) && Valid(rules, c) && Valid(rules, d)
    ensures Similar(EnsureMatches(rules, c, user, limit, env), EnsureMatches(rules, d, user, limit, Silent(env)))
  {
    SamePending(c, d, user, |c.store.jobs|);
    MatchAllSimilar(rules, c, d, user, Take(PendingJobs(c, user), limit), false,
                    Entries(rules.text, c.store, c.rows, user), env);
  }

  lemma ApplySimilar(w: World, c: Cache, d: Cache, e: Event)
    requires Similar(c, d) && Valid(w.rules, c) && Valid(w.rules, d)
    ensures Similar(Apply(w, c, e), Apply(w, d, Silenced(e)))
  {
    match e {
      case Watch(row, limit, env) => AddSimilar(w.rules, c, d, row, limit, env);
      case WatchByName(row, name, metadata, limit, env) =>
        AddByNameSimilar(w.rules, c, d, row, name, metadata, limit, env);
      case Change(user, company, changes, limit, env) =>
        UpdateSimilar(w.rules, c, d, user, company, changes, limit, env);
      case Unwatch(user, company, limit, env) => RemoveSimilar(w.rules, c, d, user, company, limit, env);
      case MatchOne(user, job, force, env) =>
        ScoreOneSimilar(w.rules, c, d, user, job, force, env);
      case MatchBatch(user, limit, env) => BatchSimilar(w.rules, c, d, user, limit, env);
      case GiveFeedback(user, job, feedback, env) =>
        JudgeSimilar(w.rules, c, d, user, job, feedback, env);
      case Discover(batch) =>
    }
  }

  lemma {:induction false} RunsSimilar(w: World, c: Cache, events: seq<Event>)
    requires Coherent(w.rules, c)
    ensures Similar(RunEvents(w, c, events), RunEvents(w, c, AllSilenced(events)))
    decreases |events|
  {
    if events != [] {
      var last := |events| - 1;
      assert AllSilenced(events)[..last] == AllSilenced(events[..last]);
      RunsSimilar(w, c, events[..last]);
      ApplySimilar(w, RunEvents(w, c, events[..last]), RunEvents(w, c, AllSilenced(events[..last])), events[last]);
    }
  }

  /** Whatever the model answers, or whether it answers at all, the same rows exist with the same scores, versions
      and feedback: cached explanations never decide what is scored again. */
  lemma ScoresIgnoreTheModel(w: World, c: Cache, events: seq<Event>, user: nat, job: nat)
    requires Coherent(w.rules, c)
    ensures var d := RunEvents(w, c, events);
            var quiet := RunEvents(w, c, AllSilenced(events));
            ((user, job) in d.matches <==> (user, job) in quiet.matches)
            && ((user, job) in d.matches ==>
                  d.matches[(user, job)].overall == quiet.matches[(user, job)].overall
                  && d.matches[(user, job)].watchlist == quiet.matches[(user, job)].watchlist
                  && d.matches[(user, job)].version == quiet.matches[(user, job)].version
                  && d.matches[(user, job)].feedback == quiet.matches[(user, job)].feedback)
  {
    RunsSimilar(w, c, events);
  }
}
