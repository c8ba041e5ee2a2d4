/** Whole histories of the match cache: coherence, feedback, independence from the language model, progress of the
    batch pass, and the rows the invalidation does not reach. */
module MatchRuns {
  import opened Prelude
  import opened JobIdentity
  import opened DuplicateDetection
  import opened JobStore
  import opened Deduplication
  import opened Watchlist
  import opened MatchCache

  datatype Event =
    | Watch(row: WatchRow, limit: nat, env: Env)
    | WatchByName(row: WatchRow, name: string, metadata: Option<Columns>, limit: nat, env: Env)
    | Change(user: nat, company: nat, changes: Changes, limit: nat, env: Env)
    | Unwatch(user: nat, company: nat, limit: nat, env: Env)
    | MatchOne(user: nat, job: nat, force: bool, env: Env)
    | MatchBatch(user: nat, limit: nat, env: Env)
    | GiveFeedback(user: nat, job: nat, feedback: Feedback, env: Env)
    | Discover(batch: seq<Item>)

  datatype World = World(rules: Rules, settings: Settings, sources: map<string, nat>)

  /** A request for one job; it fails when the job does not exist or its scoring raises. */
  function ScoreOne(rules: Rules, c: Cache, user: nat, job: nat, force: bool, env: Env): Cache
    requires Valid(rules, c)
  {
    if job >= |c.store.jobs| || job in env.raises then c
    else MatchJob(rules, c, user, job, force, Entries(rules.text, c.store, c.rows, user), env.explain(job))
  }

  function Judge(rules: Rules, c: Cache, user: nat, job: nat, feedback: Feedback, env: Env): Cache
    requires Valid(rules, c)
  {
    if job >= |c.store.jobs| || (job in env.raises && (user, job) !in c.matches) then c
    else RecordFeedback(rules, c, user, job, feedback, env.explain(job))
  }

  function Grow(w: World, c: Cache, batch: seq<Item>): Cache {
    c.(store := PersistAll(Config(w.rules.text, w.settings), w.sources, c.store, batch).0)
  }

  function Apply(w: World, c: Cache, e: Event): Cache
    requires Valid(w.rules, c)
  {
    match e
    case Watch(row, limit, env) => Add(w.rules, c, row, limit, env).0
    case WatchByName(row, name, metadata, limit, env) => AddByName(w.rules, c, row, name, metadata, limit, env).0
    case Change(user, company, changes, limit, env) => Update(w.rules, c, user, company, changes, limit, env).0
    case Unwatch(user, company, limit, env) => Remove(w.rules, c, user, company, limit, env).0
    case MatchOne(user, job, force, env) => ScoreOne(w.rules, c, user, job, force, env)
    case MatchBatch(user, limit, env) => EnsureMatches(w.rules, c, user, limit, env)
    case GiveFeedback(user, job, feedback, env) => Judge(w.rules, c, user, job, feedback, env)
    case Discover(batch) => Grow(w, c, batch)
  }

  lemma AddKeeps(rules: Rules, c: Cache, row: WatchRow, limit: nat, env: Env)
    requires Coherent(rules, c)
    ensures Coherent(rules, Add(rules, c, row, limit, env).0)
  {
    if row.company < |c.store.companies| && RowOf(c.rows, row.user, row.company).None? {
      AppendedRow(c.rows, row);
      AfterChangeKeeps(rules, c, c.rows + [row], row.user, row.company, limit, env);
    }
  }

  lemma AddByNameKeeps(
    rules: Rules, c: Cache, row: WatchRow, name: string, metadata: Option<Columns>, limit: nat, env: Env)
    requires Coherent(rules, c)
    ensures Coherent(rules, AddByName(rules, c, row, name, metadata, limit, env).0)
  {
    var (d, company) := Resolve(rules, c, name, metadata);
    ResolveForWatch(rules, c, name, metadata);
    GrowthKeeps(rules, c, d.store);
    AddKeeps(rules, d, row.(company := company), limit, env);
  }

  lemma UpdateKeeps(rules: Rules, c: Cache, user: nat, company: nat, changes: Changes, limit: nat, env: Env)
    requires Coherent(rules, c)
    ensures Coherent(rules, Update(rules, c, user, company, changes, limit, env).0)
  {
    var i := RowOf(c.rows, user, company);
    if i.Some? {
      var row := changes.On(c.rows[i.value]);
      ReplacedRow(c.rows, i.value, row);
      AfterChangeKeeps(rules, c, c.rows[i.value := row], user, company, limit, env);
    }
  }

  lemma RemoveKeeps(rules: Rules, c: Cache, user: nat, company: nat, limit: nat, env: Env)
    requires Coherent(rules, c)
    ensures Coherent(rules, Remove(rules, c, user, company, limit, env).0)
  {
    var i := RowOf(c.rows, user, company);
    if i.Some? {
      RemovedRows(c.store, c.rows, i.value);
      RemovedRow(c.rows, i.value);
      AfterChangeKeeps(rules, c, c.rows[..i.value] + c.rows[i.value + 1..], user, company, limit, env);
    }
  }

  lemma FeedbackKeeps(rules: Rules, c: Cache, user: nat, job: nat, feedback: Feedback, ai: Option<Explanation>)
    requires Coherent(rules, c) && job < |c.store.jobs|
    ensures Coherent(rules, RecordFeedback(rules, c, user, job, feedback, ai))
  {
    var d := if (user, job) in c.matches then c
             else MatchJob(rules, c, user, job, false, Entries(rules.text, c.store, c.rows, user), ai);
    MatchJobKeeps(rules, c, user, job, false, ai);
    var e := RecordFeedback(rules, c, user, job, feedback, ai);
    forall u: nat, j: nat | CurrentResolved(e, u, j) ensures Agrees(rules, e, u, j, e.matches[(u, j)]) {
      assert CurrentResolved(d, u, j);
    }
  }

  lemma GrowKeeps(w: World, c: Cache, batch: seq<Item>)
    requires Coherent(w.rules, c)
    ensures Coherent(w.rules, Grow(w, c, batch))
  {
    var cfg := Config(w.rules.text, w.settings);
    BatchEffect(cfg, w.sources, c.store, batch);
    GrowthKeeps(w.rules, c, PersistAll(cfg, w.sources, c.store, batch).0);
  }

  predicate EditsWatchlist(e: Event) {
    e.Watch? || e.WatchByName? || e.Change? || e.Unwatch?
  }

  lemma EditKeeps(w: World, c: Cache, e: Event)
    requires Coherent(w.rules, c) && EditsWatchlist(e)
    ensures Coherent(w.rules, Apply(w, c, e))
  {
    match e {
      case Watch(row, limit, env) => AddKeeps(w.rules, c, row, limit, env);
      case WatchByName(row, name, metadata, limit, env) =>
        AddByNameKeeps(w.rules, c, row, name, metadata, limit, env);
      case Change(user, company, changes, limit, env) => UpdateKeeps(w.rules, c, user, company, changes, limit, env);
      case Unwatch(user, company, limit, env) => RemoveKeeps(w.rules, c, user, company, limit, env);
    }
  }

  lemma BatchKeeps(rules: Rules, c: Cache, user: nat, limit: nat, env: Env)
    requires Coherent(rules, c)
    ensures Coherent(rules, EnsureMatches(rules, c, user, limit, env))
  {
    MatchAllKeeps(rules, c, user, Take(PendingJobs(c, user), limit), false, env);
  }

  /** Every service call and every discovery keeps the cache coherent. */
  lemma ApplyKeeps(w: World, c: Cache, e: Event)
    requires Coherent(w.rules, c)
    ensures Coherent(w.rules, Apply(w, c, e))
  {
    match e {
      case MatchOne(user, job, force, env) =>
        if job < |c.store.jobs| { MatchJobKeeps(w.rules, c, user, job, force, env.explain(job)); }
      case MatchBatch(user, limit, env) =>
        BatchKeeps(w.rules, c, user, limit, env);
      case GiveFeedback(user, job, feedback, env) =>
        if job < |c.store.jobs| { FeedbackKeeps(w.rules, c, user, job, feedback, env.explain(job)); }
      case Discover(batch) => GrowKeeps(w, c, batch);
      case _ => EditKeeps(w, c, e);
    }
  }

  /** A history applied from left to right; coherence makes every step well defined. */
  function RunEvents(w: World, c: Cache, events: seq<Event>): (d: Cache)
    requires Coherent(w.rules, c)
    ensures Coherent(w.rules, d)
    decreases |events|
  {
    if events == [] then c
    else
      var before := RunEvents(w, c, events[..|events| - 1]);
      ApplyKeeps(w, before, events[|events| - 1]);
      Apply(w, before, events[|events| - 1])
  }

  /** Cache coherence over every history of discoveries, watchlist edits, matching and feedback: a current row of a
      job discovery stored holds exactly the watchlist score and the overall score of a recomputation. */
  lemma CacheIsCoherent(w: World, c: Cache, events: seq<Event>, user: nat, job: nat)
    requires Coherent(w.rules, c)
    ensures var d := RunEvents(w, c, events);
            CurrentResolved(d, user, job) ==>
              var score :=
                WatchlistScore(w.rules, job, d.store.jobs[job], Entries(w.rules.text, d.store, d.rows, user));
              d.matches[(user, job)].watchlist == score
              && d.matches[(user, job)].overall == w.rules.overall(user, job, d.store.jobs[job], Value(score))
  {
    var d := RunEvents(w, c, events);
    if CurrentResolved(d, user, job) {
      assert Agrees(w.rules, d, user, job, d.matches[(user, job)]);
    }
  }

  /** The empty cache over the empty store is where every history starts. */
  lemma EmptyIsCoherent(rules: Rules)
    ensures Coherent(rules, Cache(Store([], [], []), [], map[]))
  {
  }

  // ----- feedback -----

  function FeedbackOf(c: Cache, user: nat, job: nat): Option<Feedback> {
    if (user, job) in c.matches then c.matches[(user, job)].feedback else None
  }

  lemma {:induction false} MatchAllLeavesFeedback(
    rules: Rules, c: Cache, user: nat, jobs: seq<nat>, force: bool, entries: seq<Entry>, env: Env, u: nat, j: nat)
    requires forall k :: 0 <= k < |jobs| ==> jobs[k] < |c.store.jobs|
    ensures FeedbackOf(MatchAll(rules, c, user, jobs, force, entries, env), u, j) == FeedbackOf(c, u, j)
    decreases |jobs|
  {
    if jobs != [] {
      MatchAllLeavesFeedback(rules, c, user, jobs[..|jobs| - 1], force, entries, env, u, j);
    }
  }

  lemma AfterChangeLeavesFeedback(
    rules: Rules, c: Cache, user: nat, company: nat, limit: nat, env: Env, u: nat, j: nat)
    requires RowsResolved(c.store, c.rows) && company < |c.store.companies|
    requires forall k :: k in c.matches ==> k.1 < |c.store.jobs|
    ensures FeedbackOf(AfterChange(rules, c, user, company, limit, env), u, j) == FeedbackOf(c, u, j)
  {
    var d := MarkStale(rules, c, user, company, c.store.companies[company].name);
    MatchAllLeavesFeedback(rules, d, user, CandidateIds(d.store, company, limit), true,
                           Entries(rules.text, d.store, d.rows, user), env, u, j);
  }

  predicate Speaks(c: Cache, e: Event, user: nat, job: nat) {
    e.GiveFeedback? && e.user == user && e.job == job && job < |c.store.jobs|
    && (job in e.env.raises ==> (user, job) in c.matches)
  }

  lemma AddFeedback(rules: Rules, c: Cache, row: WatchRow, limit: nat, env: Env, user: nat, job: nat)
    requires Valid(rules, c)
    ensures FeedbackOf(Add(rules, c, row, limit, env).0, user, job) == FeedbackOf(c, user, job)
  {
    if row.company < |c.store.companies| && RowOf(c.rows, row.user, row.company).None? {
      AfterChangeLeavesFeedback(rules, c.(rows := c.rows + [row]), row.user, row.company, limit, env, user, job);
    }
  }

  lemma AddByNameFeedback(
    rules: Rules, c: Cache, row: WatchRow, name: string, metadata: Option<Columns>, limit: nat, env: Env,
    user: nat, job: nat)
    requires Valid(rules, c)
    ensures FeedbackOf(AddByName(rules, c, row, name, metadata, limit, env).0, user, job) == FeedbackOf(c, user, job)
  {
    var (d, company) := Resolve(rules, c, name, metadata);
    ResolveForWatch(rules, c, name, metadata);
    AddFeedback(rules, d, row.(company := company), limit, env, user, job);
  }

  lemma UpdateFeedback(
    rules: Rules, c: Cache, u: nat, company: nat, changes: Changes, limit: nat, env: Env, user: nat, job: nat)
    requires Valid(rules, c)
    ensures FeedbackOf(Update(rules, c, u, company, changes, limit, env).0, user, job) == FeedbackOf(c, user, job)
  {
    var i := RowOf(c.rows, u, company);
    if i.Some? {
      AfterChangeLeavesFeedback(
        rules, c.(rows := c.rows[i.value := changes.On(c.rows[i.value])]), u, company, limit, env, user, job);
    }
  }

  lemma RemoveFeedback(rules: Rules, c: Cache, u: nat, company: nat, limit: nat, env: Env, user: nat, job: nat)
    requires Valid(rules, c)
    ensures FeedbackOf(Remove(rules, c, u, company, limit, env).0, user, job) == FeedbackOf(c, user, job)
  {
    var i := RowOf(c.rows, u, company);
    if i.Some? {
      RemovedRows(c.store, c.rows, i.value);
      AfterChangeLeavesFeedback(
        rules, c.(rows := c.rows[..i.value] + c.rows[i.value + 1..]), u, company, limit, env, user, job);
    }
  }

  lemma BatchFeedback(rules: Rules, c: Cache, u: nat, limit: nat, env: Env, user: nat, job: nat)
    requires Valid(rules, c)
    ensures FeedbackOf(EnsureMatches(rules, c, u, limit, env), user, job) == FeedbackOf(c, user, job)
  {
    MatchAllLeavesFeedback(rules, c, u, Take(PendingJobs(c, u), limit), false,
                           Entries(rules.text, c.store, c.rows, u), env, user, job);
  }

  lemma ApplyFeedback(w: World, c: Cache, e: Event, user: nat, job: nat)
    requires Valid(w.rules, c)
    ensures FeedbackOf(Apply(w, c, e), user, job) ==
            if Speaks(c, e, user, job) then Some(e.feedback) else FeedbackOf(c, user, job)
  {
    match e {
      case Watch(row, limit, env) => AddFeedback(w.rules, c, row, limit, env, user, job);
      case WatchByName(row, name, metadata, limit, env) =>
        AddByNameFeedback(w.rules, c, row, name, metadata, limit, env, user, job);
      case Change(u, company, changes, limit, env) =>
        UpdateFeedback(w.rules, c, u, company, changes, limit, env, user, job);
      case Unwatch(u, company, limit, env) => RemoveFeedback(w.rules, c, u, company, limit, env, user, job);
      case MatchBatch(u, limit, env) => BatchFeedback(w.rules, c, u, limit, env, user, job);
      case _ =>
    }
  }

  /** The verdict the user gave last among `events`, else the one recorded before. */
  function LastVerdict(w: World, c: Cache, events: seq<Event>, user: nat, job: nat): Option<Feedback>
    requires Coherent(w.rules, c)
    decreases |events|
  {
    if events == [] then FeedbackOf(c, user, job)
    else
      var last := |events| - 1;
      if Speaks(RunEvents(w, c, events[..last]), events[last], user, job) then Some(events[last].feedback)
      else LastVerdict(w, c, events[..last], user, job)
  }

  /** Rescoring, however often, never erases or invents feedback. */
  lemma {:induction false} FeedbackSurvives(w: World, c: Cache, events: seq<Event>, user: nat, job: nat)
    requires Coherent(w.rules, c)
    ensures FeedbackOf(RunEvents(w, c, events), user, job) == LastVerdict(w, c, events, user, job)
    decreases |events|
  {
    if events != [] {
      var last := |events| - 1;
      FeedbackSurvives(w, c, events[..last], user, job);
      ApplyFeedback(w, RunEvents(w, c, events[..last]), events[last], user, job);
    }
  }

  // ----- progress of the batch pass -----

  ghost predicate AllPending(c: Cache, user: nat, jobs: seq<nat>) {
    forall k :: 0 <= k < |jobs| ==> Pending(c, user, jobs[k])
  }

  /** Scoring pending jobs settles exactly those whose scoring did not raise. */
  lemma {:induction false} MatchAllSettles(
    rules: Rules, c: Cache, user: nat, jobs: seq<nat>, entries: seq<Entry>, env: Env, j: nat)
    requires forall k :: 0 <= k < |jobs| ==> jobs[k] < |c.store.jobs|
    requires AllPending(c, user, jobs)
    ensures Pending(MatchAll(rules, c, user, jobs, false, entries, env), user, j) <==>
            Pending(c, user, j) && !(j in jobs && j !in env.raises)
    decreases |jobs|
  {
    if jobs != [] {
      var last := |jobs| - 1;
      assert jobs == jobs[..last] + [jobs[last]];
      assert Pending(c, user, jobs[last]);
      MatchAllSettles(rules, c, user, jobs[..last], entries, env, j);
      MatchAllSettles(rules, c, user, jobs[..last], entries, env, jobs[last]);
    }
  }

  /** Two lists in strictly descending order with the same members are the same list. */
  lemma {:induction false} SameDescendingLists(a: seq<nat>, b: seq<nat>)
    requires forall i, k :: 0 <= i < k < |a| ==> a[k] < a[i]
    requires forall i, k :: 0 <= i < k < |b| ==> b[k] < b[i]
    requires forall x :: x in a <==> x in b
    ensures a == b
    decreases |a|
  {
    assert a != [] ==> a[0] in b;
    assert b != [] ==> b[0] in a;
    if a != [] {
      assert a[0] in b && b[0] in a;
      assert a[0] == b[0];
      forall x ensures x in a[1..] <==> x in b[1..] {
        assert x in a <==> x == a[0] || x in a[1..];
        assert x in b <==> x == b[0] || x in b[1..];
      }
      SameDescendingLists(a[1..], b[1..]);
    }
  }

  function Drop<T>(xs: seq<T>, n: nat): seq<T> {
    xs[Min(n, |xs|)..]
  }

  lemma DropTwice<T>(xs: seq<T>, a: nat, b: nat)
    ensures Drop(Drop(xs, a), b) == Drop(xs, a + b)
  {
  }

  lemma PrefixAndRest(xs: seq<nat>, n: nat, j: nat)
    requires forall i, k :: 0 <= i < k < |xs| ==> xs[k] < xs[i]
    ensures j in Drop(xs, n) <==> j in xs && j !in Take(xs, n)
  {
    var cut := Min(n, |xs|);
    assert xs == xs[..cut] + xs[cut..];
    forall x, y | 0 <= x < cut && 0 <= y < |xs| - cut ensures xs[..cut][x] != xs[cut..][y] {
      assert xs[cut + y] < xs[x];
    }
  }

  lemma BatchSettlesTaken(rules: Rules, c: Cache, user: nat, limit: nat, env: Env, j: nat)
    requires RowsResolved(c.store, c.rows)
    ensures j in PendingJobs(EnsureMatches(rules, c, user, limit, env), user) <==>
            j in PendingJobs(c, user) && !(j in Take(PendingJobs(c, user), limit) && j !in env.raises)
  {
    var taken := Take(PendingJobs(c, user), limit);
    forall k | 0 <= k < |taken| ensures Pending(c, user, taken[k]) {
      assert taken[k] in PendingJobs(c, user);
    }
    MatchAllSettles(rules, c, user, taken, Entries(rules.text, c.store, c.rows, user), env, j);
  }

  /** When no job raises, a batch call clears the newest `limit` pending jobs and leaves the others in order. */
  lemma BatchClearsPrefix(rules: Rules, c: Cache, user: nat, limit: nat, env: Env)
    requires RowsResolved(c.store, c.rows) && env.raises == {}
    ensures PendingJobs(EnsureMatches(rules, c, user, limit, env), user) == Drop(PendingJobs(c, user), limit)
  {
    var before := PendingJobs(c, user);
    var after := PendingJobs(EnsureMatches(rules, c, user, limit, env), user);
    forall j: nat ensures j in after <==> j in Drop(before, limit) {
      BatchSettlesTaken(rules, c, user, limit, env, j);
      PrefixAndRest(before, limit, j);
    }
    SameDescendingLists(after, Drop(before, limit));
  }

  /** In general a batch call settles some pending job exactly when some job it picks does not raise; jobs that
      always raise and are the newest `limit` starve all the others. */
  lemma BatchProgressIff(rules: Rules, c: Cache, user: nat, limit: nat, env: Env)
    requires RowsResolved(c.store, c.rows)
    ensures PendingJobs(EnsureMatches(rules, c, user, limit, env), user) != PendingJobs(c, user) <==>
            exists j :: j in Take(PendingJobs(c, user), limit) && j !in env.raises
  {
    var before := PendingJobs(c, user);
    var taken := Take(before, limit);
    var after := PendingJobs(EnsureMatches(rules, c, user, limit, env), user);
    forall j: nat ensures j in after <==> j in before && !(j in taken && j !in env.raises) {
      BatchSettlesTaken(rules, c, user, limit, env, j);
    }
    if j :| j in taken && j !in env.raises {
      assert j in before && j !in after;
    } else {
      SameDescendingLists(after, before);
    }
  }

  /** `n` batch calls in a row, none of which meets a raising job. */
  function Batches(rules: Rules, c: Cache, user: nat, limit: nat, env: Env, n: nat): (d: Cache)
    requires RowsResolved(c.store, c.rows)
    ensures d.store == c.store && d.rows == c.rows
    decreases n
  {
    if n == 0 then c else EnsureMatches(rules, Batches(rules, c, user, limit, env, n - 1), user, limit, env)
  }

  /** The jobs that `n` calls have room for. */
  function Offered(n: nat, limit: nat): nat {
    n * limit
  }

  lemma {:induction false} BatchesDrop(rules: Rules, c: Cache, user: nat, limit: nat, env: Env, n: nat, offered: nat)
    requires RowsResolved(c.store, c.rows) && env.raises == {} && offered == n * limit
    ensures PendingJobs(Batches(rules, c, user, limit, env, n), user) == Drop(PendingJobs(c, user), offered)
    decreases n
  {
    if n > 0 {
      assert offered - limit == (n - 1) * limit;
      BatchesDrop(rules, c, user, limit, env, n - 1, offered - limit);
      BatchClearsPrefix(rules, Batches(rules, c, user, limit, env, n - 1), user, limit, env);
      DropTwice(PendingJobs(c, user), offered - limit, limit);
    }
  }

  /** The backlog shrinks by `limit` a call, so it is gone exactly when the calls offered at least its size. */
  lemma BacklogClears(rules: Rules, c: Cache, user: nat, limit: nat, env: Env, n: nat)
    requires RowsResolved(c.store, c.rows) && env.raises == {}
    ensures PendingJobs(Batches(rules, c, user, limit, env, n), user) == Drop(PendingJobs(c, user), Offered(n, limit))
    ensures PendingJobs(Batches(rules, c, user, limit, env, n), user) == [] <==>
            Offered(n, limit) >= |PendingJobs(c, user)|
  {
    BatchesDrop(rules, c, user, limit, env, n, Offered(n, limit));
  }

  lemma {:induction false} BatchesKeep(rules: Rules, c: Cache, user: nat, limit: nat, env: Env, n: nat)
    requires Coherent(rules, c)
    ensures Coherent(rules, Batches(rules, c, user, limit, env, n))
    decreases n
  {
    if n > 0 {
      BatchesKeep(rules, c, user, limit, env, n - 1);
      BatchKeeps(rules, Batches(rules, c, user, limit, env, n - 1), user, limit, env);
    }
  }

  /** What the bounded rescoring leaves stale, the nightly batches make right: after any history and enough batch
      calls that meet no raising job, the user has a current row for every live resolved job, and it agrees with
      recomputation. */
  lemma BatchesMakeEverythingRight(
    w: World, c: Cache, events: seq<Event>, user: nat, limit: nat, env: Env, n: nat, job: nat)
    requires Coherent(w.rules, c) && env.raises == {}
    ensures var before := RunEvents(w, c, events);
            var after := Batches(w.rules, before, user, limit, env, n);
            Offered(n, limit) >= |PendingJobs(before, user)|
            && job < |before.store.jobs| && !before.store.jobs[job].deleted && before.store.jobs[job].companyId.Some? ==>
              CurrentResolved(after, user, job) && Agrees(w.rules, after, user, job, after.matches[(user, job)])
  {
    var before := RunEvents(w, c, events);
    var after := Batches(w.rules, before, user, limit, env, n);
    BacklogClears(w.rules, before, user, limit, env, n);
    BatchesKeep(w.rules, before, user, limit, env, n);
    assert Offered(n, limit) >= |PendingJobs(before, user)| ==> job !in PendingJobs(after, user);
  }
}
