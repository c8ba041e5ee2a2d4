/** What a watchlist entry is worth, in numbers, and what that makes of the cached score of a job after any history of
    calls that ends in watching, changing or unwatching its company. */
module WatchlistRuns {
  import opened Prelude
  import opened JobIdentity
  import opened JobStore
  import opened Watchlist
  import opened MatchCache
  import opened MatchRuns

  // ----- when a role hits a title -----

  /** A role hits when, normalised, it is not empty and one of it and a title contains the other, or the two are at
      least six tenths alike. */
  lemma HitIff(rules: Rules, titles: seq<string>, roles: seq<string>)
    ensures TitleMatches(rules, titles, roles) <==>
            exists role, title :: role in roles && title in titles && Hits(rules, role, title)
  {
    if TitleMatches(rules, titles, roles) {
      var i, k :| 0 <= i < |roles| && 0 <= k < |titles|
                  && rules.normalizeTitle(roles[i]) != ""
                  && RoleFits(rules.text, rules.normalizeTitle(roles[i]), titles[k]);
      assert roles[i] in roles && titles[k] in titles && Hits(rules, roles[i], titles[k]);
    }
    if role, title :| role in roles && title in titles && Hits(rules, role, title) {
      var i :| 0 <= i < |roles| && roles[i] == role;
      var k :| 0 <= k < |titles| && titles[k] == title;
      assert RoleFits(rules.text, rules.normalizeTitle(roles[i]), titles[k]);
    }
  }

  predicate Hits(rules: Rules, role: string, title: string) {
    var wanted := rules.normalizeTitle(role);
    wanted != ""
    && (Contains(title, wanted) || Contains(wanted, title) || TitleSimilarity(rules.text, wanted, title) >= 0.6)
  }

  /** The role is the job's own title, or the title an analysis gave it. */
  predicate OwnTitle(rules: Rules, id: nat, job: Job, role: string) {
    var wanted, analysed := rules.normalizeTitle(role), rules.analysisTitle(id);
    wanted != ""
    && (wanted == job.posting.title || (!Absent(analysed) && wanted == rules.normalizeTitle(analysed.value)))
  }

  lemma OwnTitleHits(rules: Rules, id: nat, job: Job, roles: seq<string>, role: string)
    requires role in roles && OwnTitle(rules, id, job, role)
    ensures TitleMatches(rules, Titles(rules, id, job), roles)
  {
    var titles, wanted := Titles(rules, id, job), rules.normalizeTitle(role);
    assert titles[0] == job.posting.title && titles[0] in titles && titles[|titles| - 1] in titles;
    assert wanted in titles;
    assert OccursAt(wanted, wanted, 0);
    assert Hits(rules, role, wanted);
    HitIff(rules, titles, roles);
  }

  // ----- what an entry is worth -----

  /** The value of a watchlist row for a job with these titles: nothing exactly for an excluded role, otherwise 90, 75 or
      60 by priority, ten more (up to 100) for a preferred role, fifteen less when preferred roles all miss. */
  ghost predicate Worth(rules: Rules, titles: seq<string>, row: WatchRow, v: real) {
    var excluded := TitleMatches(rules, titles, row.excluded);
    var preferred := TitleMatches(rules, titles, row.preferred);
    var plain := match row.priority case High => 90.0 case Medium => 75.0 case Low => 60.0;
    (v == 0.0 <==> excluded)
    && (!excluded && row.preferred == [] ==> v == plain)
    && (!excluded && preferred ==> v == (if row.priority == High then 100.0 else plain + 10.0))
    && (!excluded && row.preferred != [] && !preferred ==> v == plain - 15.0)
  }

  lemma EntryIsWorth(rules: Rules, titles: seq<string>, s: Store, row: WatchRow)
    requires row.company < |s.companies|
    ensures Worth(rules, titles, row, EntryScore(rules, titles, ToEntry(rules.text, s, row)))
  {
    HitIff(rules, titles, row.preferred);
  }

  /** An excluded role outweighs everything; a hit among preferred roles is worth at least an entry without any, which is
      worth more than one whose preferred roles all miss; a higher priority is never worth less. */
  lemma WorthOrder(rules: Rules, titles: seq<string>, a: WatchRow, b: WatchRow, x: real, y: real)
    requires a.excluded == b.excluded && Worth(rules, titles, a, x) && Worth(rules, titles, b, y)
    ensures x == 0.0 <==> y == 0.0
    ensures x >= 0.0 && (!TitleMatches(rules, titles, a.excluded) ==> x >= 45.0)
    ensures x > 0.0 && a.priority == b.priority && b.preferred == [] ==>
              (TitleMatches(rules, titles, a.preferred) ==> x > y)
              && (a.preferred != [] && !TitleMatches(rules, titles, a.preferred) ==> x < y)
    ensures x > 0.0 && a.preferred == b.preferred && (a.priority == High || b.priority == Low) ==> x >= y
  {
    HitIff(rules, titles, a.preferred);
    HitIff(rules, titles, b.preferred);
  }

  // ----- after a history -----

  /** What the cache holds for the job, if its row is current, is what the user's row for its company is worth; without
      such a row there is no watchlist score. */
  ghost predicate Follows(rules: Rules, d: Cache, user: nat, job: nat) {
    CurrentResolved(d, user, job) ==>
      var found := RowOf(d.rows, user, d.store.jobs[job].companyId.value);
      var held := d.matches[(user, job)].watchlist;
      if found.None? then held.None?
      else held.Some? && Worth(rules, Titles(rules, job, d.store.jobs[job]), d.rows[found.value], held.value)
  }

  lemma CoherentFollows(rules: Rules, d: Cache, user: nat, job: nat)
    requires Coherent(rules, d)
    ensures Follows(rules, d, user, job)
  {
    if CurrentResolved(d, user, job) {
      var row := d.store.jobs[job];
      assert Agrees(rules, d, user, job, d.matches[(user, job)]);
      assert JobResolved(rules.text, d.store, row);
      ResolvedEntry(rules.text, d.store, d.rows, user, row);
      var found := RowOf(d.rows, user, row.companyId.value);
      if found.Some? { EntryIsWorth(rules, Titles(rules, job, row), d.store, d.rows[found.value]); }
    }
  }

  /** After every history, the current row of a resolved job holds what the user's entry for its company is worth. */
  lemma CurrentRowFollowsEntry(w: World, c: Cache, events: seq<Event>, user: nat, job: nat)
    requires Coherent(w.rules, c)
    ensures Follows(w.rules, RunEvents(w, c, events), user, job)
  {
    CoherentFollows(w.rules, RunEvents(w, c, events), user, job);
  }

  lemma RunMore(w: World, c: Cache, events: seq<Event>, e: Event)
    requires Coherent(w.rules, c)
    ensures RunEvents(w, c, events + [e]) == Apply(w, RunEvents(w, c, events), e)
  {
    assert (events + [e])[..|events|] == events;
  }

  /** The user's row after watching, changing or unwatching: what the call says, and otherwise what it was. */
  lemma WatchedRow(rules: Rules, c: Cache, row: WatchRow, limit: nat, env: Env)
    requires Valid(rules, c) && row.company < |c.store.companies| && RowOf(c.rows, row.user, row.company).None?
    ensures var d := Add(rules, c, row, limit, env).0;
            d.store == c.store && RowOf(d.rows, row.user, row.company).Some?
            && d.rows[RowOf(d.rows, row.user, row.company).value] == row
  {
    var rows := c.rows + [row];
    assert rows[|c.rows|] == row;
    AppendedRow(c.rows, row);
    UniqueFind(rows, |c.rows|);
  }

  lemma ChangedRow(rules: Rules, c: Cache, user: nat, company: nat, changes: Changes, limit: nat, env: Env)
    requires Valid(rules, c) && RowOf(c.rows, user, company).Some?
    ensures var d := Update(rules, c, user, company, changes, limit, env).0;
            var was := c.rows[RowOf(c.rows, user, company).value];
            d.store == c.store && RowOf(d.rows, user, company).Some?
            && var now := d.rows[RowOf(d.rows, user, company).value];
               (if changes.excluded.Some? then now.excluded == changes.excluded.value else now.excluded == was.excluded)
               && (if changes.preferred.Some? then now.preferred == changes.preferred.value
                   else now.preferred == was.preferred)
               && (if changes.priority.Some? then now.priority == changes.priority.value
                   else now.priority == was.priority)
  {
    var i := RowOf(c.rows, user, company).value;
    ReplacedRow(c.rows, i, changes.On(c.rows[i]));
    UniqueFind(c.rows[i := changes.On(c.rows[i])], i);
  }

  lemma UnwatchedRow(rules: Rules, c: Cache, user: nat, company: nat, limit: nat, env: Env)
    requires Valid(rules, c) && RowOf(c.rows, user, company).Some?
    ensures var d := Remove(rules, c, user, company, limit, env).0;
            d.store == c.store && RowOf(d.rows, user, company).None?
  {
    var i := RowOf(c.rows, user, company).value;
    var after := c.rows[..i] + c.rows[i + 1..];
    assert forall k :: 0 <= k < |after| ==> after[k] == c.rows[if k < i then k else k + 1];
  }

  /** The job belongs to the company whose entry the call is about. */
  predicate IsAt(c: Cache, job: nat, company: nat) {
    job < |c.store.jobs| && c.store.jobs[job].companyId == Some(company)
  }

  /** Whatever happened before, excluding a job's own title leaves no current row of it with any score but 0. */
  lemma ExcludingItsTitleGivesZero(
    w: World, c: Cache, events: seq<Event>, user: nat, company: nat, changes: Changes, limit: nat, env: Env,
    job: nat, role: string)
    requires Coherent(w.rules, c)
    requires var d := RunEvents(w, c, events);
             IsAt(d, job, company) && RowOf(d.rows, user, company).Some?
             && OwnTitle(w.rules, job, d.store.jobs[job], role)
    requires changes.excluded.Some? && role in changes.excluded.value
    ensures var e := RunEvents(w, c, events + [Change(user, company, changes, limit, env)]);
            CurrentResolved(e, user, job) ==> e.matches[(user, job)].watchlist == Some(0.0)
  {
    var d := RunEvents(w, c, events);
    var last := Change(user, company, changes, limit, env);
    RunMore(w, c, events, last);
    ChangedRow(w.rules, d, user, company, changes, limit, env);
    CurrentRowFollowsEntry(w, c, events + [last], user, job);
    OwnTitleHits(w.rules, job, d.store.jobs[job], changes.excluded.value, role);
  }

  /** Whatever happened before, adding a job's own title to the preferred roles never lowers its current score. */
  lemma PreferringItsTitleNeverLowers(
    w: World, c: Cache, events: seq<Event>, user: nat, company: nat, notes: bool, limit: nat, env: Env,
    job: nat, role: string)
    requires Coherent(w.rules, c)
    requires var d := RunEvents(w, c, events);
             IsAt(d, job, company) && RowOf(d.rows, user, company).Some?
             && OwnTitle(w.rules, job, d.store.jobs[job], role)
    ensures var d := RunEvents(w, c, events);
            var roles := d.rows[RowOf(d.rows, user, company).value].preferred + [role];
            var e := RunEvents(w, c, events + [Change(user, company, Preferring(roles, notes), limit, env)]);
            CurrentResolved(d, user, job) && CurrentResolved(e, user, job) ==>
              d.matches[(user, job)].watchlist.Some? && e.matches[(user, job)].watchlist.Some?
              && d.matches[(user, job)].watchlist.value <= e.matches[(user, job)].watchlist.value
  {
    var d := RunEvents(w, c, events);
    var was := d.rows[RowOf(d.rows, user, company).value];
    var roles := was.preferred + [role];
    var last := Change(user, company, Preferring(roles, notes), limit, env);
    RunMore(w, c, events, last);
    ChangedRow(w.rules, d, user, company, Preferring(roles, notes), limit, env);
    CurrentRowFollowsEntry(w, c, events, user, job);
    CurrentRowFollowsEntry(w, c, events + [last], user, job);
    OwnTitleHits(w.rules, job, d.store.jobs[job], roles, role);
    RowsCompare(w.rules, d, RunEvents(w, c, events + [last]), user, company, job);
  }

  /** A hit among the preferred roles is worth no less than the same entry with any other preferences. */
  lemma RowsCompare(rules: Rules, d: Cache, e: Cache, user: nat, company: nat, job: nat)
    requires Follows(rules, d, user, job) && Follows(rules, e, user, job)
    requires d.store == e.store && IsAt(d, job, company)
    requires RowOf(d.rows, user, company).Some? && RowOf(e.rows, user, company).Some?
    requires var was, now := d.rows[RowOf(d.rows, user, company).value], e.rows[RowOf(e.rows, user, company).value];
             was.excluded == now.excluded && was.priority == now.priority
             && TitleMatches(rules, Titles(rules, job, d.store.jobs[job]), now.preferred)
    ensures CurrentResolved(d, user, job) && CurrentResolved(e, user, job) ==>
              d.matches[(user, job)].watchlist.Some? && e.matches[(user, job)].watchlist.Some?
              && d.matches[(user, job)].watchlist.value <= e.matches[(user, job)].watchlist.value
  {
    HitIff(rules, Titles(rules, job, d.store.jobs[job]), d.rows[RowOf(d.rows, user, company).value].preferred);
  }

  function Preferring(roles: seq<string>, notes: bool): Changes {
    Changes(None, Some(roles), None, notes)
  }

  /** Watching a company without naming roles makes its current rows worth 90, 75 or 60; unwatching it takes the score
      away. */
  lemma WatchingGivesItsPriority(
    w: World, c: Cache, events: seq<Event>, row: WatchRow, limit: nat, env: Env, job: nat)
    requires Coherent(w.rules, c) && row.preferred == [] && row.excluded == []
    requires var d := RunEvents(w, c, events);
             IsAt(d, job, row.company) && row.company < |d.store.companies|
             && RowOf(d.rows, row.user, row.company).None?
    ensures var e := RunEvents(w, c, events + [Watch(row, limit, env)]);
            CurrentResolved(e, row.user, job) ==>
              e.matches[(row.user, job)].watchlist
              == Some(match row.priority case High => 90.0 case Medium => 75.0 case Low => 60.0)
  {
    var d := RunEvents(w, c, events);
    RunMore(w, c, events, Watch(row, limit, env));
    WatchedRow(w.rules, d, row, limit, env);
    CurrentRowFollowsEntry(w, c, events + [Watch(row, limit, env)], row.user, job);
    HitIff(w.rules, Titles(w.rules, job, d.store.jobs[job]), []);
  }

  lemma UnwatchingTakesTheScoreAway(
    w: World, c: Cache, events: seq<Event>, user: nat, company: nat, limit: nat, env: Env, job: nat)
    requires Coherent(w.rules, c)
    requires var d := RunEvents(w, c, events);
             IsAt(d, job, company) && RowOf(d.rows, user, company).Some?
    ensures var e := RunEvents(w, c, events + [Unwatch(user, company, limit, env)]);
            CurrentResolved(e, user, job) ==> e.matches[(user, job)].watchlist.None?
  {
    RunMore(w, c, events, Unwatch(user, company, limit, env));
    UnwatchedRow(w.rules, RunEvents(w, c, events), user, company, limit, env);
    CurrentRowFollowsEntry(w, c, events + [Unwatch(user, company, limit, env)], user, job);
  }

  // ----- what an edit rescores at once -----

  predicate CurrentNow(c: Cache, user: nat, job: nat) {
    (user, job) in c.matches && c.matches[(user, job)].version == SCORING_VERSION
  }

  lemma {:induction false} ForcedIsCurrent(
    rules: Rules, c: Cache, user: nat, jobs: seq<nat>, entries: seq<Entry>, env: Env, job: nat)
    requires forall k :: 0 <= k < |jobs| ==> jobs[k] < |c.store.jobs|
    requires (job in jobs && job !in env.raises) || CurrentNow(c, user, job)
    ensures CurrentNow(MatchAll(rules, c, user, jobs, true, entries, env), user, job)
    decreases |jobs|
  {
    if jobs != [] {
      var n := |jobs| - 1;
      assert jobs == jobs[..n] + [jobs[n]];
      if job in jobs[..n] || CurrentNow(c, user, job) {
        ForcedIsCurrent(rules, c, user, jobs[..n], entries, env, job);
      }
    }
  }

  /** An edit leaves the newest jobs of its company current at once, as many as the limit says, unless scoring them
      raises; `CurrentRowFollowsEntry` says what they hold. */
  lemma EditRescoresNewest(
    w: World, c: Cache, user: nat, company: nat, changes: Changes, limit: nat, env: Env, job: nat)
    requires Valid(w.rules, c) && RowOf(c.rows, user, company).Some? && !changes.Empty()
    requires job in CandidateIds(c.store, company, limit) && job !in env.raises
    ensures CurrentNow(Apply(w, c, Change(user, company, changes, limit, env)), user, job)
  {
    var i := RowOf(c.rows, user, company).value;
    var rows := c.rows[i := changes.On(c.rows[i])];
    assert c.rows[i].company == company;
    ReplacedRow(c.rows, i, changes.On(c.rows[i]));
    NewestCurrent(w.rules, c.(rows := rows), user, company, limit, env, job);
  }

  lemma NewestCurrent(rules: Rules, c: Cache, user: nat, company: nat, limit: nat, env: Env, job: nat)
    requires RowsResolved(c.store, c.rows) && company < |c.store.companies|
    requires forall k :: k in c.matches ==> k.1 < |c.store.jobs|
    requires job in CandidateIds(c.store, company, limit) && job !in env.raises
    ensures CurrentNow(AfterChange(rules, c, user, company, limit, env), user, job)
  {
    var stale := MarkStale(rules, c, user, company, c.store.companies[company].name);
    ForcedIsCurrent(rules, stale, user, CandidateIds(c.store, company, limit),
                    Entries(rules.text, c.store, c.rows, user), env, job);
  }

  /** The same for watching and unwatching. */
  lemma WatchingRescoresNewest(w: World, c: Cache, row: WatchRow, limit: nat, env: Env, job: nat)
    requires Valid(w.rules, c) && row.company < |c.store.companies| && RowOf(c.rows, row.user, row.company).None?
    requires job in CandidateIds(c.store, row.company, limit) && job !in env.raises
    ensures CurrentNow(Apply(w, c, Watch(row, limit, env)), row.user, job)
  {
    NewestCurrent(w.rules, c.(rows := c.rows + [row]), row.user, row.company, limit, env, job);
  }

  lemma UnwatchingRescoresNewest(w: World, c: Cache, user: nat, company: nat, limit: nat, env: Env, job: nat)
    requires Valid(w.rules, c) && RowOf(c.rows, user, company).Some?
    requires job in CandidateIds(c.store, company, limit) && job !in env.raises
    ensures CurrentNow(Apply(w, c, Unwatch(user, company, limit, env)), user, job)
  {
    var i := RowOf(c.rows, user, company).value;
    RemovedRows(c.store, c.rows, i);
    NewestCurrent(w.rules, c.(rows := c.rows[..i] + c.rows[i + 1..]), user, company, limit, env, job);
  }

  /** Watching by name watches the company of that name's key, which is created if need be. */
  lemma WatchingByNameWatchesIt(
    rules: Rules, c: Cache, row: WatchRow, name: string, metadata: Option<Columns>, limit: nat, env: Env)
    requires Valid(rules, c) && AddByName(rules, c, row, name, metadata, limit, env).1 == Accepted
    ensures var d := AddByName(rules, c, row, name, metadata, limit, env).0;
            exists k: nat :: k < |d.store.companies| && d.store.companies[k].key == KeyOf(rules.text, name)
                             && RowOf(d.rows, row.user, k).Some?
                             && d.rows[RowOf(d.rows, row.user, k).value] == row.(company := k)
  {
    ResolveForWatch(rules, c, name, metadata);
    var (d, company) := Resolve(rules, c, name, metadata);
    WatchedRow(rules, d, row.(company := company), limit, env);
  }
}
