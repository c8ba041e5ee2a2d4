/** Users do not disturb each other: no call of one changes another's watchlist or cached matches. */
module UserIsolation {
  import opened Prelude
  import opened JobStore
  import opened Deduplication
  import opened Watchlist
  import opened MatchCache
  import opened MatchRuns

  /** Whose call it is; discovery is nobody's. */
  function Owner(e: Event): Option<nat> {
    match e
    case Watch(row, _, _) => Some(row.user)
    case WatchByName(row, _, _, _, _) => Some(row.user)
    case Change(user, _, _, _, _) => Some(user)
    case Unwatch(user, _, _, _) => Some(user)
    case MatchOne(user, _, _, _) => Some(user)
    case MatchBatch(user, _, _) => Some(user)
    case GiveFeedback(user, _, _, _) => Some(user)
    case Discover(_) => None
  }

  /** The cached rows and the watchlist rows of a user are the same in both. */
  ghost predicate SameFor(c: Cache, d: Cache, user: nat) {
    (forall j: nat :: (user, j) in c.matches <==> (user, j) in d.matches)
    && (forall j: nat :: (user, j) in c.matches ==> d.matches[(user, j)] == c.matches[(user, j)])
    && forall k: nat :: RowFor(c.rows, user, k) == RowFor(d.rows, user, k)
  }

  function RowFor(rows: seq<WatchRow>, user: nat, company: nat): Option<WatchRow> {
    var found := RowOf(rows, user, company);
    if found.Some? then Some(rows[found.value]) else None
  }

  lemma {:induction false} MatchAllTouchesOwn(
    rules: Rules, c: Cache, owner: nat, jobs: seq<nat>, force: bool, entries: seq<Entry>, env: Env, user: nat)
    requires user != owner && forall k :: 0 <= k < |jobs| ==> jobs[k] < |c.store.jobs|
    ensures SameFor(c, MatchAll(rules, c, owner, jobs, force, entries, env), user)
    decreases |jobs|
  {
    if jobs != [] {
      MatchAllTouchesOwn(rules, c, owner, jobs[..|jobs| - 1], force, entries, env, user);
    }
  }

  lemma AfterChangeTouchesOwn(
    rules: Rules, c: Cache, owner: nat, company: nat, limit: nat, env: Env, user: nat)
    requires RowsResolved(c.store, c.rows) && company < |c.store.companies| && user != owner
    requires forall k :: k in c.matches ==> k.1 < |c.store.jobs|
    ensures SameFor(c, AfterChange(rules, c, owner, company, limit, env), user)
  {
    var stale := MarkStale(rules, c, owner, company, c.store.companies[company].name);
    MatchAllTouchesOwn(rules, stale, owner, CandidateIds(stale.store, company, limit), true,
                       Entries(rules.text, stale.store, stale.rows, owner), env, user);
  }

  lemma OtherRowsStay(before: seq<WatchRow>, after: seq<WatchRow>, owner: nat, company: nat, user: nat)
    requires OnlyRowChanged(before, after, owner, company) && user != owner
    ensures forall k: nat :: RowFor(before, user, k) == RowFor(after, user, k)
  {
  }

  /** An edit leaves what other users see as it was. */
  lemma EditTouchesOwn(
    rules: Rules, c: Cache, rows: seq<WatchRow>, owner: nat, company: nat, limit: nat, env: Env, user: nat)
    requires Valid(rules, c) && RowsResolved(c.store, rows) && company < |c.store.companies| && user != owner
    requires OnlyRowChanged(c.rows, rows, owner, company)
    ensures SameFor(c, AfterChange(rules, c.(rows := rows), owner, company, limit, env), user)
  {
    OtherRowsStay(c.rows, rows, owner, company, user);
    AfterChangeTouchesOwn(rules, c.(rows := rows), owner, company, limit, env, user);
  }

  lemma AddTouchesOwn(rules: Rules, c: Cache, row: WatchRow, limit: nat, env: Env, user: nat)
    requires Valid(rules, c) && user != row.user
    ensures SameFor(c, Add(rules, c, row, limit, env).0, user)
  {
    if row.company < |c.store.companies| && RowOf(c.rows, row.user, row.company).None? {
      AppendedRow(c.rows, row);
      EditTouchesOwn(rules, c, c.rows + [row], row.user, row.company, limit, env, user);
    }
  }

  lemma UpdateTouchesOwn(
    rules: Rules, c: Cache, owner: nat, company: nat, changes: Changes, limit: nat, env: Env, user: nat)
    requires Valid(rules, c) && user != owner
    ensures SameFor(c, Update(rules, c, owner, company, changes, limit, env).0, user)
  {
    var i := RowOf(c.rows, owner, company);
    if i.Some? {
      ReplacedRow(c.rows, i.value, changes.On(c.rows[i.value]));
      EditTouchesOwn(rules, c, c.rows[i.value := changes.On(c.rows[i.value])], owner, company, limit, env, user);
    }
  }

  lemma RemoveTouchesOwn(rules: Rules, c: Cache, owner: nat, company: nat, limit: nat, env: Env, user: nat)
    requires Valid(rules, c) && user != owner
    ensures SameFor(c, Remove(rules, c, owner, company, limit, env).0, user)
  {
    var i := RowOf(c.rows, owner, company);
    if i.Some? {
      RemovedRows(c.store, c.rows, i.value);
      RemovedRow(c.rows, i.value);
      EditTouchesOwn(rules, c, c.rows[..i.value] + c.rows[i.value + 1..], owner, company, limit, env, user);
    }
  }

  lemma EventTouchesOnlyItsOwner(w: World, c: Cache, e: Event, user: nat)
    requires Valid(w.rules, c) && Owner(e) != Some(user)
    ensures SameFor(c, Apply(w, c, e), user)
  {
    match e {
      case Watch(row, limit, env) => AddTouchesOwn(w.rules, c, row, limit, env, user);
      case WatchByName(row, name, metadata, limit, env) =>
        var (d, company) := Resolve(w.rules, c, name, metadata);
        ResolveForWatch(w.rules, c, name, metadata);
        AddTouchesOwn(w.rules, d, row.(company := company), limit, env, user);
      case Change(owner, company, changes, limit, env) =>
        UpdateTouchesOwn(w.rules, c, owner, company, changes, limit, env, user);
      case Unwatch(owner, company, limit, env) => RemoveTouchesOwn(w.rules, c, owner, company, limit, env, user);
      case MatchBatch(owner, limit, env) =>
        MatchAllTouchesOwn(w.rules, c, owner, Take(PendingJobs(c, owner), limit), false,
                           Entries(w.rules.text, c.store, c.rows, owner), env, user);
      case _ =>
    }
  }

  /** Whatever the others do, and whatever is discovered, a user's watchlist and cached matches stay as they are. */
  lemma {:induction false} UsersAreIndependent(w: World, c: Cache, events: seq<Event>, user: nat)
    requires Coherent(w.rules, c) && forall k :: 0 <= k < |events| ==> Owner(events[k]) != Some(user)
    ensures SameFor(c, RunEvents(w, c, events), user)
    decreases |events|
  {
    if events != [] {
      var n := |events| - 1;
      UsersAreIndependent(w, c, events[..n], user);
      EventTouchesOnlyItsOwner(w, RunEvents(w, c, events[..n]), events[n], user);
    }
  }
}
