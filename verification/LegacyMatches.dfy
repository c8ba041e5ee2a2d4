/** Jobs stored before companies were resolved: where the name branch of the invalidation reaches them. */
module LegacyMatches {
  import opened Prelude
  import opened CompanyNames
  import opened JobIdentity
  import opened JobStore
  import opened Watchlist
  import opened MatchCache

  predicate Current(c: Cache, user: nat, job: nat) {
    (user, job) in c.matches && c.matches[(user, job)].version == SCORING_VERSION
  }

  lemma {:induction false} MatchAllElsewhere(
    rules: Rules, c: Cache, user: nat, jobs: seq<nat>, force: bool, entries: seq<Entry>, env: Env, j: nat)
    requires forall k :: 0 <= k < |jobs| ==> jobs[k] < |c.store.jobs|
    requires (user, j) in c.matches && j !in jobs
    ensures var d := MatchAll(rules, c, user, jobs, force, entries, env);
            (user, j) in d.matches && d.matches[(user, j)] == c.matches[(user, j)]
    decreases |jobs|
  {
    if jobs != [] {
      MatchAllElsewhere(rules, c, user, jobs[..|jobs| - 1], force, entries, env, j);
    }
  }

  /** A legacy job is never rescored by an edit, and is marked stale only through its company name. */
  lemma AfterChangeOnLegacy(rules: Rules, c: Cache, user: nat, company: nat, limit: nat, env: Env, j: nat)
    requires RowsResolved(c.store, c.rows) && company < |c.store.companies|
    requires forall k :: k in c.matches ==> k.1 < |c.store.jobs|
    requires (user, j) in c.matches && c.store.jobs[j].companyId.None?
    ensures var d := AfterChange(rules, c, user, company, limit, env);
            (user, j) in d.matches && d.matches[(user, j)] ==
            if Affected(rules, c.store.jobs[j], company, c.store.companies[company].name)
            then c.matches[(user, j)].(version := STALE) else c.matches[(user, j)]
  {
    var d := MarkStale(rules, c, user, company, c.store.companies[company].name);
    var jobs := CandidateIds(d.store, company, limit);
    assert j !in jobs;
    MatchAllElsewhere(rules, d, user, jobs, true, Entries(rules.text, d.store, d.rows, user), env, j);
  }

  // ----- the row that covers a legacy job -----

  /** The watched company that shares the job's key, if any. */
  function CoveringRow(text: Text, s: Store, rows: seq<WatchRow>, user: nat, job: Job): (r: Option<WatchRow>)
    ensures r.Some? ==> r.value in rows && r.value.user == user
  {
    var key := KeyOf(text, job.companyName);
    var company := FindCompany(s, key);
    if key == [] || company.None? then None
    else
      var i := RowOf(rows, user, company.value);
      if i.Some? then Some(rows[i.value]) else None
  }

  /** The company's key is the job's: only its spelling may differ. */
  predicate Covers(text: Text, s: Store, company: nat, job: Job)
    requires company < |s.companies|
  {
    KeyOf(text, job.companyName) != [] && s.companies[company].key == KeyOf(text, job.companyName)
  }

  lemma CoveringCompany(text: Text, s: Store, company: nat, job: Job)
    requires CompaniesResolved(text, s) && company < |s.companies|
    ensures Covers(text, s, company, job) <==>
            KeyOf(text, job.companyName) != [] && FindCompany(s, KeyOf(text, job.companyName)) == Some(company)
  {
  }

  lemma CoveringEntry(text: Text, s: Store, rows: seq<WatchRow>, user: nat, job: Job)
    requires CompaniesResolved(text, s) && RowsResolved(s, rows) && RowsUnique(rows) && job.companyId.None?
    ensures EntryFor(text, job, Entries(text, s, rows, user)) ==
            match CoveringRow(text, s, rows, user, job)
            case None => None
            case Some(row) => Some(ToEntry(text, s, row))
  {
    var entries := Entries(text, s, rows, user);
    var key := KeyOf(text, job.companyName);
    var covering := CoveringRow(text, s, rows, user, job);
    if key != [] {
      forall e | e in entries && e.key == key
        ensures covering.Some? && e == ToEntry(text, s, covering.value)
      {
        var i :| 0 <= i < |rows| && rows[i].user == user && e == ToEntry(text, s, rows[i]);
        EntryKeyIsCompanyKey(text, s, rows[i]);
        CoveringCompany(text, s, rows[i].company, job);
        UniqueFind(rows, i);
      }
      if covering.Some? {
        EntryKeyIsCompanyKey(text, s, covering.value);
        assert ToEntry(text, s, covering.value) in entries;
      }
      var found := FirstIndex(entries, (e: Entry) => key != [] && e.key == key);
      if found.Some? { assert entries[found.value] in entries; }
    }
  }

  function ScoreUnder(rules: Rules, s: Store, row: Option<WatchRow>, j: nat, job: Job): Option<real>
    requires row.Some? ==> row.value.company < |s.companies|
  {
    match row
    case None => None
    case Some(r) => Some(EntryScore(rules, Titles(rules, j, job), ToEntry(rules.text, s, r)))
  }

  /** A legacy job's score depends on the covering row alone. */
  lemma LegacyScore(rules: Rules, s: Store, rows: seq<WatchRow>, user: nat, j: nat, job: Job)
    requires CompaniesResolved(rules.text, s) && RowsResolved(s, rows) && RowsUnique(rows) && job.companyId.None?
    ensures var covering := CoveringRow(rules.text, s, rows, user, job);
            (covering.Some? ==> covering.value.company < |s.companies|)
            && WatchlistScore(rules, j, job, Entries(rules.text, s, rows, user))
               == ScoreUnder(rules, s, covering, j, job)
  {
    CoveringEntry(rules.text, s, rows, user, job);
  }

  // ----- editing one row -----

  /** An edit of the row of one user and one company; what the row was and what it is now. */
  datatype Edit = Edit(user: nat, company: nat, before: Option<WatchRow>, after: Option<WatchRow>, rows: seq<WatchRow>)

  function RowAt(rows: seq<WatchRow>, user: nat, company: nat): Option<WatchRow> {
    var i := RowOf(rows, user, company);
    if i.Some? then Some(rows[i.value]) else None
  }

  ghost predicate Edits(rules: Rules, c: Cache, e: Edit) {
    Valid(rules, c) && e.company < |c.store.companies|
    && RowsResolved(c.store, e.rows) && RowsUnique(e.rows) && OnlyRowChanged(c.rows, e.rows, e.user, e.company)
    && e.before == RowAt(c.rows, e.user, e.company) && e.after == RowAt(e.rows, e.user, e.company)
  }

  function Edited(rules: Rules, c: Cache, e: Edit, limit: nat, env: Env): Cache
    requires RowsResolved(c.store, e.rows) && e.company < |c.store.companies|
    requires forall k :: k in c.matches ==> k.1 < |c.store.jobs|
  {
    AfterChange(rules, c.(rows := e.rows), e.user, e.company, limit, env)
  }

  lemma CoveringAfterEdit(rules: Rules, c: Cache, e: Edit, job: Job)
    requires Edits(rules, c, e)
    ensures var text, s := rules.text, c.store;
            if Covers(text, s, e.company, job) then
              CoveringRow(text, s, c.rows, e.user, job) == e.before && CoveringRow(text, s, e.rows, e.user, job) == e.after
            else CoveringRow(text, s, e.rows, e.user, job) == CoveringRow(text, s, c.rows, e.user, job)
  {
    CoveringCompany(rules.text, c.store, e.company, job);
    var company := FindCompany(c.store, KeyOf(rules.text, job.companyName));
    if company.Some? && company.value != e.company {
      assert (e.user, company.value) != (e.user, e.company);
    }
  }

  predicate Spelled(rules: Rules, s: Store, company: nat, job: Job)
    requires company < |s.companies|
  {
    rules.caseFold(job.companyName) == rules.caseFold(s.companies[company].name)
  }

  /** A current row of a legacy job that agreed with recomputation before the edit. */
  ghost predicate RightBefore(rules: Rules, c: Cache, user: nat, j: nat) {
    RowsResolved(c.store, c.rows) && Current(c, user, j) && j < |c.store.jobs| && c.store.jobs[j].companyId.None?
    && Agrees(rules, c, user, j, c.matches[(user, j)])
  }

  ghost predicate WatchlistRight(rules: Rules, c: Cache, user: nat, j: nat)
    requires RowsResolved(c.store, c.rows) && j < |c.store.jobs|
  {
    Current(c, user, j) ==>
      c.matches[(user, j)].watchlist
      == WatchlistScore(rules, j, c.store.jobs[j], Entries(rules.text, c.store, c.rows, user))
  }

  ghost predicate OverallRight(rules: Rules, c: Cache, user: nat, j: nat)
    requires RowsResolved(c.store, c.rows) && j < |c.store.jobs|
  {
    Current(c, user, j) ==>
      c.matches[(user, j)].overall
      == rules.overall(user, j, c.store.jobs[j], Value(WatchlistScore(rules, j, c.store.jobs[j],
                                                     Entries(rules.text, c.store, c.rows, user))))
  }

  /** After any edit a legacy row is right exactly when the company does not cover the job, or the names are equal up
      to case, or the edit does not change the score; the overall score likewise. */
  lemma LegacyRowAfterEditIff(rules: Rules, c: Cache, e: Edit, limit: nat, env: Env, j: nat)
    requires Edits(rules, c, e) && RightBefore(rules, c, e.user, j)
    requires e.before.Some? ==> e.before.value.company < |c.store.companies|
    requires e.after.Some? ==> e.after.value.company < |c.store.companies|
    ensures Edited(rules, c, e, limit, env).store == c.store && Edited(rules, c, e, limit, env).rows == e.rows
    ensures var job := c.store.jobs[j];
            WatchlistRight(rules, Edited(rules, c, e, limit, env), e.user, j) <==>
            !Covers(rules.text, c.store, e.company, job) || Spelled(rules, c.store, e.company, job)
            || ScoreUnder(rules, c.store, e.before, j, job) == ScoreUnder(rules, c.store, e.after, j, job)
    ensures var job := c.store.jobs[j];
            OverallRight(rules, Edited(rules, c, e, limit, env), e.user, j) <==>
            !Covers(rules.text, c.store, e.company, job) || Spelled(rules, c.store, e.company, job)
            || rules.overall(e.user, j, job, Value(ScoreUnder(rules, c.store, e.before, j, job)))
               == rules.overall(e.user, j, job, Value(ScoreUnder(rules, c.store, e.after, j, job)))
  {
    var job := c.store.jobs[j];
    AfterChangeOnLegacy(rules, c.(rows := e.rows), e.user, e.company, limit, env, j);
    CoveringAfterEdit(rules, c, e, job);
    LegacyScore(rules, c.store, c.rows, e.user, j, job);
    LegacyScore(rules, c.store, e.rows, e.user, j, job);
  }

  // ----- watching, changing, unwatching -----

  function Watched(rows: seq<WatchRow>, row: WatchRow): Edit {
    Edit(row.user, row.company, None, Some(row), rows + [row])
  }

  lemma WatchIsEdit(rules: Rules, c: Cache, row: WatchRow)
    requires Valid(rules, c) && row.company < |c.store.companies| && RowOf(c.rows, row.user, row.company).None?
    ensures Edits(rules, c, Watched(c.rows, row))
  {
    AppendedRow(c.rows, row);
    assert (c.rows + [row])[|c.rows|] == row;
    UniqueFind(c.rows + [row], |c.rows|);
  }

  /** Watching a company leaves a legacy row current and wrong exactly when the job's company name has the watched
      company's key but is spelled differently; the stored overall score is then wrong unless the entry scores what
      no entry would. */
  lemma LegacyRowStaysRightIff(rules: Rules, c: Cache, row: WatchRow, limit: nat, env: Env, j: nat)
    requires Valid(rules, c) && row.company < |c.store.companies| && RowOf(c.rows, row.user, row.company).None?
    requires RightBefore(rules, c, row.user, j)
    ensures var d := Add(rules, c, row, limit, env).0;
            var job := c.store.jobs[j];
            d.store == c.store && RowsResolved(d.store, d.rows)
            && (WatchlistRight(rules, d, row.user, j) <==>
                !Covers(rules.text, c.store, row.company, job) || Spelled(rules, c.store, row.company, job))
            && (OverallRight(rules, d, row.user, j) <==>
                !Covers(rules.text, c.store, row.company, job) || Spelled(rules, c.store, row.company, job)
                || rules.overall(row.user, j, job, Value(ScoreUnder(rules, c.store, Some(row), j, job)))
                   == rules.overall(row.user, j, job, NEUTRAL))
  {
    WatchIsEdit(rules, c, row);
    LegacyRowAfterEditIff(rules, c, Watched(c.rows, row), limit, env, j);
  }

  function Changed(rows: seq<WatchRow>, i: nat, row: WatchRow): Edit
    requires i < |rows|
  {
    Edit(row.user, row.company, Some(rows[i]), Some(row), rows[i := row])
  }

  lemma ChangeIsEdit(rules: Rules, c: Cache, i: nat, changes: Changes)
    requires Valid(rules, c) && i < |c.rows|
    ensures Edits(rules, c, Changed(c.rows, i, changes.On(c.rows[i])))
  {
    var row := changes.On(c.rows[i]);
    ReplacedRow(c.rows, i, row);
    UniqueFind(c.rows, i);
    UniqueFind(c.rows[i := row], i);
  }

  /** Changing an entry: the same, unless the change scores the job as before. */
  lemma LegacyRowAfterUpdateIff(
    rules: Rules, c: Cache, user: nat, company: nat, changes: Changes, limit: nat, env: Env, j: nat)
    requires Valid(rules, c) && RowOf(c.rows, user, company).Some? && !changes.Empty()
    requires RightBefore(rules, c, user, j)
    ensures var was, job := c.rows[RowOf(c.rows, user, company).value], c.store.jobs[j];
            var d := Update(rules, c, user, company, changes, limit, env).0;
            company < |c.store.companies| && d.store == c.store && RowsResolved(d.store, d.rows)
            && (WatchlistRight(rules, d, user, j) <==>
                !Covers(rules.text, c.store, company, job) || Spelled(rules, c.store, company, job)
                || ScoreUnder(rules, c.store, Some(was), j, job)
                   == ScoreUnder(rules, c.store, Some(changes.On(was)), j, job))
            && (OverallRight(rules, d, user, j) <==>
                !Covers(rules.text, c.store, company, job) || Spelled(rules, c.store, company, job)
                || rules.overall(user, j, job, Value(ScoreUnder(rules, c.store, Some(was), j, job)))
                   == rules.overall(user, j, job, Value(ScoreUnder(rules, c.store, Some(changes.On(was)), j, job))))
  {
    var i := RowOf(c.rows, user, company).value;
    ChangeIsEdit(rules, c, i, changes);
    LegacyRowAfterEditIff(rules, c, Changed(c.rows, i, changes.On(c.rows[i])), limit, env, j);
  }

  function Unwatched(rows: seq<WatchRow>, i: nat): Edit
    requires i < |rows|
  {
    Edit(rows[i].user, rows[i].company, Some(rows[i]), None, rows[..i] + rows[i + 1..])
  }

  lemma RemovedIsGone(rows: seq<WatchRow>, i: nat)
    requires RowsUnique(rows) && i < |rows|
    ensures RowOf(rows[..i] + rows[i + 1..], rows[i].user, rows[i].company).None?
  {
    var after := rows[..i] + rows[i + 1..];
    assert forall k :: 0 <= k < |after| ==> after[k] == rows[if k < i then k else k + 1];
  }

  lemma UnwatchIsEdit(rules: Rules, c: Cache, i: nat)
    requires Valid(rules, c) && i < |c.rows|
    ensures Edits(rules, c, Unwatched(c.rows, i))
  {
    RemovedRows(c.store, c.rows, i);
    RemovedRow(c.rows, i);
    RemovedIsGone(c.rows, i);
    UniqueFind(c.rows, i);
  }

  /** Unwatching: as watching. */
  lemma LegacyRowAfterRemoveIff(rules: Rules, c: Cache, user: nat, company: nat, limit: nat, env: Env, j: nat)
    requires Valid(rules, c) && RowOf(c.rows, user, company).Some? && RightBefore(rules, c, user, j)
    ensures var was, job := c.rows[RowOf(c.rows, user, company).value], c.store.jobs[j];
            var d := Remove(rules, c, user, company, limit, env).0;
            company < |c.store.companies| && d.store == c.store && RowsResolved(d.store, d.rows)
            && (WatchlistRight(rules, d, user, j) <==>
                !Covers(rules.text, c.store, company, job) || Spelled(rules, c.store, company, job))
            && (OverallRight(rules, d, user, j) <==>
                !Covers(rules.text, c.store, company, job) || Spelled(rules, c.store, company, job)
                || rules.overall(user, j, job, Value(ScoreUnder(rules, c.store, Some(was), j, job)))
                   == rules.overall(user, j, job, NEUTRAL))
  {
    var i := RowOf(c.rows, user, company).value;
    UnwatchIsEdit(rules, c, i);
    LegacyRowAfterEditIff(rules, c, Unwatched(c.rows, i), limit, env, j);
  }

  /** A legal suffix is enough to miss a legacy job: the name branch does not catch all of them. */
  lemma SuffixedLegacyRowGoesWrong(rules: Rules, c: Cache, row: WatchRow, limit: nat, env: Env, j: nat, suffix: string)
    requires Valid(rules, c) && row.company < |c.store.companies| && RowOf(c.rows, row.user, row.company).None?
    requires RightBefore(rules, c, row.user, j) && suffix in SUFFIXES
    requires var name := c.store.companies[row.company].name;
             rules.text.nameWords(name) != []
             && rules.text.nameWords(c.store.jobs[j].companyName) == rules.text.nameWords(name) + [suffix]
             && rules.caseFold(c.store.jobs[j].companyName) != rules.caseFold(name)
    ensures var d := Add(rules, c, row, limit, env).0;
            d.store == c.store && RowsResolved(d.store, d.rows) && !WatchlistRight(rules, d, row.user, j)
  {
    SuffixesDoNotChangeTheKey(rules.text.nameWords(c.store.companies[row.company].name), [suffix]);
    LegacyRowStaysRightIff(rules, c, row, limit, env, j);
  }
}
