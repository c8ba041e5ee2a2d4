/** What a user's watchlist says about one job. */
module Watchlist {
  import opened Prelude
  import opened JobIdentity
  import opened JobStore

  datatype Priority = High | Medium | Low

  /** A watchlist row: one per user and company. */
  datatype WatchRow = WatchRow(
    user: nat, company: nat, priority: Priority, preferred: seq<string>, excluded: seq<string>)

  /** The row as the matcher sees it. */
  datatype Entry = Entry(
    company: nat, key: seq<string>, priority: Priority, preferred: seq<string>, excluded: seq<string>)

  /** The pure inputs of scoring that stay fixed here: text operations, the title an analysis found, and the score
      a user's profile gives a job once the watchlist component is known. */
  datatype Rules = Rules(
    text: Text,
    caseFold: string -> string,
    normalizeTitle: string -> string,
    analysisTitle: nat -> Option<string>,
    overall: (nat, nat, Job, real) -> real)

  const NEUTRAL := 50.0
  const PREFERRED_BONUS := 10.0
  const UNPREFERRED_PENALTY := 15.0
  const ROLE_MATCH := 0.6

  function Base(p: Priority): real {
    match p
    case High => 90.0
    case Medium => 75.0
    case Low => 60.0
  }

  function ToEntry(text: Text, s: Store, row: WatchRow): Entry
    requires row.company < |s.companies|
  {
    var company := s.companies[row.company];
    Entry(row.company, if company.key != [] then company.key else KeyOf(text, company.name),
          row.priority, row.preferred, row.excluded)
  }

  ghost predicate RowsResolved(s: Store, rows: seq<WatchRow>) {
    forall i :: 0 <= i < |rows| ==> rows[i].company < |s.companies|
  }

  ghost predicate RowsUnique(rows: seq<WatchRow>) {
    forall i, k :: 0 <= i < k < |rows| ==> !(rows[i].user == rows[k].user && rows[i].company == rows[k].company)
  }

  /** A user's entries. */
  function Entries(text: Text, s: Store, rows: seq<WatchRow>, user: nat): (r: seq<Entry>)
    requires RowsResolved(s, rows)
    ensures forall e :: e in r <==>
              exists i :: 0 <= i < |rows| && rows[i].user == user && e == ToEntry(text, s, rows[i])
  {
    if rows == [] then []
    else
      var last := |rows| - 1;
      assert forall i :: 0 <= i < last ==> rows[..last][i] == rows[i];
      var before := Entries(text, s, rows[..last], user);
      if rows[last].user == user then before + [ToEntry(text, s, rows[last])] else before
  }

  /** By company id first; only a job without a match there falls back to the company's name. */
  function EntryFor(text: Text, job: Job, entries: seq<Entry>): Option<Entry> {
    var byId :=
      if job.companyId.None? then None
      else FirstIndex(entries, (e: Entry) => e.company == job.companyId.value);
    if byId.Some? then Some(entries[byId.value])
    else
      var key := KeyOf(text, job.companyName);
      var byName := FirstIndex(entries, (e: Entry) => key != [] && e.key == key);
      if byName.Some? then Some(entries[byName.value]) else None
  }

  function Titles(rules: Rules, id: nat, job: Job): seq<string> {
    var analysed := rules.analysisTitle(id);
    if Absent(analysed) then [job.posting.title]
    else [job.posting.title, rules.normalizeTitle(analysed.value)]
  }

  predicate RoleFits(text: Text, wanted: string, title: string) {
    Contains(title, wanted) || Contains(wanted, title) || TitleSimilarity(text, wanted, title) >= ROLE_MATCH
  }

  predicate TitleMatches(rules: Rules, titles: seq<string>, roles: seq<string>) {
    exists i, k | 0 <= i < |roles| && 0 <= k < |titles| ::
      rules.normalizeTitle(roles[i]) != "" && RoleFits(rules.text, rules.normalizeTitle(roles[i]), titles[k])
  }

  function EntryScore(rules: Rules, titles: seq<string>, entry: Entry): (r: real)
    ensures 0.0 <= r <= 100.0
  {
    if TitleMatches(rules, titles, entry.excluded) then 0.0
    else if entry.preferred == [] then Base(entry.priority)
    else if TitleMatches(rules, titles, entry.preferred) then MinR(100.0, Base(entry.priority) + PREFERRED_BONUS)
    else Base(entry.priority) - UNPREFERRED_PENALTY
  }

  /** None when no entry covers the job: no signal, as opposed to a low one. */
  function WatchlistScore(rules: Rules, id: nat, job: Job, entries: seq<Entry>): (r: Option<real>)
    ensures r.Some? ==> 0.0 <= r.value <= 100.0
    ensures r.Some? <==> EntryFor(rules.text, job, entries).Some?
  {
    match EntryFor(rules.text, job, entries)
    case None => None
    case Some(entry) => Some(EntryScore(rules, Titles(rules, id, job), entry))
  }

  function Value(score: Option<real>): real {
    if score.Some? then score.value else NEUTRAL
  }

  // ----- the entry of a resolved job is the row of its own company -----

  function RowOf(rows: seq<WatchRow>, user: nat, company: nat): (r: Option<nat>)
    ensures r.Some? ==> r.value < |rows| && rows[r.value].user == user && rows[r.value].company == company
    ensures r.None? ==> forall i :: 0 <= i < |rows| ==> !(rows[i].user == user && rows[i].company == company)
  {
    FirstIndex(rows, (row: WatchRow) => row.user == user && row.company == company)
  }

  lemma EntryKeyIsCompanyKey(text: Text, s: Store, row: WatchRow)
    requires CompaniesResolved(text, s) && row.company < |s.companies|
    ensures ToEntry(text, s, row).key == s.companies[row.company].key
  {
  }

  /** For a job whose company is resolved, what the scan finds is the user's row for that very company: a company key
      belongs to one company, so the fallback by name can find no other. The order of the entries is irrelevant. */
  lemma ResolvedEntry(text: Text, s: Store, rows: seq<WatchRow>, user: nat, job: Job)
    requires CompaniesResolved(text, s) && RowsResolved(s, rows) && RowsUnique(rows)
    requires job.companyId.Some? && JobResolved(text, s, job)
    ensures var found := RowOf(rows, user, job.companyId.value);
            EntryFor(text, job, Entries(text, s, rows, user))
            == if found.Some? then Some(ToEntry(text, s, rows[found.value])) else None
  {
    var entries := Entries(text, s, rows, user);
    var found := RowOf(rows, user, job.companyId.value);
    forall e | e in entries
      ensures e.company < |s.companies| && e.key == s.companies[e.company].key
      ensures e.company == job.companyId.value ==> found.Some? && e == ToEntry(text, s, rows[found.value])
    {
      var i :| 0 <= i < |rows| && rows[i].user == user && e == ToEntry(text, s, rows[i]);
      EntryKeyIsCompanyKey(text, s, rows[i]);
    }
    if found.Some? {
      assert ToEntry(text, s, rows[found.value]) in entries;
    } else {
      forall i | 0 <= i < |entries| ensures entries[i].key != KeyOf(text, job.companyName) {
        assert entries[i] in entries;
      }
    }
  }
}
