/** The rows deduplication reads and writes, and one function per repository call on them.
    Rows are kept in creation order and a row's identifier is its position, so "oldest" is the smallest index. */
module JobStore {
  import opened Prelude
  import opened JobIdentity
  import opened CompanyNames

  type Columns = map<string, string>

  datatype Company = Company(name: string, key: seq<string>, columns: Columns)

  /** A normalized job as a source delivered it. */
  datatype Item = Item(
    sourceName: string,
    externalId: Option<string>,
    sourceUrl: Option<string>,
    canonicalUrl: Option<string>,
    posting: Posting,
    companyName: string,
    contentHash: string,
    metadata: Option<Columns>)
  {
    /** `sourceUrl or canonicalUrl or ""` */
    function Url(): string {
      if !Absent(sourceUrl) then sourceUrl.value
      else if !Absent(canonicalUrl) then canonicalUrl.value
      else ""
    }
  }

  datatype Job = Job(
    externalId: Option<string>,
    sourceId: nat,
    canonicalUrl: Option<string>,
    posting: Posting,
    companyId: Option<nat>,
    companyName: string,
    contentHash: string,
    duplicateOf: Option<nat>,
    deleted: bool)

  datatype Listing = Listing(
    jobId: nat,
    sourceId: nat,
    externalId: Option<string>,
    sourceUrl: string,
    canonicalUrl: Option<string>,
    postedAt: Option<int>,
    isPrimary: bool)

  datatype Store = Store(companies: seq<Company>, jobs: seq<Job>, listings: seq<Listing>)

  function KeyOf(text: Text, name: string): seq<string> {
    CompanyKey(text.nameWords(name))
  }

  // ----- company repository -----

  function FindCompany(s: Store, key: seq<string>): (r: Option<nat>)
    ensures r.Some? ==> r.value < |s.companies| && s.companies[r.value].key == key
    ensures r.None? ==> forall c :: 0 <= c < |s.companies| ==> s.companies[c].key != key
  {
    FirstIndex(s.companies, (c: Company) => c.key == key)
  }

  function UpsertCompany(text: Text, s: Store, name: string): (r: (Store, nat))
    ensures r.1 < |r.0.companies| && r.0.companies[r.1].key == KeyOf(text, name)
  {
    match FindCompany(s, KeyOf(text, name))
    case Some(c) => (s, c)
    case None =>
      (s.(companies := s.companies + [Company(name, KeyOf(text, name), map[])]), |s.companies|)
  }

  /** The metadata worth writing: columns the row read earlier did not have. */
  function MissingColumns(row: Company, metadata: Option<Columns>): Columns {
    if metadata.None? then map[]
    else map k | k in metadata.value && k !in row.columns :: metadata.value[k]
  }

  function FillColumns(s: Store, c: nat, fill: Columns): Store {
    if fill == map[] || c >= |s.companies| then s
    else
      var row := s.companies[c];
      s.(companies := s.companies[c := row.(columns := row.columns + fill)])
  }

  // ----- listing repository -----

  function FindListing(s: Store, source: nat, externalId: string): (r: Option<nat>)
    ensures r.Some? ==> r.value < |s.listings|
                        && s.listings[r.value].sourceId == source
                        && s.listings[r.value].externalId == Some(externalId)
    ensures r.None? ==> forall i :: 0 <= i < |s.listings| ==>
                          !(s.listings[i].sourceId == source && s.listings[i].externalId == Some(externalId))
  {
    FirstIndex(s.listings, (l: Listing) => l.sourceId == source && l.externalId == Some(externalId))
  }

  function RefreshListing(s: Store, i: nat, item: Item): Store {
    if i >= |s.listings| then s
    else
      var row := s.listings[i].(
        sourceUrl := item.Url(), canonicalUrl := item.canonicalUrl, postedAt := item.posting.postedAt);
      s.(listings := s.listings[i := row])
  }

  function NewListing(job: nat, source: nat, item: Item, primary: bool): Listing {
    Listing(job, source, item.externalId, item.Url(), item.canonicalUrl, item.posting.postedAt, primary)
  }

  function AppendListing(s: Store, job: nat, source: nat, item: Item): Store {
    s.(listings := s.listings + [NewListing(job, source, item, false)])
  }

  function FindUnkeyedListing(s: Store, job: nat, source: nat, url: Option<string>): (r: Option<nat>)
    ensures r.Some? ==> r.value < |s.listings|
  {
    FirstIndex(s.listings, (l: Listing) => l.jobId == job && l.sourceId == source && l.canonicalUrl == url)
  }

  /** Upsert on the unique (source, externalId); without an external id, match by hand on job, source and URL. */
  function UpsertListing(s: Store, job: nat, source: nat, item: Item): Store {
    var found :=
      if item.externalId.Some? then FindListing(s, source, item.externalId.value)
      else FindUnkeyedListing(s, job, source, item.canonicalUrl);
    if found.Some? then RefreshListing(s, found.value, item) else AppendListing(s, job, source, item)
  }

  // ----- job repository -----

  function FindByContentHash(s: Store, hash: string): (r: Option<nat>)
    ensures r.Some? ==> r.value < |s.jobs| && !s.jobs[r.value].deleted && s.jobs[r.value].contentHash == hash
    ensures r.None? ==> forall j :: 0 <= j < |s.jobs| ==> s.jobs[j].deleted || s.jobs[j].contentHash != hash
  {
    FirstIndex(s.jobs, (j: Job) => !j.deleted && j.contentHash == hash)
  }

  function FindByCanonicalUrl(s: Store, url: string): (r: Option<nat>)
    ensures r.Some? ==> r.value < |s.jobs| && !s.jobs[r.value].deleted && s.jobs[r.value].canonicalUrl == Some(url)
    ensures r.None? ==> forall j :: 0 <= j < |s.jobs| ==> s.jobs[j].deleted || s.jobs[j].canonicalUrl != Some(url)
  {
    FirstIndex(s.jobs, (j: Job) => !j.deleted && j.canonicalUrl == Some(url))
  }

  predicate LiveAt(job: Job, company: nat) {
    !job.deleted && job.companyId == Some(company)
  }

  /** Live jobs of a company, newest first. */
  function LiveJobs(jobs: seq<Job>, company: nat): (r: seq<nat>)
    ensures forall j :: j in r <==> 0 <= j < |jobs| && LiveAt(jobs[j], company)
    ensures |r| <= |jobs|
  {
    if jobs == [] then []
    else
      var last := |jobs| - 1;
      (if LiveAt(jobs[last], company) then [last] else []) + LiveJobs(jobs[..last], company)
  }

  function CandidateIds(s: Store, company: nat, limit: nat): (r: seq<nat>)
    ensures forall k :: 0 <= k < |r| ==> r[k] < |s.jobs| && LiveAt(s.jobs[r[k]], company)
    ensures forall j :: j in r ==> j in LiveJobs(s.jobs, company)
    ensures |LiveJobs(s.jobs, company)| <= limit ==> r == LiveJobs(s.jobs, company)
  {
    var ids := Take(LiveJobs(s.jobs, company), limit);
    assert forall k :: 0 <= k < |ids| ==> ids[k] in LiveJobs(s.jobs, company);
    ids
  }

  /** The Job and its primary listing, or nothing when (source, externalId) is already taken. */
  function CreateJob(s: Store, item: Item, source: nat, company: Option<nat>, duplicateOf: Option<nat>)
    : (r: (Store, Option<nat>))
  {
    if item.externalId.Some? && FindListing(s, source, item.externalId.value).Some? then (s, None)
    else
      var job := Job(item.externalId, source, item.canonicalUrl, item.posting, company, item.companyName,
                     item.contentHash, duplicateOf, false);
      var id := |s.jobs|;
      (Store(s.companies, s.jobs + [job], s.listings + [NewListing(id, source, item, true)]), Some(id))
  }

  // ----- what the rows always satisfy -----

  ghost predicate IsPrimaryOf(s: Store, i: nat, job: nat) {
    i < |s.listings| && s.listings[i].isPrimary && s.listings[i].jobId == job
  }

  ghost predicate HasPrimary(s: Store, job: nat) {
    exists i: nat :: IsPrimaryOf(s, i, job)
  }

  /** A Job never exists without its primary listing, and has only one. */
  ghost predicate OnePrimaryEach(s: Store) {
    (forall j: nat :: j < |s.jobs| ==> HasPrimary(s, j))
    && (forall i: nat, k: nat, j: nat :: IsPrimaryOf(s, i, j) && IsPrimaryOf(s, k, j) ==> i == k)
  }

  ghost predicate ListingsPointAtJobs(s: Store) {
    forall i :: 0 <= i < |s.listings| ==> s.listings[i].jobId < |s.jobs|
  }

  ghost predicate KeysUnique(s: Store) {
    forall i, k :: 0 <= i < k < |s.listings| && s.listings[i].externalId.Some? ==>
      !(s.listings[i].sourceId == s.listings[k].sourceId && s.listings[i].externalId == s.listings[k].externalId)
  }

  /** Near-duplicate links go to a strictly earlier job of the same company. */
  ghost predicate LinksGoBack(s: Store) {
    forall j :: 0 <= j < |s.jobs| && s.jobs[j].duplicateOf.Some? ==>
      s.jobs[j].duplicateOf.value < j && s.jobs[s.jobs[j].duplicateOf.value].companyId == s.jobs[j].companyId
  }

  /** One company row per key, carrying the key of its own name. */
  ghost predicate CompaniesResolved(text: Text, s: Store) {
    (forall c :: 0 <= c < |s.companies| ==> s.companies[c].key == KeyOf(text, s.companies[c].name))
    && (forall c, d :: 0 <= c < d < |s.companies| ==> s.companies[c].key != s.companies[d].key)
  }

  ghost predicate JobResolved(text: Text, s: Store, job: Job) {
    job.companyId.Some? ==>
      job.companyId.value < |s.companies| && s.companies[job.companyId.value].key == KeyOf(text, job.companyName)
  }

  ghost predicate JobsResolved(text: Text, s: Store) {
    forall j :: 0 <= j < |s.jobs| ==> JobResolved(text, s, s.jobs[j])
  }

  ghost predicate Consistent(text: Text, s: Store) {
    OnePrimaryEach(s) && ListingsPointAtJobs(s) && KeysUnique(s) && LinksGoBack(s)
    && CompaniesResolved(text, s) && JobsResolved(text, s)
  }

  /** Rows are only ever added; what identifies a row never changes, and Job rows never change at all. */
  ghost predicate Extends(s: Store, t: Store) {
    |s.companies| <= |t.companies|
    && (forall c :: 0 <= c < |s.companies| ==>
          t.companies[c].name == s.companies[c].name && t.companies[c].key == s.companies[c].key)
    && s.jobs <= t.jobs
    && |s.listings| <= |t.listings|
    && (forall i :: 0 <= i < |s.listings| ==> SameIdentity(s.listings[i], t.listings[i]))
  }

  predicate SameIdentity(a: Listing, b: Listing) {
    a.jobId == b.jobId && a.sourceId == b.sourceId && a.externalId == b.externalId && a.isPrimary == b.isPrimary
  }

  lemma ExtendsTransitive(a: Store, b: Store, c: Store)
    requires Extends(a, b) && Extends(b, c)
    ensures Extends(a, c)
  {
    forall i | 0 <= i < |a.listings| ensures SameIdentity(a.listings[i], c.listings[i]) {
      assert SameIdentity(a.listings[i], b.listings[i]);
    }
  }

  lemma SamePrimaries(s: Store, t: Store)
    requires OnePrimaryEach(s) && |t.jobs| == |s.jobs|
    requires forall i: nat, j: nat :: IsPrimaryOf(t, i, j) <==> IsPrimaryOf(s, i, j)
    ensures OnePrimaryEach(t)
  {
    forall j: nat | j < |t.jobs| ensures HasPrimary(t, j) {
      assert HasPrimary(s, j);
      var i: nat :| IsPrimaryOf(s, i, j);
      assert IsPrimaryOf(t, i, j);
    }
  }

  /** Jobs and listings do not see company rows added or filled in. */
  lemma SameJobsAndListingsKeep(text: Text, s: Store, t: Store)
    requires Consistent(text, s) && CompaniesResolved(text, t) && Extends(s, t)
    requires t.jobs == s.jobs && t.listings == s.listings
    ensures Consistent(text, t)
  {
    forall j | 0 <= j < |t.jobs| ensures JobResolved(text, t, t.jobs[j]) {
      assert JobResolved(text, s, s.jobs[j]);
    }
    forall i: nat, j: nat ensures IsPrimaryOf(t, i, j) <==> IsPrimaryOf(s, i, j) {}
    SamePrimaries(s, t);
  }

  lemma UpsertCompanyRows(text: Text, s: Store, name: string)
    requires CompaniesResolved(text, s)
    ensures var (t, c) := UpsertCompany(text, s, name);
            CompaniesResolved(text, t) && Extends(s, t) && t.jobs == s.jobs && t.listings == s.listings
            && FindCompany(t, KeyOf(text, name)) == Some(c)
  {
  }

  lemma UpsertCompanyKeeps(text: Text, s: Store, name: string)
    requires Consistent(text, s)
    ensures var (t, c) := UpsertCompany(text, s, name);
            Consistent(text, t) && Extends(s, t) && t.jobs == s.jobs && t.listings == s.listings
            && FindCompany(t, KeyOf(text, name)) == Some(c)
  {
    UpsertCompanyRows(text, s, name);
    SameJobsAndListingsKeep(text, s, UpsertCompany(text, s, name).0);
  }

  lemma FillColumnsKeeps(text: Text, s: Store, c: nat, fill: Columns)
    requires Consistent(text, s)
    ensures var t := FillColumns(s, c, fill);
            Consistent(text, t) && Extends(s, t) && t.jobs == s.jobs && t.listings == s.listings
  {
    SameJobsAndListingsKeep(text, s, FillColumns(s, c, fill));
  }

  /** Updating listing rows in place, keeping their identity, disturbs nothing. */
  lemma SameListingsKeep(text: Text, s: Store, t: Store)
    requires Consistent(text, s)
    requires t.companies == s.companies && t.jobs == s.jobs && |t.listings| == |s.listings|
    requires forall i :: 0 <= i < |s.listings| ==> SameIdentity(s.listings[i], t.listings[i])
    ensures Consistent(text, t) && Extends(s, t)
  {
    forall i: nat, j: nat ensures IsPrimaryOf(t, i, j) <==> IsPrimaryOf(s, i, j) {
      if i < |s.listings| { assert SameIdentity(s.listings[i], t.listings[i]); }
    }
    SamePrimaries(s, t);
    forall i, k | 0 <= i < k < |t.listings| && t.listings[i].externalId.Some?
      ensures !(t.listings[i].sourceId == t.listings[k].sourceId
                && t.listings[i].externalId == t.listings[k].externalId)
    {
      assert SameIdentity(s.listings[i], t.listings[i]) && SameIdentity(s.listings[k], t.listings[k]);
    }
    forall i | 0 <= i < |t.listings| ensures t.listings[i].jobId < |t.jobs| {
      assert SameIdentity(s.listings[i], t.listings[i]);
    }
    forall j | 0 <= j < |t.jobs| ensures JobResolved(text, t, t.jobs[j]) {
      assert JobResolved(text, s, s.jobs[j]);
    }
  }

  lemma RefreshListingKeeps(text: Text, s: Store, i: nat, item: Item)
    requires Consistent(text, s)
    ensures Consistent(text, RefreshListing(s, i, item)) && Extends(s, RefreshListing(s, i, item))
  {
    SameListingsKeep(text, s, RefreshListing(s, i, item));
  }

  /** The unique index, which refuses a second row under a non-null (source, externalId). */
  ghost predicate KeyFree(s: Store, source: nat, externalId: Option<string>) {
    externalId.Some? ==> FindListing(s, source, externalId.value).None?
  }

  lemma AppendListingKeeps(text: Text, s: Store, job: nat, source: nat, item: Item)
    requires Consistent(text, s) && job < |s.jobs| && KeyFree(s, source, item.externalId)
    ensures Consistent(text, AppendListing(s, job, source, item)) && Extends(s, AppendListing(s, job, source, item))
  {
    var t := AppendListing(s, job, source, item);
    forall i: nat, j: nat ensures IsPrimaryOf(t, i, j) <==> IsPrimaryOf(s, i, j) {}
    SamePrimaries(s, t);
    forall j | 0 <= j < |t.jobs| ensures JobResolved(text, t, t.jobs[j]) {
      assert JobResolved(text, s, s.jobs[j]);
    }
  }

  lemma UpsertListingKeeps(text: Text, s: Store, job: nat, source: nat, item: Item)
    requires Consistent(text, s) && job < |s.jobs|
    ensures Consistent(text, UpsertListing(s, job, source, item)) && Extends(s, UpsertListing(s, job, source, item))
    ensures UpsertListing(s, job, source, item).jobs == s.jobs
    ensures item.externalId.Some? ==>
              FindListing(UpsertListing(s, job, source, item), source, item.externalId.value).Some?
  {
    var found :=
      if item.externalId.Some? then FindListing(s, source, item.externalId.value)
      else FindUnkeyedListing(s, job, source, item.canonicalUrl);
    var t := UpsertListing(s, job, source, item);
    if found.Some? {
      RefreshListingKeeps(text, s, found.value, item);
    } else {
      AppendListingKeeps(text, s, job, source, item);
      assert t.listings[|s.listings|].sourceId == source && t.listings[|s.listings|].externalId == item.externalId;
    }
  }

  lemma CreateJobKeeps(text: Text, s: Store, item: Item, source: nat, company: nat, duplicateOf: Option<nat>)
    requires Consistent(text, s)
    requires company < |s.companies| && s.companies[company].key == KeyOf(text, item.companyName)
    requires duplicateOf.Some? ==>
               duplicateOf.value < |s.jobs| && s.jobs[duplicateOf.value].companyId == Some(company)
    ensures var (t, id) := CreateJob(s, item, source, Some(company), duplicateOf);
            Consistent(text, t) && Extends(s, t)
            && (item.externalId.Some? ==> FindListing(t, source, item.externalId.value).Some?)
  {
    var (t, id) := CreateJob(s, item, source, Some(company), duplicateOf);
    if id.Some? {
      forall i: nat, j: nat
        ensures IsPrimaryOf(t, i, j) <==> IsPrimaryOf(s, i, j) || (i == |s.listings| && j == |s.jobs|) {}
      forall i: nat ensures !IsPrimaryOf(s, i, |s.jobs|) {}
      forall j: nat | j < |t.jobs| ensures HasPrimary(t, j) {
        if j < |s.jobs| {
          assert HasPrimary(s, j);
          var i: nat :| IsPrimaryOf(s, i, j);
          assert IsPrimaryOf(t, i, j);
        } else {
          assert IsPrimaryOf(t, |s.listings|, |s.jobs|);
        }
      }
      forall j | 0 <= j < |t.jobs| ensures JobResolved(text, t, t.jobs[j]) {
        if j < |s.jobs| { assert JobResolved(text, s, s.jobs[j]); }
      }
      assert t.listings[|s.listings|].sourceId == source && t.listings[|s.listings|].externalId == item.externalId;
    }
  }

  lemma NoLiveJobs(jobs: seq<Job>, company: nat)
    requires forall j :: 0 <= j < |jobs| ==> !LiveAt(jobs[j], company)
    ensures LiveJobs(jobs, company) == []
  {
  }

  lemma UnusedCompanyHasNoJobs(text: Text, s: Store, company: nat)
    requires JobsResolved(text, s) && company >= |s.companies|
    ensures LiveJobs(s.jobs, company) == []
  {
    forall j | 0 <= j < |s.jobs| ensures !LiveAt(s.jobs[j], company) {
      assert JobResolved(text, s, s.jobs[j]);
    }
    NoLiveJobs(s.jobs, company);
  }

  // ----- consequences -----

  /** Following near-duplicate links ends, at an unlinked job of the same company. */
  function LinkRoot(s: Store, j: nat): (root: nat)
    requires LinksGoBack(s) && j < |s.jobs|
    ensures root <= j && s.jobs[root].duplicateOf.None? && s.jobs[root].companyId == s.jobs[j].companyId
  {
    if s.jobs[j].duplicateOf.None? then j else LinkRoot(s, s.jobs[j].duplicateOf.value)
  }

  /** No path of links returns to where it started. */
  lemma {:induction false} LinksHaveNoCycle(s: Store, path: seq<nat>)
    requires LinksGoBack(s) && |path| > 1
    requires forall k :: 0 <= k < |path| ==> path[k] < |s.jobs|
    requires forall k :: 0 <= k < |path| - 1 ==> s.jobs[path[k]].duplicateOf == Some(path[k + 1])
    ensures path[|path| - 1] < path[0]
    decreases |path|
  {
    assert s.jobs[path[0]].duplicateOf == Some(path[1]);
    if |path| > 2 {
      var rest := path[1..];
      forall k | 0 <= k < |rest| - 1 ensures s.jobs[rest[k]].duplicateOf == Some(rest[k + 1]) {
        assert s.jobs[path[k + 1]].duplicateOf == Some(path[k + 2]);
      }
      LinksHaveNoCycle(s, rest);
    }
  }

  /** The tables, updated in place by one method per repository call. */
  class Database {
    var companies: seq<Company>
    var jobs: seq<Job>
    var listings: seq<Listing>
    const sources: map<string, nat>

    constructor (sources: map<string, nat>)
      ensures View() == Store([], [], []) && this.sources == sources
    {
      this.sources := sources;
      companies, jobs, listings := [], [], [];
    }

    function View(): Store
      reads this
    {
      Store(companies, jobs, listings)
    }

    method UpsertByNormalizedName(text: Text, name: string, metadata: Option<Columns>) returns (id: nat)
      modifies this
      ensures id == UpsertCompany(text, old(View()), name).1
      ensures var t := UpsertCompany(text, old(View()), name).0;
              View() == FillColumns(t, id, MissingColumns(t.companies[id], metadata))
    {
      var found := FindCompany(View(), KeyOf(text, name));
      if found.Some? {
        id := found.value;
      } else {
        id := |companies|;
        companies := companies + [Company(name, KeyOf(text, name), map[])];
      }
      if metadata.Some? {
        var fill := MissingColumns(companies[id], metadata);
        if fill != map[] {
          companies := companies[id := companies[id].(columns := companies[id].columns + fill)];
        }
      }
    }

    method Refresh(i: nat, item: Item)
      requires i < |listings|
      modifies this
      ensures View() == RefreshListing(old(View()), i, item)
    {
      listings := listings[i := listings[i].(
        sourceUrl := item.Url(), canonicalUrl := item.canonicalUrl, postedAt := item.posting.postedAt)];
    }

    method Upsert(job: nat, source: nat, item: Item)
      modifies this
      ensures View() == UpsertListing(old(View()), job, source, item)
    {
      var found;
      if item.externalId.Some? {
        found := FindListing(View(), source, item.externalId.value);
      } else {
        found := FindUnkeyedListing(View(), job, source, item.canonicalUrl);
      }
      if found.Some? {
        Refresh(found.value, item);
      } else {
        listings := listings + [NewListing(job, source, item, false)];
      }
    }

    /** Inserts both rows or, when the unique index refuses the listing, neither. */
    method CreateFromNormalized(item: Item, source: nat, company: nat, duplicateOf: Option<nat>)
      returns (id: Option<nat>)
      modifies this
      ensures (View(), id) == CreateJob(old(View()), item, source, Some(company), duplicateOf)
    {
      if item.externalId.Some? && FindListing(View(), source, item.externalId.value).Some? {
        return None;
      }
      id := Some(|jobs|);
      jobs := jobs + [Job(item.externalId, source, item.canonicalUrl, item.posting, Some(company), item.companyName,
                          item.contentHash, duplicateOf, false)];
      listings := listings + [NewListing(id.value, source, item, true)];
    }
  }
}
