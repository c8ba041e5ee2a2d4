/** Where an item goes: the Job its listing belongs to, what the listing and a new Job say, and what stays as it was.
    Everything is stated about rows before and after, item by item and then for batches. */
module Placement {
  import opened Prelude
  import opened JobIdentity
  import opened DuplicateDetection
  import opened JobStore
  import opened Deduplication

  // ----- the Job an item belongs to -----

  predicate HasHash(job: Job, hash: string) {
    !job.deleted && job.contentHash == hash
  }

  predicate HasUrl(job: Job, url: Option<string>) {
    !job.deleted && url.Some? && job.canonicalUrl == url
  }

  /** The first live Job with the item's content; without one, the first with its URL. */
  ghost predicate SameJob(s: Store, item: Item, j: nat) {
    j < |s.jobs|
    && ((HasHash(s.jobs[j], item.contentHash) && forall i :: 0 <= i < j ==> !HasHash(s.jobs[i], item.contentHash))
        || (NoJobWithHash(s, item)
            && HasUrl(s.jobs[j], item.canonicalUrl) && forall i :: 0 <= i < j ==> !HasUrl(s.jobs[i], item.canonicalUrl)))
  }

  ghost predicate NoJobWithHash(s: Store, item: Item) {
    forall i :: 0 <= i < |s.jobs| ==> !HasHash(s.jobs[i], item.contentHash)
  }

  ghost predicate NoSameJob(s: Store, item: Item) {
    NoJobWithHash(s, item) && forall i :: 0 <= i < |s.jobs| ==> !HasUrl(s.jobs[i], item.canonicalUrl)
  }

  /** The Jobs the fuzzy decision looks at: none when the company is unknown. */
  function Pool(cfg: Config, s: Store, item: Item): (r: seq<Candidate>)
    ensures forall k :: 0 <= k < |r| ==> r[k].id < |s.jobs| && r[k].posting == s.jobs[r[k].id].posting
  {
    match FindCompany(s, KeyOf(cfg.text, item.companyName))
    case None => []
    case Some(c) => AsCandidates(s, CandidateIds(s, c, cfg.settings.maxCandidates))
  }

  function PoolScores(cfg: Config, s: Store, item: Item): (r: seq<real>)
    ensures |r| == |Pool(cfg, s, item)|
  {
    GatedScores(cfg.text, cfg.settings, item.posting, Pool(cfg, s, item))
  }

  /** The first of the candidates that score highest is this Job, and reaches the merge threshold. */
  ghost predicate MergedWith(cfg: Config, s: Store, item: Item, j: nat) {
    exists k: nat :: IsFirstMaximum(PoolScores(cfg, s, item), k) && Pool(cfg, s, item)[k].id == j
                     && PoolScores(cfg, s, item)[k] >= cfg.settings.autoMerge
  }

  /** It is this Job, and its score lies in the link band. */
  ghost predicate LinkedTo(cfg: Config, s: Store, item: Item, j: nat) {
    exists k: nat :: IsFirstMaximum(PoolScores(cfg, s, item), k) && Pool(cfg, s, item)[k].id == j
                     && cfg.settings.link <= PoolScores(cfg, s, item)[k] < cfg.settings.autoMerge
  }

  predicate HasKey(l: Listing, item: Item, source: nat) {
    item.externalId.Some? && l.sourceId == source && l.externalId == item.externalId
  }

  ghost predicate KeyNew(s: Store, item: Item, source: nat) {
    forall i :: 0 <= i < |s.listings| ==> !HasKey(s.listings[i], item, source)
  }

  /** The Job an item belongs to: the one its listing key already has, the one with its content or URL, the one it is
      merged with; otherwise one of its own. */
  ghost predicate Home(cfg: Config, s: Store, item: Item, source: nat, j: nat) {
    (exists i :: 0 <= i < |s.listings| && HasKey(s.listings[i], item, source) && s.listings[i].jobId == j)
    || (KeyNew(s, item, source)
        && (SameJob(s, item, j)
            || (NoSameJob(s, item)
                && (MergedWith(cfg, s, item, j) || (j == |s.jobs| && !MergesInto(cfg, s, item))))))
  }

  /** What a listing of the item says. */
  predicate Says(l: Listing, item: Item, source: nat) {
    l.sourceId == source && (item.externalId.Some? ==> l.externalId == item.externalId)
    && l.canonicalUrl == item.canonicalUrl && l.sourceUrl == item.Url() && l.postedAt == item.posting.postedAt
  }

  /** At most one listing is rewritten, keeping its Job, key and rank, or one is added. */
  ghost predicate OneListing(s: Store, t: Store, at: nat) {
    ((|t.listings| == |s.listings| && at < |s.listings| && SameIdentity(s.listings[at], t.listings[at]))
     || (|t.listings| == |s.listings| + 1 && at == |s.listings|))
    && forall i :: 0 <= i < |s.listings| && i != at ==> t.listings[i] == s.listings[i]
  }

  // ----- lookups -----

  lemma KeyFound(s: Store, item: Item, source: nat)
    ensures ListingKnown(s, item, source) <==> !KeyNew(s, item, source)
  {
    if item.externalId.Some? {
      var found := FindListing(s, source, item.externalId.value);
      if found.Some? { assert HasKey(s.listings[found.value], item, source); }
    }
  }

  lemma OneKey(s: Store, item: Item, source: nat, i: nat)
    requires KeysUnique(s) && i < |s.listings| && HasKey(s.listings[i], item, source)
    ensures FindListing(s, source, item.externalId.value) == Some(i)
  {
  }

  lemma ExistingIsSameJob(s: Store, item: Item)
    ensures FindExisting(s, item).None? <==> NoSameJob(s, item)
    ensures forall j: nat :: FindExisting(s, item) == Some(j) <==> SameJob(s, item, j)
  {
    var byHash := FindByContentHash(s, item.contentHash);
    if byHash.Some? {
      FirstHash(s, item);
    } else if item.canonicalUrl.Some? {
      FirstUrl(s, item);
    }
  }

  lemma FirstHash(s: Store, item: Item)
    requires FindByContentHash(s, item.contentHash).Some?
    ensures forall j: nat :: FindByContentHash(s, item.contentHash) == Some(j) <==> SameJob(s, item, j)
    ensures !NoJobWithHash(s, item)
  {
    var k := FindByContentHash(s, item.contentHash).value;
    assert HasHash(s.jobs[k], item.contentHash);
    forall i | 0 <= i < k ensures !HasHash(s.jobs[i], item.contentHash) {}
  }

  lemma FirstUrl(s: Store, item: Item)
    requires NoJobWithHash(s, item) && item.canonicalUrl.Some?
    ensures forall j: nat :: FindByCanonicalUrl(s, item.canonicalUrl.value) == Some(j) <==> SameJob(s, item, j)
  {
    var found := FindByCanonicalUrl(s, item.canonicalUrl.value);
    if found.Some? {
      assert HasUrl(s.jobs[found.value], item.canonicalUrl);
      forall i | 0 <= i < found.value ensures !HasUrl(s.jobs[i], item.canonicalUrl) {}
    }
  }

  /** The fuzzy decision is taken over the pool, although the company row may only just have been created. */
  lemma DecidedOverPool(cfg: Config, s: Store, item: Item)
    requires Consistent(cfg.text, s)
    ensures var (u, company) := ResolveCompany(cfg.text, s, item);
            DecideFor(cfg, u, item, company) == Decide(cfg.text, cfg.settings, item.posting, Pool(cfg, s, item))
  {
    var (u, company) := ResolveCompany(cfg.text, s, item);
    ResolveCompanyKeeps(cfg.text, s, item);
    if FindCompany(s, KeyOf(cfg.text, item.companyName)).None? {
      NoCandidatesNoMerge(cfg, u, item, company);
    } else {
      SameJobsSameDecision(cfg, s, u, item, company);
    }
  }

  lemma DecisionMeans(cfg: Config, s: Store, item: Item)
    ensures var d := Decide(cfg.text, cfg.settings, item.posting, Pool(cfg, s, item));
            (forall j: nat :: d.Duplicate? && d.id == j <==> MergedWith(cfg, s, item, j))
            && (forall j: nat :: d.NearDuplicate? && d.id == j <==> LinkedTo(cfg, s, item, j))
  {
    var d := Decide(cfg.text, cfg.settings, item.posting, Pool(cfg, s, item));
    forall j: nat
      ensures d.Duplicate? && d.id == j <==> MergedWith(cfg, s, item, j)
      ensures d.NearDuplicate? && d.id == j <==> LinkedTo(cfg, s, item, j)
    {
      DecisionIff(cfg.text, cfg.settings, item.posting, Pool(cfg, s, item), j);
    }
  }

  // ----- one item -----

  /** The item's listing after it was persisted: of which Job, and whether it is the Job's first. */
  ghost predicate Lands(s: Store, t: Store, item: Item, source: nat, at: nat, j: nat) {
    OneListing(s, t, at) && Says(t.listings[at], item, source) && t.listings[at].jobId == j
    && (at == |s.listings| ==>
          (t.listings[at].isPrimary <==> j == |s.jobs|) && t.listings[at].externalId == item.externalId)
    && (at < |s.listings| <==> OnFile(s, item, source, j))
  }

  /** The listing is there already: under the item's key, or, for an item without one, of the same Job, source and
      URL. */
  ghost predicate OnFile(s: Store, item: Item, source: nat, j: nat) {
    if item.externalId.Some? then !KeyNew(s, item, source)
    else exists i :: 0 <= i < |s.listings| && SamePlace(s.listings[i], item, source, j)
  }

  predicate SamePlace(l: Listing, item: Item, source: nat, j: nat) {
    l.jobId == j && l.sourceId == source && l.canonicalUrl == item.canonicalUrl
  }

  lemma RefreshedListing(s: Store, item: Item, source: nat, i: nat)
    requires i < |s.listings| && s.listings[i].sourceId == source
    requires if item.externalId.Some? then s.listings[i].externalId == item.externalId
             else s.listings[i].canonicalUrl == item.canonicalUrl
    ensures Lands(s, RefreshListing(s, i, item), item, source, i, s.listings[i].jobId)
    ensures RefreshListing(s, i, item).jobs == s.jobs && RefreshListing(s, i, item).companies == s.companies
  {
    assert item.externalId.Some? ==> HasKey(s.listings[i], item, source);
    assert item.externalId.None? ==> SamePlace(s.listings[i], item, source, s.listings[i].jobId);
  }

  lemma AttachedListing(s: Store, item: Item, source: nat, job: nat) returns (at: nat)
    requires KeyNew(s, item, source) && job < |s.jobs|
    ensures Lands(s, UpsertListing(s, job, source, item), item, source, at, job)
    ensures UpsertListing(s, job, source, item).jobs == s.jobs
    ensures UpsertListing(s, job, source, item).companies == s.companies
  {
    KeyFound(s, item, source);
    var found := if item.externalId.Some? then None else FindUnkeyedListing(s, job, source, item.canonicalUrl);
    if found.Some? {
      at := found.value;
      assert s.listings[at].jobId == job && s.listings[at].sourceId == source;
      RefreshedListing(s, item, source, at);
    } else {
      at := |s.listings|;
      assert forall i :: 0 <= i < |s.listings| ==> item.externalId.Some? || !SamePlace(s.listings[i], item, source, job);
    }
  }

  lemma SameRowsSameHome(cfg: Config, s: Store, u: Store, item: Item, source: nat)
    requires u.jobs == s.jobs && u.listings == s.listings
    ensures KeyNew(u, item, source) == KeyNew(s, item, source)
    ensures NoSameJob(u, item) == NoSameJob(s, item)
    ensures forall j: nat :: SameJob(u, item, j) == SameJob(s, item, j)
  {
  }

  lemma NotMerged(cfg: Config, s: Store, item: Item)
    requires Consistent(cfg.text, s)
    ensures MergesInto(cfg, s, item) <==>
            Decide(cfg.text, cfg.settings, item.posting, Pool(cfg, s, item)).Duplicate?
  {
    DecidedOverPool(cfg, s, item);
    ResolvedVerdict(cfg, s, item);
  }

  lemma CreatedListing(s: Store, item: Item, source: nat, company: nat, link: Option<nat>)
    requires KeyNew(s, item, source) && ListingsPointAtJobs(s)
    ensures var (t, created) := CreateJob(s, item, source, Some(company), link);
            Lands(s, t, item, source, |s.listings|, |s.jobs|) && created == Some(|s.jobs|)
  {
    KeyFound(s, item, source);
  }

  lemma KnownListing(s: Store, item: Item, source: nat) returns (at: nat)
    requires ListingKnown(s, item, source)
    ensures FindListing(s, source, item.externalId.value) == Some(at) && HasKey(s.listings[at], item, source)
    ensures Lands(s, RefreshListing(s, at, item), item, source, at, s.listings[at].jobId)
  {
    at := FindListing(s, source, item.externalId.value).value;
    RefreshedListing(s, item, source, at);
  }

  /** The same, once the company is known and the decision taken. */
  ghost predicate HomeAt(cfg: Config, s: Store, item: Item, source: nat, company: nat, j: nat) {
    (exists i :: 0 <= i < |s.listings| && HasKey(s.listings[i], item, source) && s.listings[i].jobId == j)
    || (KeyNew(s, item, source)
        && (SameJob(s, item, j)
            || (NoSameJob(s, item)
                && var d := DecideFor(cfg, s, item, company); j == if d.Duplicate? then d.id else |s.jobs|)))
  }

  lemma PlaceLands(cfg: Config, s: Store, item: Item, source: nat, company: nat) returns (at: nat, j: nat)
    requires ListingsPointAtJobs(s)
    ensures var (t, created) := Place(cfg, s, item, source, company);
            Lands(s, t, item, source, at, j) && HomeAt(cfg, s, item, source, company, j)
            && created == if j == |s.jobs| then Some(j) else None
  {
    KeyFound(s, item, source);
    ExistingIsSameJob(s, item);
    if ListingKnown(s, item, source) {
      at := KnownListing(s, item, source);
      j := s.listings[at].jobId;
    } else if FindExisting(s, item).Some? {
      j := FindExisting(s, item).value;
      at := AttachedListing(s, item, source, j);
    } else {
      at, j := DecisionLands(cfg, s, item, source, company);
    }
  }

  lemma DecisionLands(cfg: Config, s: Store, item: Item, source: nat, company: nat) returns (at: nat, j: nat)
    requires ListingsPointAtJobs(s) && KeyNew(s, item, source) && FindExisting(s, item).None?
    ensures var (t, created) := Place(cfg, s, item, source, company);
            Lands(s, t, item, source, at, j) && created == (if j == |s.jobs| then Some(j) else None)
            && var d := DecideFor(cfg, s, item, company); j == if d.Duplicate? then d.id else |s.jobs|
  {
    KeyFound(s, item, source);
    match DecideFor(cfg, s, item, company) {
      case Duplicate(id, _) =>
        j := id;
        at := AttachedListing(s, item, source, j);
      case NearDuplicate(id, _) =>
        at, j := |s.listings|, |s.jobs|;
        CreatedListing(s, item, source, company, Some(id));
      case Distinct(_) =>
        at, j := |s.listings|, |s.jobs|;
        CreatedListing(s, item, source, company, None);
    }
  }

  lemma ResolvedHome(cfg: Config, s: Store, item: Item, source: nat, j: nat)
    requires Consistent(cfg.text, s)
    requires var (u, company) := ResolveCompany(cfg.text, s, item);
             HomeAt(cfg, u, item, source, company, j)
    ensures Home(cfg, s, item, source, j)
  {
    var (u, company) := ResolveCompany(cfg.text, s, item);
    SameRowsSameHome(cfg, s, u, item, source);
    DecidedOverPool(cfg, s, item);
    DecisionMeans(cfg, s, item);
    NotMerged(cfg, s, item);
    if i :| 0 <= i < |u.listings| && HasKey(u.listings[i], item, source) && u.listings[i].jobId == j {
      assert HasKey(s.listings[i], item, source);
    }
  }

  lemma SameRowsLand(s: Store, u: Store, t: Store, item: Item, source: nat, at: nat, j: nat)
    requires u.jobs == s.jobs && u.listings == s.listings && Lands(u, t, item, source, at, j)
    ensures Lands(s, t, item, source, at, j)
  {
  }

  /** Every item ends up with one listing that says what the item says and belongs to the item's Job; a Job is created
      exactly when that is a Job of its own. */
  lemma ItemLands(cfg: Config, s: Store, item: Item, source: nat) returns (at: nat, j: nat)
    requires Consistent(cfg.text, s)
    ensures var (t, created) := Persist(cfg, s, item, source);
            Lands(s, t, item, source, at, j) && Home(cfg, s, item, source, j)
            && created == if j == |s.jobs| then Some(j) else None
  {
    var (u, company) := ResolveCompany(cfg.text, s, item);
    at, j := PlaceLands(cfg, u, item, source, company);
    ResolvedHome(cfg, s, item, source, j);
    SameRowsLand(s, u, Place(cfg, u, item, source, company).0, item, source, at, j);
  }

  /** An item belongs to one Job only. */
  lemma HomeIsUnique(cfg: Config, s: Store, item: Item, source: nat, j: nat, k: nat)
    requires Consistent(cfg.text, s) && Home(cfg, s, item, source, j) && Home(cfg, s, item, source, k)
    ensures j == k
  {
    DecisionMeans(cfg, s, item);
    NotMerged(cfg, s, item);
    if !KeyNew(s, item, source) {
      var i :| 0 <= i < |s.listings| && HasKey(s.listings[i], item, source) && s.listings[i].jobId == j;
      var m :| 0 <= m < |s.listings| && HasKey(s.listings[m], item, source) && s.listings[m].jobId == k;
      OneKey(s, item, source, i);
      OneKey(s, item, source, m);
    } else if !NoSameJob(s, item) {
      ExistingIsSameJob(s, item);
    }
  }

  /** The row of a Job that `item` brought to the store `s`, seen in a later store `t`. */
  ghost predicate Carries(cfg: Config, s: Store, t: Store, job: Job, item: Item, source: nat) {
    job.externalId == item.externalId && job.sourceId == source && job.canonicalUrl == item.canonicalUrl
    && job.posting == item.posting && job.contentHash == item.contentHash
    && job.companyName == item.companyName && !job.deleted
    && job.companyId.Some? && job.companyId.value < |t.companies|
    && t.companies[job.companyId.value].key == KeyOf(cfg.text, item.companyName)
    && forall k: nat :: job.duplicateOf == Some(k) <==> LinkedTo(cfg, s, item, k)
  }

  /** A new Job carries the item's content and company, and is linked to a Job exactly when that is the closest
      candidate and its score lies in the link band; no Job that was there changes. */
  lemma NewJobCarriesItem(cfg: Config, s: Store, item: Item, source: nat)
    requires Consistent(cfg.text, s) && Persist(cfg, s, item, source).1.Some?
    ensures var t := Persist(cfg, s, item, source).0;
            |t.jobs| == |s.jobs| + 1 && t.jobs[..|s.jobs|] == s.jobs
            && Carries(cfg, s, t, t.jobs[|s.jobs|], item, source)
  {
    var (u, company) := ResolveCompany(cfg.text, s, item);
    DecidedOverPool(cfg, s, item);
    DecisionMeans(cfg, s, item);
    ResolveCompanyKeeps(cfg.text, s, item);
    PlacedJob(cfg, u, item, source, company);
  }

  lemma PlacedJob(cfg: Config, s: Store, item: Item, source: nat, company: nat)
    requires Place(cfg, s, item, source, company).1.Some?
    ensures var t := Place(cfg, s, item, source, company).0;
            var d := DecideFor(cfg, s, item, company);
            var link := if d.NearDuplicate? then Some(d.id) else None;
            t.companies == s.companies
            && t.jobs == s.jobs + [Job(item.externalId, source, item.canonicalUrl, item.posting, Some(company),
                                       item.companyName, item.contentHash, link, false)]
  {
  }

  /** What the rows of companies become: the row of the key is found or added under its name, and only its missing
      columns are filled. */
  ghost predicate Filled(was: seq<Company>, now: seq<Company>, key: seq<string>, name: string, told: Columns) {
    |was| <= |now| <= |was| + 1
    && (|now| > |was| <==> forall c :: 0 <= c < |was| ==> was[c].key != key)
    && (forall c :: 0 <= c < |was| && was[c].key != key ==> now[c] == was[c])
    && forall c :: 0 <= c < |now| && now[c].key == key ==>
         now[c].name == (if c < |was| then was[c].name else name)
         && ColumnsFilled(if c < |was| then was[c].columns else map[], now[c].columns, told)
  }

  predicate ColumnsFilled(had: Columns, has: Columns, told: Columns) {
    has.Keys == had.Keys + told.Keys
    && (forall k | k in had :: has[k] == had[k])
    && (forall k | k in told && k !in had :: has[k] == told[k])
  }

  /** The item's company: one row, whose columns the item only fills where they were missing; others stay. */
  lemma CompanyIsFilled(cfg: Config, s: Store, item: Item, source: nat)
    requires Consistent(cfg.text, s)
    ensures Filled(s.companies, Persist(cfg, s, item, source).0.companies, KeyOf(cfg.text, item.companyName),
                   item.companyName, if item.metadata.Some? then item.metadata.value else map[])
  {
    var (u, company) := ResolveCompany(cfg.text, s, item);
    PlacingLeavesCompanies(cfg, u, item, source, company);
    ResolvedIsFilled(cfg.text, s, item);
  }

  lemma ResolvedIsFilled(text: Text, s: Store, item: Item)
    requires Consistent(text, s)
    ensures Filled(s.companies, ResolveCompany(text, s, item).0.companies, KeyOf(text, item.companyName),
                   item.companyName, if item.metadata.Some? then item.metadata.value else map[])
  {
    var (t, c) := UpsertCompany(text, s, item.companyName);
    MissingColumnsFill(t.companies[c], item.metadata);
    UpsertCompanyRows(text, s, item.companyName);
  }

  lemma MissingColumnsFill(row: Company, metadata: Option<Columns>)
    ensures ColumnsFilled(row.columns, row.columns + MissingColumns(row, metadata),
                          if metadata.Some? then metadata.value else map[])
    ensures MissingColumns(row, metadata) == map[] ==> row.columns + MissingColumns(row, metadata) == row.columns
  {
  }

  lemma PlacingLeavesCompanies(cfg: Config, s: Store, item: Item, source: nat, company: nat)
    ensures Place(cfg, s, item, source, company).0.companies == s.companies
  {
  }

  // ----- a batch -----

  /** The store an item of a batch meets. */
  function Before(cfg: Config, sources: map<string, nat>, s: Store, batch: seq<Item>, p: nat): Store
    requires p <= |batch|
  {
    PersistAll(cfg, sources, s, batch[..p]).0
  }

  /** What comes before an item does not depend on what follows it, and the last item is a turn on what precedes it. */
  lemma BeforeLast(cfg: Config, sources: map<string, nat>, s: Store, batch: seq<Item>, p: nat)
    requires Consistent(cfg.text, s) && p < |batch|
    ensures Before(cfg, sources, s, batch[..|batch| - 1], p) == Before(cfg, sources, s, batch, p)
    ensures Consistent(cfg.text, Before(cfg, sources, s, batch, p))
  {
    assert batch[..|batch| - 1][..p] == batch[..p];
    BatchEffect(cfg, sources, s, batch[..p]);
  }

  /** The store an item leaves, if its source is known. */
  function AfterItem(cfg: Config, sources: map<string, nat>, s: Store, item: Item): Store {
    if item.sourceName in sources then Persist(cfg, s, item, sources[item.sourceName]).0 else s
  }

  lemma LastItem(cfg: Config, sources: map<string, nat>, s: Store, batch: seq<Item>)
    requires Consistent(cfg.text, s) && batch != []
    ensures var n := |batch| - 1;
            var u := Before(cfg, sources, s, batch, n);
            Consistent(cfg.text, u) && Before(cfg, sources, s, batch[..n], n) == u
            && Before(cfg, sources, s, batch, |batch|) == AfterItem(cfg, sources, u, batch[n])
  {
    var n := |batch| - 1;
    assert batch[..|batch|] == batch && batch[..n][..n] == batch[..n];
    BatchEffect(cfg, sources, s, batch[..n]);
  }

  /** A later item that could rewrite the listing of this keyed one: of its source, with its key or without any. */
  predicate Rewrites(later: Item, item: Item) {
    later.sourceName == item.sourceName && (later.externalId == item.externalId || later.externalId.None?)
  }

  /** The listing of an item is still there, of the same Job. */
  predicate Shows(t: Store, item: Item, source: nat, at: nat, j: nat) {
    at < |t.listings| && t.listings[at].jobId == j && t.listings[at].sourceId == source
    && (item.externalId.Some? ==> t.listings[at].externalId == item.externalId)
  }

  /** No two names for one source. */
  predicate Injective(sources: map<string, nat>) {
    forall a, b :: a in sources && b in sources && sources[a] == sources[b] ==> a == b
  }

  /** After a batch every item has its listing at the Job it belonged to when its turn came; a keyed item's listing says
      what the item said, unless a later item rewrote it. */
  lemma {:induction false} BatchLands(cfg: Config, sources: map<string, nat>, s: Store, batch: seq<Item>, p: nat)
    returns (at: nat, j: nat)
    requires Consistent(cfg.text, s) && p < |batch| && batch[p].sourceName in sources
    ensures Home(cfg, Before(cfg, sources, s, batch, p), batch[p], sources[batch[p].sourceName], j)
    ensures Shows(Before(cfg, sources, s, batch, |batch|), batch[p], sources[batch[p].sourceName], at, j)
    ensures Injective(sources) && batch[p].externalId.Some?
            && (forall q :: p < q < |batch| ==> !Rewrites(batch[q], batch[p])) ==>
              Says(Before(cfg, sources, s, batch, |batch|).listings[at], batch[p], sources[batch[p].sourceName])
    decreases |batch|
  {
    var n := |batch| - 1;
    BeforeLast(cfg, sources, s, batch, p);
    LastItem(cfg, sources, s, batch);
    var u := Before(cfg, sources, s, batch, n);
    if p == n {
      at, j := ItemLands(cfg, u, batch[p], sources[batch[p].sourceName]);
    } else {
      at, j := BatchLands(cfg, sources, s, batch[..n], p);
      LaterItem(cfg, sources, u, batch[n], batch[p], at, j);
    }
  }

  lemma LaterItem(cfg: Config, sources: map<string, nat>, t: Store, later: Item, item: Item, at: nat, j: nat)
    requires Consistent(cfg.text, t) && item.sourceName in sources
    requires Shows(t, item, sources[item.sourceName], at, j)
    ensures Shows(AfterItem(cfg, sources, t, later), item, sources[item.sourceName], at, j)
    ensures Injective(sources) && item.externalId.Some? && !Rewrites(later, item)
            && Says(t.listings[at], item, sources[item.sourceName]) ==>
              Says(AfterItem(cfg, sources, t, later).listings[at], item, sources[item.sourceName])
  {
    if later.sourceName in sources {
      var u := AfterItem(cfg, sources, t, later);
      var hit, k := ItemLands(cfg, t, later, sources[later.sourceName]);
      if at != hit { assert u.listings[at] == t.listings[at]; }
    }
  }

  /** The item that brought a Job. */
  ghost predicate Brought(cfg: Config, sources: map<string, nat>, s: Store, batch: seq<Item>, p: nat, id: nat) {
    p < |batch| && Brings(cfg, sources, Before(cfg, sources, s, batch, p), batch[p], id)
  }

  predicate Brings(cfg: Config, sources: map<string, nat>, s: Store, item: Item, id: nat) {
    item.sourceName in sources && Persist(cfg, s, item, sources[item.sourceName]).1 == Some(id)
  }

  lemma ItemExtends(cfg: Config, sources: map<string, nat>, s: Store, item: Item)
    requires Consistent(cfg.text, s)
    ensures Extends(s, AfterItem(cfg, sources, s, item))
  {
    if item.sourceName in sources { PersistEffect(cfg, s, item, sources[item.sourceName]); }
  }

  lemma {:induction false} NewJobWasBrought(
    cfg: Config, sources: map<string, nat>, s: Store, batch: seq<Item>, id: nat) returns (p: nat)
    requires Consistent(cfg.text, s) && |s.jobs| <= id < |Before(cfg, sources, s, batch, |batch|).jobs|
    ensures Brought(cfg, sources, s, batch, p, id)
    decreases |batch|
  {
    var n := |batch| - 1;
    LastItem(cfg, sources, s, batch);
    if id < |Before(cfg, sources, s, batch, n).jobs| {
      p := NewJobWasBrought(cfg, sources, s, batch[..n], id);
      BroughtEarlier(cfg, sources, s, batch, p, id);
    } else {
      p := n;
      NewIsBrought(cfg, sources, Before(cfg, sources, s, batch, n), batch[n], id);
    }
  }

  lemma BroughtEarlier(cfg: Config, sources: map<string, nat>, s: Store, batch: seq<Item>, p: nat, id: nat)
    requires Consistent(cfg.text, s) && batch != [] && Brought(cfg, sources, s, batch[..|batch| - 1], p, id)
    ensures Brought(cfg, sources, s, batch, p, id)
  {
    BeforeLast(cfg, sources, s, batch, p);
  }

  lemma NewIsBrought(cfg: Config, sources: map<string, nat>, s: Store, item: Item, id: nat)
    requires Consistent(cfg.text, s) && |s.jobs| <= id < |AfterItem(cfg, sources, s, item).jobs|
    ensures Brings(cfg, sources, s, item, id)
  {
    var (t, created) := Persist(cfg, s, item, sources[item.sourceName]);
    PersistEffect(cfg, s, item, sources[item.sourceName]);
    NewId(s, t, item, created, id);
  }

  lemma NewId(s: Store, t: Store, item: Item, created: Option<nat>, id: nat)
    requires JobsAfter(s, t, item, created) && |s.jobs| <= id < |t.jobs|
    ensures created == Some(id)
  {
  }

  /** The store after an item's own turn is only extended by the rest of the batch. */
  lemma {:induction false} RestExtends(cfg: Config, sources: map<string, nat>, s: Store, batch: seq<Item>, p: nat)
    requires Consistent(cfg.text, s) && p < |batch|
    ensures Extends(AfterItem(cfg, sources, Before(cfg, sources, s, batch, p), batch[p]),
                    Before(cfg, sources, s, batch, |batch|))
    decreases |batch|
  {
    var n := |batch| - 1;
    BeforeLast(cfg, sources, s, batch, p);
    LastItem(cfg, sources, s, batch);
    var u := Before(cfg, sources, s, batch, n);
    if p < n {
      RestExtends(cfg, sources, s, batch[..n], p);
      ItemExtends(cfg, sources, u, batch[n]);
      ExtendsTransitive(AfterItem(cfg, sources, Before(cfg, sources, s, batch, p), batch[p]), u,
                        Before(cfg, sources, s, batch, |batch|));
    } else {
      ExtendsItself(Before(cfg, sources, s, batch, |batch|));
    }
  }

  lemma ExtendsItself(s: Store)
    ensures Extends(s, s)
  {
  }

  lemma RowStays(s: Store, t: Store, id: nat, key: seq<string>)
    requires Extends(s, t) && id < |s.jobs|
    requires s.jobs[id].companyId.Some? && s.jobs[id].companyId.value < |s.companies|
    requires s.companies[s.jobs[id].companyId.value].key == key
    ensures t.jobs[id] == s.jobs[id] && t.jobs[id].companyId.value < |t.companies|
    ensures t.companies[t.jobs[id].companyId.value].key == key
  {
  }

  /** Every Job a batch adds carries the posting, content and company of the item that brought it, and the link that
      item was given. */
  lemma NewJobsCarryItems(cfg: Config, sources: map<string, nat>, s: Store, batch: seq<Item>, id: nat)
    returns (p: nat)
    requires Consistent(cfg.text, s) && |s.jobs| <= id < |Before(cfg, sources, s, batch, |batch|).jobs|
    ensures Brought(cfg, sources, s, batch, p, id)
    ensures var t := Before(cfg, sources, s, batch, |batch|);
            Carries(cfg, Before(cfg, sources, s, batch, p), t, t.jobs[id], batch[p], sources[batch[p].sourceName])
  {
    p := NewJobWasBrought(cfg, sources, s, batch, id);
    BeforeLast(cfg, sources, s, batch, p);
    var before, source := Before(cfg, sources, s, batch, p), sources[batch[p].sourceName];
    NewJobCarriesItem(cfg, before, batch[p], source);
    PersistEffect(cfg, before, batch[p], source);
    RestExtends(cfg, sources, s, batch, p);
    RowStays(AfterItem(cfg, sources, before, batch[p]), Before(cfg, sources, s, batch, |batch|), id,
             KeyOf(cfg.text, batch[p].companyName));
  }
}
