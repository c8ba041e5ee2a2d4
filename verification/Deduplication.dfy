/** The deduplicating persistence stage, run by one worker at a time. */
module Deduplication {
  import opened Prelude
  import opened JobIdentity
  import opened DuplicateDetection
  import opened JobStore

  datatype Config = Config(text: Text, settings: Settings)

  function AsCandidates(s: Store, ids: seq<nat>): (r: seq<Candidate>)
    requires forall k :: 0 <= k < |ids| ==> ids[k] < |s.jobs|
    ensures |r| == |ids|
    ensures forall k :: 0 <= k < |r| ==> r[k] == Candidate(ids[k], s.jobs[ids[k]].posting)
  {
    seq(|ids|, k requires 0 <= k < |ids| => Candidate(ids[k], s.jobs[ids[k]].posting))
  }

  function DecideFor(cfg: Config, s: Store, item: Item, company: nat): (d: Decision)
    ensures d.Duplicate? || d.NearDuplicate? ==> d.id < |s.jobs| && LiveAt(s.jobs[d.id], company)
  {
    var ids := CandidateIds(s, company, cfg.settings.maxCandidates);
    Decide(cfg.text, cfg.settings, item.posting, AsCandidates(s, ids))
  }

  /** Same content hash first, then same canonical URL. */
  function FindExisting(s: Store, item: Item): (r: Option<nat>)
    ensures r.Some? ==> r.value < |s.jobs|
  {
    var byHash := FindByContentHash(s, item.contentHash);
    if byHash.None? && item.canonicalUrl.Some? then FindByCanonicalUrl(s, item.canonicalUrl.value) else byHash
  }

  predicate ListingKnown(s: Store, item: Item, source: nat) {
    item.externalId.Some? && FindListing(s, source, item.externalId.value).Some?
  }

  function ResolveCompany(text: Text, s: Store, item: Item): (r: (Store, nat))
    ensures r.1 < |r.0.companies|
    ensures r.0.jobs == s.jobs && r.0.listings == s.listings
  {
    var (t, c) := UpsertCompany(text, s, item.companyName);
    (FillColumns(t, c, MissingColumns(t.companies[c], item.metadata)), c)
  }

  /** The lookups and the write, once the company row is known. */
  function Place(cfg: Config, t: Store, item: Item, source: nat, company: nat): (Store, Option<nat>) {
    if ListingKnown(t, item, source) then
      (RefreshListing(t, FindListing(t, source, item.externalId.value).value, item), None)
    else if FindExisting(t, item).Some? then
      (UpsertListing(t, FindExisting(t, item).value, source, item), None)
    else
      match DecideFor(cfg, t, item, company)
      case Duplicate(id, _) => (UpsertListing(t, id, source, item), None)
      case NearDuplicate(id, _) => CreateJob(t, item, source, Some(company), Some(id))
      case Distinct(_) => CreateJob(t, item, source, Some(company), None)
  }

  /** One item: the store afterwards, and the id of the Job it created, if any. */
  function Persist(cfg: Config, s: Store, item: Item, source: nat): (Store, Option<nat>) {
    var (t, company) := ResolveCompany(cfg.text, s, item);
    Place(cfg, t, item, source, company)
  }

  datatype Tally = Tally(found: nat, created: nat, duplicate: nat, newIds: seq<nat>)

  function Count(tally: Tally, created: Option<nat>): Tally {
    match created
    case Some(id) => Tally(tally.found + 1, tally.created + 1, tally.duplicate, tally.newIds + [id])
    case None => Tally(tally.found + 1, tally.created, tally.duplicate + 1, tally.newIds)
  }

  /** A whole batch, in order; items of an unknown source are skipped and not counted. */
  function PersistAll(cfg: Config, sources: map<string, nat>, s: Store, batch: seq<Item>): (Store, Tally) {
    if batch == [] then (s, Tally(0, 0, 0, []))
    else
      var last := |batch| - 1;
      var (t, tally) := PersistAll(cfg, sources, s, batch[..last]);
      var item := batch[last];
      if item.sourceName !in sources then (t, tally)
      else
        var (u, created) := Persist(cfg, t, item, sources[item.sourceName]);
        (u, Count(tally, created))
  }

  class DeduplicationService {
    const db: Database
    const cfg: Config

    constructor (db: Database, cfg: Config)
      ensures this.db == db && this.cfg == cfg
    {
      this.db, this.cfg := db, cfg;
    }

    method PersistOne(item: Item, source: nat) returns (created: Option<nat>)
      modifies db
      ensures (db.View(), created) == Persist(cfg, old(db.View()), item, source)
    {
      var company := db.UpsertByNormalizedName(cfg.text, item.companyName, item.metadata);

      if item.externalId.Some? {
        var listing := FindListing(db.View(), source, item.externalId.value);
        if listing.Some? {
          db.Refresh(listing.value, item);
          return None;
        }
      }

      var existing := FindByContentHash(db.View(), item.contentHash);
      if existing.None? && item.canonicalUrl.Some? {
        existing := FindByCanonicalUrl(db.View(), item.canonicalUrl.value);
      }
      if existing.Some? {
        db.Upsert(existing.value, source, item);
        return None;
      }

      var ids := CandidateIds(db.View(), company, cfg.settings.maxCandidates);
      var decision := DecideLoop(cfg.text, cfg.settings, item.posting, AsCandidates(db.View(), ids));
      if decision.Duplicate? {
        db.Upsert(decision.id, source, item);
        return None;
      }
      var duplicateOf: Option<nat> := None;
      if decision.NearDuplicate? {
        duplicateOf := Some(decision.id);
      }
      // A refused insert means a concurrent run stored this listing first: a duplicate, not a failure.
      created := db.CreateFromNormalized(item, source, company, duplicateOf);
    }

    method PersistBatch(batch: seq<Item>) returns (result: Tally)
      modifies db
      ensures (db.View(), result) == PersistAll(cfg, db.sources, old(db.View()), batch)
    {
      result := Tally(0, 0, 0, []);
      var sourceIds: map<string, nat> := map[];
      for n := 0 to |batch|
        invariant (db.View(), result) == PersistAll(cfg, db.sources, old(db.View()), batch[..n])
        invariant forall name :: name in sourceIds ==> name in db.sources && sourceIds[name] == db.sources[name]
      {
        assert batch[..n + 1][..n] == batch[..n];
        var item := batch[n];
        if item.sourceName !in sourceIds {
          if item.sourceName !in db.sources {
            continue;
          }
          sourceIds := sourceIds[item.sourceName := db.sources[item.sourceName]];
        }
        var created := PersistOne(item, sourceIds[item.sourceName]);
        result := Count(result, created);
      }
      assert batch[..|batch|] == batch;
    }
  }

  // ----- when an item creates a Job -----

  predicate MergesInto(cfg: Config, s: Store, item: Item) {
    var company := FindCompany(s, KeyOf(cfg.text, item.companyName));
    company.Some? && DecideFor(cfg, s, item, company.value).Duplicate?
  }

  /** The store recognises the item: by listing key, by content hash or URL, or by fuzzy merge. */
  predicate Known(cfg: Config, s: Store, item: Item, source: nat) {
    ListingKnown(s, item, source) || FindExisting(s, item).Some? || MergesInto(cfg, s, item)
  }

  lemma ResolveCompanyKeeps(text: Text, s: Store, item: Item)
    requires Consistent(text, s)
    ensures var (t, c) := ResolveCompany(text, s, item);
            Consistent(text, t) && Extends(s, t)
            && t.companies[c].key == KeyOf(text, item.companyName)
            && (match FindCompany(s, KeyOf(text, item.companyName))
                case Some(d) => c == d
                case None => LiveJobs(t.jobs, c) == [])
  {
    var (t, c) := UpsertCompany(text, s, item.companyName);
    var (u, _) := ResolveCompany(text, s, item);
    UpsertCompanyKeeps(text, s, item.companyName);
    FillColumnsKeeps(text, t, c, MissingColumns(t.companies[c], item.metadata));
    ExtendsTransitive(s, t, u);
    if FindCompany(s, KeyOf(text, item.companyName)).None? {
      UnusedCompanyHasNoJobs(text, s, c);
    }
  }

  lemma NoCandidatesNoMerge(cfg: Config, s: Store, item: Item, company: nat)
    requires LiveJobs(s.jobs, company) == []
    ensures DecideFor(cfg, s, item, company) == Distinct(0.0)
  {
  }

  /** The same Job rows and the same company give the same fuzzy decision. */
  lemma SameJobsSameDecision(cfg: Config, s: Store, t: Store, item: Item, company: nat)
    requires t.jobs == s.jobs
    ensures DecideFor(cfg, s, item, company) == DecideFor(cfg, t, item, company)
  {
    var limit := cfg.settings.maxCandidates;
    assert AsCandidates(s, CandidateIds(s, company, limit)) == AsCandidates(t, CandidateIds(t, company, limit));
  }

  /** What a step leaves behind when it returned `created`: at most one Job, appended, and nothing else changed. */
  predicate JobsAfter(s: Store, t: Store, item: Item, created: Option<nat>) {
    match created
    case None => t.jobs == s.jobs
    case Some(id) =>
      id == |s.jobs| && |t.jobs| == id + 1 && t.jobs[..id] == s.jobs
      && !t.jobs[id].deleted && t.jobs[id].contentHash == item.contentHash
  }

  predicate PlaceKnows(cfg: Config, t: Store, item: Item, source: nat, company: nat) {
    ListingKnown(t, item, source) || FindExisting(t, item).Some? || DecideFor(cfg, t, item, company).Duplicate?
  }

  lemma PlaceEffect(cfg: Config, s: Store, item: Item, source: nat, company: nat)
    requires Consistent(cfg.text, s)
    requires company < |s.companies| && s.companies[company].key == KeyOf(cfg.text, item.companyName)
    ensures Consistent(cfg.text, Place(cfg, s, item, source, company).0)
    ensures Extends(s, Place(cfg, s, item, source, company).0)
    ensures Place(cfg, s, item, source, company).1.None? <==> PlaceKnows(cfg, s, item, source, company)
    ensures JobsAfter(s, Place(cfg, s, item, source, company).0, item, Place(cfg, s, item, source, company).1)
    ensures item.externalId.Some? ==> ListingKnown(Place(cfg, s, item, source, company).0, item, source)
  {
    var (t, created) := Place(cfg, s, item, source, company);
    if ListingKnown(s, item, source) {
      var i := FindListing(s, source, item.externalId.value).value;
      RefreshListingKeeps(cfg.text, s, i, item);
      assert t.listings[i].sourceId == source && t.listings[i].externalId == item.externalId;
    } else if FindExisting(s, item).Some? {
      UpsertListingKeeps(cfg.text, s, FindExisting(s, item).value, source, item);
    } else {
      var d := DecideFor(cfg, s, item, company);
      match d {
        case Duplicate(id, _) => UpsertListingKeeps(cfg.text, s, id, source, item);
        case NearDuplicate(id, _) => CreateJobKeeps(cfg.text, s, item, source, company, Some(id));
        case Distinct(_) => CreateJobKeeps(cfg.text, s, item, source, company, None);
      }
    }
  }

  lemma SameRowsSameLookups(s: Store, t: Store, item: Item, source: nat)
    requires t.jobs == s.jobs && t.listings == s.listings
    ensures ListingKnown(t, item, source) == ListingKnown(s, item, source)
    ensures FindExisting(t, item) == FindExisting(s, item)
  {
  }

  /** The company `ResolveCompany` returns has the same fuzzy verdict the store gave beforehand. */
  lemma ResolvedVerdict(cfg: Config, s: Store, item: Item)
    requires Consistent(cfg.text, s)
    ensures var (t, company) := ResolveCompany(cfg.text, s, item);
            DecideFor(cfg, t, item, company).Duplicate? <==> MergesInto(cfg, s, item)
  {
    var (t, company) := ResolveCompany(cfg.text, s, item);
    ResolveCompanyKeeps(cfg.text, s, item);
    if FindCompany(s, KeyOf(cfg.text, item.companyName)).None? {
      NoCandidatesNoMerge(cfg, t, item, company);
    } else {
      SameJobsSameDecision(cfg, s, t, item, company);
    }
  }

  lemma KnownIffPlaceKnows(cfg: Config, s: Store, item: Item, source: nat)
    requires Consistent(cfg.text, s)
    ensures var (t, company) := ResolveCompany(cfg.text, s, item);
            Known(cfg, s, item, source) <==> PlaceKnows(cfg, t, item, source, company)
  {
    ResolvedVerdict(cfg, s, item);
    SameRowsSameLookups(s, ResolveCompany(cfg.text, s, item).0, item, source);
  }

  /** Everything one item does: it keeps the store consistent, never touches a Job row, and creates a Job
      exactly when the store does not recognise it. */
  lemma PersistEffect(cfg: Config, s: Store, item: Item, source: nat)
    requires Consistent(cfg.text, s)
    ensures Consistent(cfg.text, Persist(cfg, s, item, source).0)
    ensures Extends(s, Persist(cfg, s, item, source).0)
    ensures Persist(cfg, s, item, source).1.None? <==> Known(cfg, s, item, source)
    ensures JobsAfter(s, Persist(cfg, s, item, source).0, item, Persist(cfg, s, item, source).1)
    ensures item.externalId.Some? ==> ListingKnown(Persist(cfg, s, item, source).0, item, source)
  {
    var (u, company) := ResolveCompany(cfg.text, s, item);
    ResolveCompanyKeeps(cfg.text, s, item);
    PlaceEffect(cfg, u, item, source, company);
    KnownIffPlaceKnows(cfg, s, item, source);
    ExtendsTransitive(s, u, Persist(cfg, s, item, source).0);
  }

  // ----- running a batch again -----

  /** Recognised for good: by its listing key when it has one, otherwise as the store stands. */
  predicate Settled(cfg: Config, s: Store, item: Item, source: nat) {
    if item.externalId.Some? then ListingKnown(s, item, source) else Known(cfg, s, item, source)
  }

  /** The company's live jobs all fit in the candidate window. */
  predicate WindowCovers(cfg: Config, s: Store, item: Item) {
    var company := FindCompany(s, KeyOf(cfg.text, item.companyName));
    company.Some? ==> |LiveJobs(s.jobs, company.value)| <= cfg.settings.maxCandidates
  }

  lemma CompanyStays(text: Text, s: Store, t: Store, key: seq<string>)
    requires Consistent(text, s) && Consistent(text, t) && Extends(s, t)
    ensures FindCompany(s, key).Some? ==> FindCompany(t, key) == FindCompany(s, key)
  {
    if FindCompany(s, key).Some? {
      var c := FindCompany(s, key).value;
      assert t.companies[c].key == key;
    }
  }

  lemma ListingKeyStays(s: Store, t: Store, item: Item, source: nat)
    requires Extends(s, t) && ListingKnown(s, item, source)
    ensures ListingKnown(t, item, source)
  {
    var i := FindListing(s, source, item.externalId.value).value;
    assert SameIdentity(s.listings[i], t.listings[i]);
  }

  lemma ExistingStays(s: Store, t: Store, item: Item)
    requires Extends(s, t) && FindExisting(s, item).Some?
    ensures FindExisting(t, item).Some?
  {
    var j := FindExisting(s, item).value;
    assert t.jobs[j] == s.jobs[j];
  }

  /** A candidate stays one while the window covers the company. */
  lemma CandidateStays(s: Store, t: Store, company: nat, limit: nat, x: Candidate)
    requires Extends(s, t) && |LiveJobs(t.jobs, company)| <= limit
    requires x in AsCandidates(s, CandidateIds(s, company, limit))
    ensures x in AsCandidates(t, CandidateIds(t, company, limit))
  {
    var ids, later := CandidateIds(s, company, limit), CandidateIds(t, company, limit);
    var k :| 0 <= k < |ids| && AsCandidates(s, ids)[k] == x;
    assert ids[k] in ids && t.jobs[ids[k]] == s.jobs[ids[k]];
    assert ids[k] in later;
    var m :| 0 <= m < |later| && later[m] == ids[k];
    assert AsCandidates(t, later)[m] == x;
  }

  lemma MergeStays(cfg: Config, s: Store, t: Store, item: Item)
    requires Consistent(cfg.text, s) && Consistent(cfg.text, t) && Extends(s, t)
    requires MergesInto(cfg, s, item)
    requires t.jobs == s.jobs || WindowCovers(cfg, t, item)
    ensures MergesInto(cfg, t, item)
  {
    var key := KeyOf(cfg.text, item.companyName);
    CompanyStays(cfg.text, s, t, key);
    var c := FindCompany(s, key).value;
    if t.jobs != s.jobs {
      var limit := cfg.settings.maxCandidates;
      var fewer, more := AsCandidates(s, CandidateIds(s, c, limit)), AsCandidates(t, CandidateIds(t, c, limit));
      forall x | x in fewer ensures x in more {
        CandidateStays(s, t, c, limit, x);
      }
      MoreCandidatesKeepTheMerge(cfg.text, cfg.settings, item.posting, fewer, more);
    } else {
      SameJobsSameDecision(cfg, s, t, item, c);
    }
  }

  lemma SettledStays(cfg: Config, s: Store, t: Store, item: Item, source: nat)
    requires Consistent(cfg.text, s) && Consistent(cfg.text, t) && Extends(s, t)
    requires Settled(cfg, s, item, source)
    requires item.externalId.Some? || t.jobs == s.jobs || WindowCovers(cfg, t, item)
    ensures Settled(cfg, t, item, source)
  {
    if ListingKnown(s, item, source) {
      ListingKeyStays(s, t, item, source);
    } else if FindExisting(s, item).Some? {
      ExistingStays(s, t, item);
    } else {
      MergeStays(cfg, s, t, item);
    }
  }

  lemma SettledAfterwards(cfg: Config, s: Store, item: Item, source: nat)
    requires Consistent(cfg.text, s)
    ensures Settled(cfg, Persist(cfg, s, item, source).0, item, source)
  {
    PersistEffect(cfg, s, item, source);
    var (t, created) := Persist(cfg, s, item, source);
    if item.externalId.None? && created.None? {
      SettledStays(cfg, s, t, item, source);
    }
  }

  /** The counters of a run agree with the Jobs it appended. */
  ghost predicate TallyExact(s: Store, t: Store, tally: Tally) {
    tally.found == tally.created + tally.duplicate
    && |tally.newIds| == tally.created
    && |t.jobs| == |s.jobs| + tally.created
    && forall k :: 0 <= k < tally.created ==> tally.newIds[k] == |s.jobs| + k
  }

  /** A batch keeps the store consistent, only appends Jobs, and reports exactly the Jobs it appended. */
  lemma {:induction false} BatchEffect(cfg: Config, sources: map<string, nat>, s: Store, batch: seq<Item>)
    requires Consistent(cfg.text, s)
    ensures Consistent(cfg.text, PersistAll(cfg, sources, s, batch).0)
    ensures Extends(s, PersistAll(cfg, sources, s, batch).0)
    ensures TallyExact(s, PersistAll(cfg, sources, s, batch).0, PersistAll(cfg, sources, s, batch).1)
  {
    if batch != [] {
      var last := |batch| - 1;
      BatchEffect(cfg, sources, s, batch[..last]);
      var (t, tally) := PersistAll(cfg, sources, s, batch[..last]);
      if batch[last].sourceName in sources {
        var source := sources[batch[last].sourceName];
        PersistEffect(cfg, t, batch[last], source);
        var (u, created) := Persist(cfg, t, batch[last], source);
        ExtendsTransitive(s, t, u);
        TallyStep(s, t, u, tally, batch[last], created);
      }
    }
  }

  lemma TallyStep(s: Store, t: Store, u: Store, tally: Tally, item: Item, created: Option<nat>)
    requires TallyExact(s, t, tally) && JobsAfter(t, u, item, created)
    ensures TallyExact(s, u, Count(tally, created))
  {
  }

  lemma OneMoreItem(cfg: Config, sources: map<string, nat>, s: Store, batch: seq<Item>)
    requires Consistent(cfg.text, s) && batch != []
    ensures var t := PersistAll(cfg, sources, s, batch[..|batch| - 1]).0;
            var u := PersistAll(cfg, sources, s, batch).0;
            var item := batch[|batch| - 1];
            Consistent(cfg.text, t) && Consistent(cfg.text, u) && Extends(t, u)
            && (item.sourceName in sources ==> u == Persist(cfg, t, item, sources[item.sourceName]).0)
  {
    var front, item := batch[..|batch| - 1], batch[|batch| - 1];
    BatchEffect(cfg, sources, s, front);
    if item.sourceName in sources {
      PersistEffect(cfg, PersistAll(cfg, sources, s, front).0, item, sources[item.sourceName]);
    }
  }

  /** After a batch every item with an external id is settled, and so is any other item whose company still
      fits in the candidate window. */
  lemma {:induction false} BatchSettles(cfg: Config, sources: map<string, nat>, s: Store, batch: seq<Item>, k: nat)
    requires Consistent(cfg.text, s) && k < |batch| && batch[k].sourceName in sources
    requires batch[k].externalId.Some? || WindowCovers(cfg, PersistAll(cfg, sources, s, batch).0, batch[k])
    ensures Settled(cfg, PersistAll(cfg, sources, s, batch).0, batch[k], sources[batch[k].sourceName])
    decreases |batch|
  {
    var last := |batch| - 1;
    var front := batch[..last];
    OneMoreItem(cfg, sources, s, batch);
    var t, u := PersistAll(cfg, sources, s, front).0, PersistAll(cfg, sources, s, batch).0;
    if k == last {
      SettledAfterwards(cfg, t, batch[k], sources[batch[k].sourceName]);
    } else {
      WindowShrinks(cfg, t, u, batch[k]);
      BatchSettles(cfg, sources, s, front, k);
      SettledStays(cfg, t, u, batch[k], sources[batch[k].sourceName]);
    }
  }

  lemma {:induction false} FewerLiveJobsBefore(before: seq<Job>, after: seq<Job>, company: nat)
    requires before <= after
    ensures |LiveJobs(before, company)| <= |LiveJobs(after, company)|
    decreases |after|
  {
    if before != after {
      assert before <= after[..|after| - 1];
      FewerLiveJobsBefore(before, after[..|after| - 1], company);
    }
  }

  lemma WindowShrinks(cfg: Config, s: Store, t: Store, item: Item)
    requires Consistent(cfg.text, s) && Consistent(cfg.text, t) && Extends(s, t)
    ensures WindowCovers(cfg, t, item) ==> WindowCovers(cfg, s, item)
  {
    var company := FindCompany(s, KeyOf(cfg.text, item.companyName));
    CompanyStays(cfg.text, s, t, KeyOf(cfg.text, item.companyName));
    if company.Some? {
      FewerLiveJobsBefore(s.jobs, t.jobs, company.value);
    }
  }

  predicate ItemSettled(cfg: Config, sources: map<string, nat>, s: Store, item: Item) {
    item.sourceName in sources ==> Settled(cfg, s, item, sources[item.sourceName])
  }

  ghost predicate AllSettled(cfg: Config, sources: map<string, nat>, s: Store, batch: seq<Item>) {
    forall k :: 0 <= k < |batch| ==> ItemSettled(cfg, sources, s, batch[k])
  }

  /** New companies alone make no item recognised. */
  lemma NewStaysNew(cfg: Config, s: Store, t: Store, item: Item, source: nat)
    requires Consistent(cfg.text, s) && Consistent(cfg.text, t) && Extends(s, t)
    requires t.jobs == s.jobs && (t.listings == s.listings || item.externalId.None?) && !Known(cfg, s, item, source)
    ensures !Known(cfg, t, item, source)
  {
    assert FindExisting(t, item) == FindExisting(s, item);
    var key := KeyOf(cfg.text, item.companyName);
    CompanyStays(cfg.text, s, t, key);
    var c := FindCompany(t, key);
    if c.Some? {
      if FindCompany(s, key).Some? {
        SameJobsSameDecision(cfg, s, t, item, c.value);
      } else {
        NoJobsAtNewCompany(cfg.text, s, t, key);
        NoCandidatesNoMerge(cfg, t, item, c.value);
      }
    }
  }

  lemma NoJobsAtNewCompany(text: Text, s: Store, t: Store, key: seq<string>)
    requires Consistent(text, s) && Consistent(text, t) && Extends(s, t) && t.jobs == s.jobs
    requires FindCompany(s, key).None? && FindCompany(t, key).Some?
    ensures LiveJobs(t.jobs, FindCompany(t, key).value) == []
  {
    var c := FindCompany(t, key).value;
    assert forall d :: 0 <= d < |s.companies| ==> t.companies[d].key == s.companies[d].key != key;
    UnusedCompanyHasNoJobs(text, s, c);
  }

  lemma SameJobsSameAnswer(cfg: Config, s: Store, t: Store, item: Item, source: nat)
    requires Consistent(cfg.text, s) && Consistent(cfg.text, t) && Extends(s, t) && t.jobs == s.jobs
    requires item.externalId.Some? ==> Settled(cfg, s, item, source)
    ensures Known(cfg, t, item, source) <==> Settled(cfg, s, item, source)
  {
    if Settled(cfg, s, item, source) {
      SettledStays(cfg, s, t, item, source);
    } else {
      NewStaysNew(cfg, s, t, item, source);
    }
  }

  lemma NothingStep(cfg: Config, sources: map<string, nat>, s: Store, t: Store, item: Item)
    requires Consistent(cfg.text, s) && Consistent(cfg.text, t) && Extends(s, t) && t.jobs == s.jobs
    requires item.sourceName in sources && (item.externalId.Some? ==> ItemSettled(cfg, sources, s, item))
    ensures Persist(cfg, t, item, sources[item.sourceName]).1.None? <==> ItemSettled(cfg, sources, s, item)
    ensures Persist(cfg, t, item, sources[item.sourceName]).1.None? ==>
              Persist(cfg, t, item, sources[item.sourceName]).0.jobs == s.jobs
  {
    PersistEffect(cfg, t, item, sources[item.sourceName]);
    SameJobsSameAnswer(cfg, s, t, item, sources[item.sourceName]);
  }

  lemma AllSettledSplits(cfg: Config, sources: map<string, nat>, s: Store, front: seq<Item>, item: Item)
    ensures AllSettled(cfg, sources, s, front + [item]) <==>
            AllSettled(cfg, sources, s, front) && ItemSettled(cfg, sources, s, item)
  {
    var batch := front + [item];
    assert batch[|front|] == item;
    assert forall k :: 0 <= k < |front| ==> batch[k] == front[k];
  }

  ghost predicate KeyedSettled(cfg: Config, sources: map<string, nat>, s: Store, batch: seq<Item>) {
    forall k :: 0 <= k < |batch| && batch[k].externalId.Some? ==> ItemSettled(cfg, sources, s, batch[k])
  }

  /** On a store where every keyed item is settled, a batch creates nothing exactly when all its items are. */
  lemma {:induction false} CreatesNothingIff(cfg: Config, sources: map<string, nat>, s: Store, batch: seq<Item>)
    requires Consistent(cfg.text, s) && KeyedSettled(cfg, sources, s, batch)
    ensures PersistAll(cfg, sources, s, batch).1.created == 0 <==> AllSettled(cfg, sources, s, batch)
    ensures PersistAll(cfg, sources, s, batch).1.created == 0 ==> PersistAll(cfg, sources, s, batch).0.jobs == s.jobs
    decreases |batch|
  {
    if batch != [] {
      var last := |batch| - 1;
      var front, item := batch[..last], batch[last];
      assert KeyedSettled(cfg, sources, s, front);
      assert item.externalId.Some? ==> ItemSettled(cfg, sources, s, batch[last]);
      CreatesNothingIff(cfg, sources, s, front);
      BatchEffect(cfg, sources, s, front);
      assert batch == front + [item];
      AllSettledSplits(cfg, sources, s, front, item);
      var (t, tally) := PersistAll(cfg, sources, s, front);
      if item.sourceName in sources && tally.created == 0 {
        NothingStep(cfg, sources, s, t, item);
      }
    }
  }

  /** Items the second run has to recognise by content, because nothing else identifies them. */
  predicate Unkeyed(sources: map<string, nat>, item: Item) {
    item.sourceName in sources && item.externalId.None?
  }

  /** Running any batch twice: the second run creates nothing exactly when every item without an external id is
      still recognised by the store the first run left. */
  lemma RerunCreatesNothingIff(cfg: Config, sources: map<string, nat>, s: Store, batch: seq<Item>)
    requires Consistent(cfg.text, s)
    ensures var t := PersistAll(cfg, sources, s, batch).0;
            var again := PersistAll(cfg, sources, t, batch);
            (again.1.created == 0 <==>
              forall k :: 0 <= k < |batch| && Unkeyed(sources, batch[k]) ==>
                Known(cfg, t, batch[k], sources[batch[k].sourceName]))
            && (again.1.created == 0 ==> again.0.jobs == t.jobs && again.1.duplicate == again.1.found)
  {
    var t := PersistAll(cfg, sources, s, batch).0;
    BatchEffect(cfg, sources, s, batch);
    forall k | 0 <= k < |batch| && batch[k].externalId.Some?
      ensures ItemSettled(cfg, sources, t, batch[k])
    {
      if batch[k].sourceName in sources { BatchSettles(cfg, sources, s, batch, k); }
    }
    CreatesNothingIff(cfg, sources, t, batch);
    BatchEffect(cfg, sources, t, batch);
  }

  /** The promised idempotence: unconditional for items with an external id, and for the others as long as their
      company has no more live jobs than the candidate window holds. */
  lemma RerunIsIdempotent(cfg: Config, sources: map<string, nat>, s: Store, batch: seq<Item>)
    requires Consistent(cfg.text, s)
    requires forall k :: 0 <= k < |batch| && Unkeyed(sources, batch[k]) ==>
               WindowCovers(cfg, PersistAll(cfg, sources, s, batch).0, batch[k])
    ensures var t := PersistAll(cfg, sources, s, batch).0;
            var again := PersistAll(cfg, sources, t, batch);
            again.1.created == 0 && again.1.newIds == [] && again.1.duplicate == again.1.found && again.0.jobs == t.jobs
  {
    var t := PersistAll(cfg, sources, s, batch).0;
    forall k | 0 <= k < |batch| && Unkeyed(sources, batch[k])
      ensures Known(cfg, t, batch[k], sources[batch[k].sourceName])
    {
      BatchSettles(cfg, sources, s, batch, k);
    }
    RerunCreatesNothingIff(cfg, sources, s, batch);
    BatchEffect(cfg, sources, s, batch);
    BatchEffect(cfg, sources, t, batch);
  }
}
