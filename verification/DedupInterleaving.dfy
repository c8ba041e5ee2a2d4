/** Any number of batches persisted at the same time, interleaved between repository calls. */
module DedupInterleaving {
  import opened Prelude
  import opened JobIdentity
  import opened DuplicateDetection
  import opened JobStore
  import opened Deduplication

  /** The repository call a worker makes next, with what it remembers from earlier calls. */
  datatype Pc =
    | Ready
    | Resolve
    | Fill(company: nat, columns: Columns)
    | KeyLookup(company: nat)
    | Refresh(listing: nat)
    | HashLookup(company: nat)
    | UrlLookup(company: nat)
    | Attach(job: nat)
    | AppendSecondary(job: nat)
    | RefreshSecondary(listing: nat)
    | Candidates(company: nat)
    | Insert(company: nat, duplicateOf: Option<nat>)

  /** What a call leads to: another call, or the end of the item with the id of a created Job, if any. */
  datatype Outcome = Goto(pc: Pc) | Finish(created: Option<nat>)

  function Rank(pc: Pc): nat {
    match pc
    case Ready => 0
    case Insert(_, _) => 1
    case Refresh(_) => 1
    case RefreshSecondary(_) => 1
    case AppendSecondary(_) => 1
    case Attach(_) => 2
    case Candidates(_) => 3
    case UrlLookup(_) => 4
    case HashLookup(_) => 5
    case KeyLookup(_) => 6
    case Fill(_, _) => 7
    case Resolve => 8
  }

  function AfterKeyLookup(s: Store, item: Item, source: nat, c: nat): (pc: Pc)
    ensures pc.Refresh? || pc == HashLookup(c)
  {
    if ListingKnown(s, item, source) then Refresh(FindListing(s, source, item.externalId.value).value)
    else HashLookup(c)
  }

  function AfterHashLookup(s: Store, item: Item, c: nat): (pc: Pc)
    ensures pc.Attach? || pc == UrlLookup(c) || pc == Candidates(c)
  {
    match FindByContentHash(s, item.contentHash)
    case Some(j) => Attach(j)
    case None => if item.canonicalUrl.Some? then UrlLookup(c) else Candidates(c)
  }

  function AfterUrlLookup(s: Store, item: Item, c: nat): (pc: Pc)
    ensures pc.Attach? || pc == Candidates(c)
  {
    if item.canonicalUrl.Some? && FindByCanonicalUrl(s, item.canonicalUrl.value).Some?
    then Attach(FindByCanonicalUrl(s, item.canonicalUrl.value).value)
    else Candidates(c)
  }

  function AfterCandidates(cfg: Config, s: Store, item: Item, c: nat): (pc: Pc)
    ensures pc.Attach? || (pc.Insert? && pc.company == c)
  {
    match DecideFor(cfg, s, item, c)
    case Duplicate(id, _) => Attach(id)
    case NearDuplicate(id, _) => Insert(c, Some(id))
    case Distinct(_) => Insert(c, None)
  }

  /** With an external id one upsert; without one, a lookup whose answer the next call acts on. */
  function AttachCall(s: Store, item: Item, source: nat, j: nat): (r: (Store, Outcome))
    ensures r.1.Goto? ==> r.1.pc.RefreshSecondary? || r.1.pc.AppendSecondary?
  {
    if item.externalId.Some? then (UpsertListing(s, j, source, item), Finish(None))
    else
      match FindUnkeyedListing(s, j, source, item.canonicalUrl)
      case Some(i) => (s, Goto(RefreshSecondary(i)))
      case None => (s, Goto(AppendSecondary(j)))
  }

  /** One repository call on behalf of one item. */
  function Call(cfg: Config, s: Store, item: Item, source: nat, pc: Pc): (r: (Store, Outcome))
    requires pc != Ready
    ensures r.1.Goto? ==> r.1.pc != Ready && Rank(r.1.pc) < Rank(pc)
  {
    match pc
    case Resolve =>
      var (t, c) := UpsertCompany(cfg.text, s, item.companyName);
      var columns := MissingColumns(t.companies[c], item.metadata);
      (t, Goto(if columns == map[] then KeyLookup(c) else Fill(c, columns)))
    case Fill(c, columns) => (FillColumns(s, c, columns), Goto(KeyLookup(c)))
    case KeyLookup(c) => (s, Goto(AfterKeyLookup(s, item, source, c)))
    case Refresh(i) => (RefreshListing(s, i, item), Finish(None))
    case HashLookup(c) => (s, Goto(AfterHashLookup(s, item, c)))
    case UrlLookup(c) => (s, Goto(AfterUrlLookup(s, item, c)))
    case Attach(j) => AttachCall(s, item, source, j)
    case RefreshSecondary(i) => (RefreshListing(s, i, item), Finish(None))
    case AppendSecondary(j) => (AppendListing(s, j, source, item), Finish(None))
    case Candidates(c) => (s, Goto(AfterCandidates(cfg, s, item, c)))
    case Insert(c, duplicateOf) =>
      var (t, created) := CreateJob(s, item, source, Some(c), duplicateOf);
      (t, Finish(created))
  }

  datatype Worker = Worker(batch: seq<Item>, pos: nat, pc: Pc, tally: Tally) {
    predicate Finished() {
      pos >= |batch|
    }
  }

  function Started(w: Worker): Worker {
    w.(pc := Resolve, tally := w.tally.(found := w.tally.found + 1))
  }

  function Done(w: Worker, created: Option<nat>): Worker {
    var counted := Count(w.tally, created);
    w.(pos := w.pos + 1, pc := Ready, tally := counted.(found := w.tally.found))
  }

  function Continue(w: Worker, outcome: Outcome): Worker {
    match outcome
    case Goto(pc) => w.(pc := pc)
    case Finish(created) => Done(w, created)
  }

  predicate OnAnItem(sources: map<string, nat>, w: Worker) {
    !w.Finished() && w.batch[w.pos].sourceName in sources
  }

  /** One turn of one worker: at most one repository call. */
  function Step(cfg: Config, sources: map<string, nat>, s: Store, w: Worker): (Store, Worker)
    requires !w.Finished()
  {
    var item := w.batch[w.pos];
    if item.sourceName !in sources then (s, w.(pos := w.pos + 1))
    else if w.pc == Ready then (s, Started(w))
    else
      var (t, outcome) := Call(cfg, s, item, sources[item.sourceName], w.pc);
      (t, Continue(w, outcome))
  }

  datatype System = System(store: Store, workers: seq<Worker>)

  function Next(cfg: Config, sources: map<string, nat>, sys: System, i: nat): System {
    if i >= |sys.workers| || sys.workers[i].Finished() then sys
    else
      var (t, w) := Step(cfg, sources, sys.store, sys.workers[i]);
      System(t, sys.workers[i := w])
  }

  /** The schedule says whose turn it is; a turn given to a finished worker is idle. */
  function Run(cfg: Config, sources: map<string, nat>, sys: System, schedule: seq<nat>): System
    decreases |schedule|
  {
    if schedule == [] then sys
    else Run(cfg, sources, Next(cfg, sources, sys, schedule[0]), schedule[1..])
  }

  // ----- what a worker may rely on -----

  ghost predicate CompanyFor(cfg: Config, s: Store, item: Item, c: nat) {
    c < |s.companies| && s.companies[c].key == KeyOf(cfg.text, item.companyName)
  }

  ghost predicate PcOk(cfg: Config, s: Store, item: Item, source: nat, pc: Pc) {
    match pc
    case Fill(c, _) => CompanyFor(cfg, s, item, c)
    case KeyLookup(c) => CompanyFor(cfg, s, item, c)
    case HashLookup(c) => CompanyFor(cfg, s, item, c)
    case UrlLookup(c) => CompanyFor(cfg, s, item, c)
    case Candidates(c) => CompanyFor(cfg, s, item, c)
    case Refresh(i) => ListingKnown(s, item, source)
    case Attach(j) => j < |s.jobs|
    case AppendSecondary(j) => j < |s.jobs| && item.externalId.None?
    case RefreshSecondary(i) => item.externalId.None?
    case Insert(c, d) =>
      CompanyFor(cfg, s, item, c)
      && (d.Some? ==> d.value < |s.jobs| && s.jobs[d.value].companyId == Some(c))
    case _ => true
  }

  ghost predicate WorkerPcOk(cfg: Config, sources: map<string, nat>, s: Store, w: Worker) {
    w.pc != Ready ==>
      OnAnItem(sources, w) && PcOk(cfg, s, w.batch[w.pos], sources[w.batch[w.pos].sourceName], w.pc)
  }

  /** Every keyed item the worker has passed has its listing in the store. */
  ghost predicate PassedAreListed(sources: map<string, nat>, s: Store, w: Worker) {
    forall k :: 0 <= k < w.pos && k < |w.batch| ==> KeyedIsListed(sources, s, w.batch[k])
  }

  ghost predicate KeyedIsListed(sources: map<string, nat>, s: Store, item: Item) {
    item.sourceName in sources && item.externalId.Some? ==> ListingKnown(s, item, sources[item.sourceName])
  }

  predicate TallyOk(w: Worker) {
    w.tally.found == w.tally.created + w.tally.duplicate + (if w.pc == Ready then 0 else 1)
    && |w.tally.newIds| == w.tally.created
  }

  ghost predicate WorkerOk(cfg: Config, sources: map<string, nat>, s: Store, w: Worker) {
    WorkerPcOk(cfg, sources, s, w) && PassedAreListed(sources, s, w) && TallyOk(w)
  }

  /** What the other workers do never invalidates what this one remembers. */
  lemma WorkerOkStays(cfg: Config, sources: map<string, nat>, s: Store, t: Store, w: Worker)
    requires WorkerOk(cfg, sources, s, w) && Extends(s, t)
    ensures WorkerOk(cfg, sources, t, w)
  {
    forall k | 0 <= k < w.pos && k < |w.batch| ensures KeyedIsListed(sources, t, w.batch[k]) {
      assert KeyedIsListed(sources, s, w.batch[k]);
      if w.batch[k].sourceName in sources && w.batch[k].externalId.Some? {
        ListingKeyStays(s, t, w.batch[k], sources[w.batch[k].sourceName]);
      }
    }
    if w.pc.Refresh? {
      ListingKeyStays(s, t, w.batch[w.pos], sources[w.batch[w.pos].sourceName]);
    }
  }

  /** Either no Job appears, or exactly one does and the worker records it. */
  predicate JobAccounted(s: Store, t: Store, w: Worker, v: Worker) {
    (t.jobs == s.jobs && v.tally.newIds == w.tally.newIds)
    || (|t.jobs| == |s.jobs| + 1 && v.tally.newIds == w.tally.newIds + [|s.jobs|])
  }

  lemma CallStore(cfg: Config, s: Store, item: Item, source: nat, pc: Pc)
    requires Consistent(cfg.text, s) && pc != Ready && PcOk(cfg, s, item, source, pc)
    ensures Consistent(cfg.text, Call(cfg, s, item, source, pc).0)
    ensures Extends(s, Call(cfg, s, item, source, pc).0)
  {
    match pc {
      case Resolve => UpsertCompanyKeeps(cfg.text, s, item.companyName);
      case Fill(c, columns) => FillColumnsKeeps(cfg.text, s, c, columns);
      case Refresh(i) => RefreshListingKeeps(cfg.text, s, i, item);
      case RefreshSecondary(i) => RefreshListingKeeps(cfg.text, s, i, item);
      case AppendSecondary(j) => AppendListingKeeps(cfg.text, s, j, source, item);
      case Attach(j) => if item.externalId.Some? { UpsertListingKeeps(cfg.text, s, j, source, item); }
      case Insert(c, d) => CreateJobKeeps(cfg.text, s, item, source, c, d);
      case _ =>
    }
  }

  /** An item that ends and has a key leaves its listing behind, whichever way it went. */
  lemma CallLists(cfg: Config, s: Store, item: Item, source: nat, pc: Pc)
    requires Consistent(cfg.text, s) && pc != Ready && PcOk(cfg, s, item, source, pc)
    requires Call(cfg, s, item, source, pc).1.Finish? && item.externalId.Some?
    ensures ListingKnown(Call(cfg, s, item, source, pc).0, item, source)
  {
    match pc {
      case Attach(j) => UpsertListingKeeps(cfg.text, s, j, source, item);
      case Insert(c, d) => CreateJobKeeps(cfg.text, s, item, source, c, d);
      case Refresh(i) =>
        RefreshListingKeeps(cfg.text, s, i, item);
        ListingKeyStays(s, RefreshListing(s, i, item), item, source);
      case _ =>
    }
  }

  /** The next call finds what it was told to expect. */
  lemma CallPc(cfg: Config, s: Store, item: Item, source: nat, pc: Pc)
    requires pc != Ready && PcOk(cfg, s, item, source, pc)
    ensures var (t, outcome) := Call(cfg, s, item, source, pc);
            outcome.Goto? ==> PcOk(cfg, t, item, source, outcome.pc)
  {
  }

  lemma StepStore(cfg: Config, sources: map<string, nat>, s: Store, w: Worker)
    requires Consistent(cfg.text, s) && WorkerPcOk(cfg, sources, s, w) && !w.Finished()
    ensures Consistent(cfg.text, Step(cfg, sources, s, w).0)
    ensures Extends(s, Step(cfg, sources, s, w).0)
  {
    if w.pc != Ready {
      CallStore(cfg, s, w.batch[w.pos], sources[w.batch[w.pos].sourceName], w.pc);
    }
  }

  lemma CallJobs(cfg: Config, s: Store, item: Item, source: nat, pc: Pc)
    requires pc != Ready
    ensures var (t, outcome) := Call(cfg, s, item, source, pc);
            match outcome
            case Finish(Some(id)) => id == |s.jobs| && |t.jobs| == id + 1
            case _ => t.jobs == s.jobs
  {
  }

  lemma StepCounts(cfg: Config, sources: map<string, nat>, s: Store, w: Worker)
    requires WorkerPcOk(cfg, sources, s, w) && TallyOk(w) && !w.Finished()
    ensures TallyOk(Step(cfg, sources, s, w).1)
    ensures JobAccounted(s, Step(cfg, sources, s, w).0, w, Step(cfg, sources, s, w).1)
    ensures Step(cfg, sources, s, w).1.batch == w.batch
    ensures w.pos <= Step(cfg, sources, s, w).1.pos <= w.pos + 1
  {
    if w.pc != Ready {
      CallJobs(cfg, s, w.batch[w.pos], sources[w.batch[w.pos].sourceName], w.pc);
    }
  }

  lemma StepPc(cfg: Config, sources: map<string, nat>, s: Store, w: Worker)
    requires WorkerPcOk(cfg, sources, s, w) && !w.Finished()
    ensures WorkerPcOk(cfg, sources, Step(cfg, sources, s, w).0, Step(cfg, sources, s, w).1)
  {
    if w.pc != Ready {
      CallPc(cfg, s, w.batch[w.pos], sources[w.batch[w.pos].sourceName], w.pc);
    }
  }

  lemma StepLists(cfg: Config, sources: map<string, nat>, s: Store, w: Worker)
    requires Consistent(cfg.text, s) && WorkerPcOk(cfg, sources, s, w) && !w.Finished()
    requires Step(cfg, sources, s, w).1.pos == w.pos + 1
    ensures KeyedIsListed(sources, Step(cfg, sources, s, w).0, w.batch[w.pos])
  {
    var item := w.batch[w.pos];
    if item.sourceName in sources && item.externalId.Some? {
      CallLists(cfg, s, item, sources[item.sourceName], w.pc);
    }
  }

  lemma StepKeeps(cfg: Config, sources: map<string, nat>, s: Store, w: Worker)
    requires Consistent(cfg.text, s) && WorkerOk(cfg, sources, s, w) && !w.Finished()
    ensures WorkerOk(cfg, sources, Step(cfg, sources, s, w).0, Step(cfg, sources, s, w).1)
  {
    var (t, v) := Step(cfg, sources, s, w);
    StepStore(cfg, sources, s, w);
    StepCounts(cfg, sources, s, w);
    StepPc(cfg, sources, s, w);
    WorkerOkStays(cfg, sources, s, t, w);
    if v.pos == w.pos + 1 {
      StepLists(cfg, sources, s, w);
    }
    forall k | 0 <= k < v.pos && k < |v.batch| ensures KeyedIsListed(sources, t, v.batch[k]) {
      assert k < w.pos ==> KeyedIsListed(sources, t, w.batch[k]);
    }
  }

  // ----- the whole system -----

  predicate Reports(sys: System, i: nat, job: nat) {
    i < |sys.workers| && job in sys.workers[i].tally.newIds
  }

  /** Each Job created since `base` is reported by exactly one worker, and nothing else is reported. */
  ghost predicate ReportsExact(sys: System, base: nat) {
    base <= |sys.store.jobs|
    && (forall i: nat, j: nat :: Reports(sys, i, j) ==> base <= j < |sys.store.jobs|)
    && (forall j: nat :: base <= j < |sys.store.jobs| ==> Reported(sys, j))
    && (forall i: nat, k: nat, j: nat :: Reports(sys, i, j) && Reports(sys, k, j) ==> i == k)
  }

  ghost predicate Reported(sys: System, job: nat) {
    exists i: nat :: Reports(sys, i, job)
  }

  ghost predicate AllOk(cfg: Config, sources: map<string, nat>, sys: System) {
    Consistent(cfg.text, sys.store)
    && forall i :: 0 <= i < |sys.workers| ==> WorkerOk(cfg, sources, sys.store, sys.workers[i])
  }

  lemma NextOk(cfg: Config, sources: map<string, nat>, sys: System, i: nat)
    requires AllOk(cfg, sources, sys)
    ensures AllOk(cfg, sources, Next(cfg, sources, sys, i))
    ensures Extends(sys.store, Next(cfg, sources, sys, i).store)
  {
    if i < |sys.workers| && !sys.workers[i].Finished() {
      var next := Next(cfg, sources, sys, i);
      StepStore(cfg, sources, sys.store, sys.workers[i]);
      StepKeeps(cfg, sources, sys.store, sys.workers[i]);
      forall k | 0 <= k < |next.workers| ensures WorkerOk(cfg, sources, next.store, next.workers[k]) {
        if k != i {
          WorkerOkStays(cfg, sources, sys.store, next.store, sys.workers[k]);
        }
      }
    }
  }

  lemma NextReports(cfg: Config, sources: map<string, nat>, sys: System, i: nat, base: nat)
    requires AllOk(cfg, sources, sys) && ReportsExact(sys, base)
    ensures ReportsExact(Next(cfg, sources, sys, i), base)
  {
    if i < |sys.workers| && !sys.workers[i].Finished() {
      var next := Next(cfg, sources, sys, i);
      StepCounts(cfg, sources, sys.store, sys.workers[i]);
      var id := |sys.store.jobs|;
      var grew := |next.store.jobs| == id + 1;
      forall k: nat, j: nat ensures Reports(next, k, j) <==> Reports(sys, k, j) || (grew && k == i && j == id) {
        assert JobAccounted(sys.store, next.store, sys.workers[i], next.workers[i]);
      }
      forall j: nat | base <= j < |next.store.jobs| ensures Reported(next, j) {
        if j < id {
          assert Reported(sys, j);
          var k: nat :| Reports(sys, k, j);
          assert Reports(next, k, j);
        } else {
          assert Reports(next, i, j);
        }
      }
    }
  }

  lemma {:induction false} RunOk(cfg: Config, sources: map<string, nat>, sys: System, schedule: seq<nat>, base: nat)
    requires AllOk(cfg, sources, sys) && ReportsExact(sys, base)
    ensures AllOk(cfg, sources, Run(cfg, sources, sys, schedule))
    ensures ReportsExact(Run(cfg, sources, sys, schedule), base)
    ensures Extends(sys.store, Run(cfg, sources, sys, schedule).store)
    decreases |schedule|
  {
    if schedule != [] {
      var next := Next(cfg, sources, sys, schedule[0]);
      NextOk(cfg, sources, sys, schedule[0]);
      NextReports(cfg, sources, sys, schedule[0], base);
      RunOk(cfg, sources, next, schedule[1..], base);
      ExtendsTransitive(sys.store, next.store, Run(cfg, sources, sys, schedule).store);
    }
  }

  function Fresh(batch: seq<Item>): Worker {
    Worker(batch, 0, Ready, Tally(0, 0, 0, []))
  }

  function Begin(s: Store, batches: seq<seq<Item>>): System {
    System(s, seq(|batches|, i requires 0 <= i < |batches| => Fresh(batches[i])))
  }

  /** Whatever the schedule: rows stay consistent and Jobs are only appended; every run's counters add up; and each
      Job created is reported by exactly one run. */
  lemma InterleavingIsSafe(
    cfg: Config, sources: map<string, nat>, s: Store, batches: seq<seq<Item>>, schedule: seq<nat>)
    requires Consistent(cfg.text, s)
    ensures var end := Run(cfg, sources, Begin(s, batches), schedule);
            Consistent(cfg.text, end.store) && Extends(s, end.store) && ReportsExact(end, |s.jobs|)
            && forall i :: 0 <= i < |end.workers| ==> TallyOk(end.workers[i])
  {
    RunOk(cfg, sources, Begin(s, batches), schedule, |s.jobs|);
  }

  /** After any interleaving, persisting a finished batch again creates nothing, provided its items have external
      ids: a run that lost an insert race still finds its listing. */
  lemma RerunAfterInterleaving(
    cfg: Config, sources: map<string, nat>, s: Store, batches: seq<seq<Item>>, schedule: seq<nat>, i: nat)
    requires Consistent(cfg.text, s)
    requires var end := Run(cfg, sources, Begin(s, batches), schedule);
             i < |end.workers| && end.workers[i].Finished()
             && forall k :: 0 <= k < |end.workers[i].batch| ==> end.workers[i].batch[k].externalId.Some?
    ensures var end := Run(cfg, sources, Begin(s, batches), schedule);
            PersistAll(cfg, sources, end.store, end.workers[i].batch).1.created == 0
  {
    var end := Run(cfg, sources, Begin(s, batches), schedule);
    RunOk(cfg, sources, Begin(s, batches), schedule, |s.jobs|);
    var w := end.workers[i];
    assert WorkerOk(cfg, sources, end.store, w);
    forall k | 0 <= k < |w.batch| ensures ItemSettled(cfg, sources, end.store, w.batch[k]) {
      assert KeyedIsListed(sources, end.store, w.batch[k]);
    }
    CreatesNothingIff(cfg, sources, end.store, w.batch);
  }
}
