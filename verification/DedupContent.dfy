/** Content under interleaving: when overlapping runs keep one content in one Job, and how they can store it twice. */
module DedupContent {
  import opened Prelude
  import opened JobIdentity
  import opened DuplicateDetection
  import opened JobStore
  import opened Deduplication
  import opened DedupInterleaving
  import opened DedupRefinement

  predicate KnownSource(sources: map<string, nat>, item: Item) {
    item.sourceName in sources
  }

  /** Two deliveries of one listing: the same source and the same external id. */
  predicate ShareKey(sources: map<string, nat>, a: Item, b: Item)
    requires KnownSource(sources, a) && KnownSource(sources, b)
  {
    a.externalId.Some? && a.externalId == b.externalId && sources[a.sourceName] == sources[b.sourceName]
  }

  /** The two items cannot be stored as two Jobs of one content: they differ in content or share a listing key. */
  predicate Compatible(sources: map<string, nat>, a: Item, b: Item) {
    KnownSource(sources, a) && KnownSource(sources, b) && a.contentHash == b.contentHash ==> ShareKey(sources, a, b)
  }

  /** Whoever has passed `x` has left a listing under the key of one of the two. */
  predicate Shields(sources: map<string, nat>, x: Item, a: Item, b: Item)
    requires KnownSource(sources, a) && KnownSource(sources, b)
  {
    KnownSource(sources, x) && (ShareKey(sources, x, a) || ShareKey(sources, x, b))
  }

  /** Two runs can both come to insert these items: they are incompatible, and no earlier item of either batch
      delivers the listing of one of them. */
  ghost predicate Racing(sources: map<string, nat>, a: seq<Item>, p: nat, b: seq<Item>, q: nat) {
    p < |a| && q < |b| && !Compatible(sources, a[p], b[q])
    && (forall k :: 0 <= k < p ==> !Shields(sources, a[k], a[p], b[q]))
    && (forall k :: 0 <= k < q ==> !Shields(sources, b[k], a[p], b[q]))
  }

  /** No two items of different batches race; items of one batch may be anything. */
  ghost predicate NoRace(sources: map<string, nat>, batches: seq<seq<Item>>) {
    forall i, k, p: nat, q: nat :: 0 <= i < |batches| && 0 <= k < |batches| && i != k ==>
      !Racing(sources, batches[i], p, batches[k], q)
  }

  /** All items of different batches are compatible. */
  ghost predicate Apart(sources: map<string, nat>, batches: seq<seq<Item>>) {
    forall i, k, p, q :: 0 <= i < |batches| && 0 <= k < |batches| && i != k
                         && 0 <= p < |batches[i]| && 0 <= q < |batches[k]|
      ==> Compatible(sources, batches[i][p], batches[k][q])
  }

  // ----- safety -----

  /** Between the content lookup and the insert, the content is new unless the listing has appeared meanwhile. */
  predicate StillNew(s: Store, item: Item, source: nat, pc: Pc) {
    pc.UrlLookup? || pc.Candidates? || pc.Insert? ==>
      FindByContentHash(s, item.contentHash).None? || ListingKnown(s, item, source)
  }

  ghost predicate WorkerNew(sources: map<string, nat>, s: Store, w: Worker) {
    w.pc != Ready && OnAnItem(sources, w) ==> StillNew(s, w.batch[w.pos], sources[w.batch[w.pos].sourceName], w.pc)
  }

  lemma SameJobsSameHashes(s: Store, t: Store, hash: string)
    requires t.jobs == s.jobs
    ensures FindByContentHash(t, hash) == FindByContentHash(s, hash)
  {
  }

  /** Every call either leaves the Jobs alone or inserts its item, whose listing it did not know. */
  lemma CallInserts(cfg: Config, s: Store, item: Item, source: nat, pc: Pc)
    requires pc != Ready
    ensures var t := Call(cfg, s, item, source, pc).0;
            t.jobs == s.jobs
            || (pc.Insert? && !ListingKnown(s, item, source)
                && |t.jobs| == |s.jobs| + 1 && t.jobs[..|s.jobs|] == s.jobs
                && t.jobs[|s.jobs|].contentHash == item.contentHash && !t.jobs[|s.jobs|].deleted
                && (item.externalId.Some? ==> ListingKnown(t, item, source)))
  {
    if pc.Insert? && !ListingKnown(s, item, source) {
      var t := CreateJob(s, item, source, Some(pc.company), pc.duplicateOf).0;
      assert t.listings[|s.listings|].sourceId == source && t.listings[|s.listings|].externalId == item.externalId;
    }
  }

  lemma CallKeepsNew(cfg: Config, s: Store, item: Item, source: nat, pc: Pc)
    requires pc != Ready && StillNew(s, item, source, pc)
    ensures var (t, outcome) := Call(cfg, s, item, source, pc);
            outcome.Goto? ==> StillNew(t, item, source, outcome.pc)
  {
  }

  lemma InsertedHash(s: Store, t: Store, hash: string, other: string)
    requires |t.jobs| == |s.jobs| + 1 && t.jobs[..|s.jobs|] == s.jobs && t.jobs[|s.jobs|].contentHash == hash
    ensures hash != other && FindByContentHash(s, other).None? ==> FindByContentHash(t, other).None?
    ensures HashesUnique(s) && FindByContentHash(s, hash).None? ==> HashesUnique(t)
  {
    assert forall j :: 0 <= j < |s.jobs| ==> t.jobs[j] == s.jobs[j];
  }

  lemma StepKeepsUnique(cfg: Config, sources: map<string, nat>, s: Store, w: Worker)
    requires HashesUnique(s) && WorkerNew(sources, s, w) && !w.Finished()
    requires WorkerPcOk(cfg, sources, s, w)
    ensures HashesUnique(Step(cfg, sources, s, w).0)
    ensures WorkerNew(sources, Step(cfg, sources, s, w).0, Step(cfg, sources, s, w).1)
  {
    if w.pc != Ready {
      var item := w.batch[w.pos];
      var source := sources[item.sourceName];
      CallInserts(cfg, s, item, source, w.pc);
      CallKeepsNew(cfg, s, item, source, w.pc);
      var t := Call(cfg, s, item, source, w.pc).0;
      if t.jobs != s.jobs { InsertedHash(s, t, item.contentHash, item.contentHash); }
    }
  }

  /** A step on one item leaves an item of another run as new as it was, if the two are compatible or one of them is
      listed. */
  lemma OtherStaysNew(cfg: Config, sources: map<string, nat>, s: Store, item: Item, pc: Pc, other: Item, at: Pc)
    requires KnownSource(sources, item) && KnownSource(sources, other)
    requires Compatible(sources, item, other) || ListingKnown(s, item, sources[item.sourceName])
             || ListingKnown(s, other, sources[other.sourceName])
    requires pc != Ready && Extends(s, Call(cfg, s, item, sources[item.sourceName], pc).0)
    requires StillNew(s, other, sources[other.sourceName], at)
    ensures StillNew(Call(cfg, s, item, sources[item.sourceName], pc).0, other, sources[other.sourceName], at)
  {
    var t := Call(cfg, s, item, sources[item.sourceName], pc).0;
    CallInserts(cfg, s, item, sources[item.sourceName], pc);
    if ListingKnown(s, other, sources[other.sourceName]) {
      ListingKeyStays(s, t, other, sources[other.sourceName]);
    } else if t.jobs == s.jobs {
      SameJobsSameHashes(s, t, other.contentHash);
    } else {
      InsertedHash(s, t, item.contentHash, other.contentHash);
    }
  }

  ghost predicate AllNew(sources: map<string, nat>, sys: System) {
    HashesUnique(sys.store)
    && forall i :: 0 <= i < |sys.workers| ==> WorkerNew(sources, sys.store, sys.workers[i])
  }

  function Batches(sys: System): (r: seq<seq<Item>>)
    ensures |r| == |sys.workers| && forall i :: 0 <= i < |r| ==> r[i] == sys.workers[i].batch
  {
    seq(|sys.workers|, i requires 0 <= i < |sys.workers| => sys.workers[i].batch)
  }

  /** A worker that has passed a delivery of the item's listing has left that listing in the store. */
  lemma PassedShield(sources: map<string, nat>, s: Store, w: Worker, item: Item, k: nat)
    requires PassedAreListed(sources, s, w) && k < w.pos && k < |w.batch|
    requires KnownSource(sources, w.batch[k]) && KnownSource(sources, item) && ShareKey(sources, w.batch[k], item)
    ensures ListingKnown(s, item, sources[item.sourceName])
  {
    assert KeyedIsListed(sources, s, w.batch[k]);
  }

  /** Of two items that do not race, at different runs, one is listed or they are compatible. */
  lemma OneIsListed(sources: map<string, nat>, s: Store, w: Worker, v: Worker)
    requires PassedAreListed(sources, s, w) && PassedAreListed(sources, s, v)
    requires OnAnItem(sources, w) && OnAnItem(sources, v) && !Racing(sources, w.batch, w.pos, v.batch, v.pos)
    ensures var a, b := w.batch[w.pos], v.batch[v.pos];
            Compatible(sources, a, b) || ListingKnown(s, a, sources[a.sourceName])
            || ListingKnown(s, b, sources[b.sourceName])
  {
    var a, b := w.batch[w.pos], v.batch[v.pos];
    if k: nat :| k < w.pos && Shields(sources, w.batch[k], a, b) {
      PassedShield(sources, s, w, if ShareKey(sources, w.batch[k], a) then a else b, k);
    } else if k: nat :| k < v.pos && Shields(sources, v.batch[k], a, b) {
      PassedShield(sources, s, v, if ShareKey(sources, v.batch[k], a) then a else b, k);
    }
  }

  lemma OthersStayNew(cfg: Config, sources: map<string, nat>, sys: System, i: nat, k: nat)
    requires AllOk(cfg, sources, sys) && AllNew(sources, sys) && NoRace(sources, Batches(sys))
    requires i < |sys.workers| && k < |sys.workers| && i != k && !sys.workers[i].Finished()
    ensures WorkerNew(sources, Step(cfg, sources, sys.store, sys.workers[i]).0, sys.workers[k])
  {
    var w, v := sys.workers[i], sys.workers[k];
    if w.pc != Ready && v.pc != Ready && OnAnItem(sources, v) {
      StepStore(cfg, sources, sys.store, w);
      assert !Racing(sources, Batches(sys)[i], w.pos, Batches(sys)[k], v.pos);
      OneIsListed(sources, sys.store, w, v);
      OtherStaysNew(cfg, sources, sys.store, w.batch[w.pos], w.pc, v.batch[v.pos], v.pc);
    }
  }

  lemma NextNew(cfg: Config, sources: map<string, nat>, sys: System, i: nat)
    requires AllOk(cfg, sources, sys) && AllNew(sources, sys) && NoRace(sources, Batches(sys))
    ensures AllNew(sources, Next(cfg, sources, sys, i)) && Batches(Next(cfg, sources, sys, i)) == Batches(sys)
  {
    if i < |sys.workers| && !sys.workers[i].Finished() {
      var next := Next(cfg, sources, sys, i);
      StepKeepsUnique(cfg, sources, sys.store, sys.workers[i]);
      forall k | 0 <= k < |next.workers| ensures WorkerNew(sources, next.store, next.workers[k]) {
        if k != i { OthersStayNew(cfg, sources, sys, i, k); }
      }
      StepCounts(cfg, sources, sys.store, sys.workers[i]);
    }
  }

  lemma {:induction false} RunNew(cfg: Config, sources: map<string, nat>, sys: System, schedule: seq<nat>)
    requires AllOk(cfg, sources, sys) && AllNew(sources, sys) && NoRace(sources, Batches(sys))
    ensures AllNew(sources, Run(cfg, sources, sys, schedule))
    decreases |schedule|
  {
    if schedule != [] {
      NextOk(cfg, sources, sys, schedule[0]);
      NextNew(cfg, sources, sys, schedule[0]);
      RunNew(cfg, sources, Next(cfg, sources, sys, schedule[0]), schedule[1..]);
    }
  }

  /** Overlapping runs never store one content twice when no two of their items race: under every schedule, and
      whatever repeats inside a run. */
  lemma RunsWithoutRaceKeepHashesUnique(
    cfg: Config, sources: map<string, nat>, s: Store, batches: seq<seq<Item>>, schedule: seq<nat>)
    requires Consistent(cfg.text, s) && HashesUnique(s) && NoRace(sources, batches)
    ensures HashesUnique(Run(cfg, sources, Begin(s, batches), schedule).store)
  {
    assert Batches(Begin(s, batches)) == batches;
    RunNew(cfg, sources, Begin(s, batches), schedule);
  }

  /** In particular when items of different runs that have one content share their listing key. */
  lemma ApartRunsKeepHashesUnique(
    cfg: Config, sources: map<string, nat>, s: Store, batches: seq<seq<Item>>, schedule: seq<nat>)
    requires Consistent(cfg.text, s) && HashesUnique(s) && Apart(sources, batches)
    ensures HashesUnique(Run(cfg, sources, Begin(s, batches), schedule).store)
  {
    RunsWithoutRaceKeepHashesUnique(cfg, sources, s, batches, schedule);
  }

  // ----- the race -----

  /** Nothing on the way from here to the insert recognises the item. */
  predicate Clear(cfg: Config, s: Store, item: Item, source: nat, pc: Pc) {
    !ListingKnown(s, item, source) && FindExisting(s, item).None?
    && match pc
       case Fill(c, _) => !DecideFor(cfg, s, item, c).Duplicate?
       case KeyLookup(c) => !DecideFor(cfg, s, item, c).Duplicate?
       case HashLookup(c) => !DecideFor(cfg, s, item, c).Duplicate?
       case UrlLookup(c) => !DecideFor(cfg, s, item, c).Duplicate?
       case Candidates(c) => !DecideFor(cfg, s, item, c).Duplicate?
       case Insert(_, _) => true
       case _ => false
  }

  lemma ResolveIsClear(cfg: Config, s: Store, item: Item, source: nat)
    requires Consistent(cfg.text, s) && !Known(cfg, s, item, source)
    ensures var (t, outcome) := Call(cfg, s, item, source, Resolve);
            t.jobs == s.jobs && t.listings == s.listings && outcome.Goto? && Clear(cfg, t, item, source, outcome.pc)
  {
    var (t, c) := UpsertCompany(cfg.text, s, item.companyName);
    SameRowsSameLookups(s, t, item, source);
    ResolvedVerdict(cfg, s, item);
    SameJobsSameDecision(cfg, ResolveCompany(cfg.text, s, item).0, t, item, c);
  }

  lemma FillIsClear(cfg: Config, s: Store, item: Item, source: nat, c: nat, columns: Columns)
    requires Clear(cfg, s, item, source, Fill(c, columns))
    ensures var t := FillColumns(s, c, columns);
            t.jobs == s.jobs && t.listings == s.listings && Clear(cfg, t, item, source, KeyLookup(c))
  {
    var t := FillColumns(s, c, columns);
    SameRowsSameLookups(s, t, item, source);
    SameJobsSameDecision(cfg, s, t, item, c);
  }

  lemma ClearCall(cfg: Config, s: Store, item: Item, source: nat, pc: Pc)
    requires Clear(cfg, s, item, source, pc) && !pc.Insert?
    ensures pc != Ready
    ensures var (t, outcome) := Call(cfg, s, item, source, pc);
            t.jobs == s.jobs && t.listings == s.listings && outcome.Goto? && Clear(cfg, t, item, source, outcome.pc)
  {
    if pc.Fill? { FillIsClear(cfg, s, item, source, pc.company, pc.columns); }
  }

  /** The turn of one worker as a function of the store and the worker. */
  function Turn(cfg: Config, sources: map<string, nat>): (Store, Worker) -> (Store, Worker) {
    (s: Store, w: Worker) => if w.Finished() then (s, w) else Step(cfg, sources, s, w)
  }

  /** `n` turns of one worker, seen without the others. */
  function Solo(turn: (Store, Worker) -> (Store, Worker), s: Store, w: Worker, n: nat): (Store, Worker)
    decreases n
  {
    if n == 0 then (s, w)
    else
      var (t, v) := turn(s, w);
      Solo(turn, t, v, n - 1)
  }

  lemma {:induction false} TurnsAreSolo(cfg: Config, sources: map<string, nat>, sys: System, i: nat, n: nat)
    requires i < |sys.workers|
    ensures var (t, v) := Solo(Turn(cfg, sources), sys.store, sys.workers[i], n);
            Run(cfg, sources, sys, Turns(i, n)) == System(t, sys.workers[i := v])
    decreases n
  {
    if n == 0 {
      assert sys.workers[i := sys.workers[i]] == sys.workers;
    } else {
      assert Turns(i, n)[1..] == Turns(i, n - 1);
      var next := Next(cfg, sources, sys, i);
      var (t, v) := Turn(cfg, sources)(sys.store, sys.workers[i]);
      assert next.workers == sys.workers[i := v] && next.store == t;
      TurnsAreSolo(cfg, sources, next, i, n - 1);
      var last := Solo(Turn(cfg, sources), t, v, n - 1).1;
      assert sys.workers[i := v][i := last] == sys.workers[i := last];
    }
  }

  /** About to insert the item at `w`'s position, with no Job or listing touched since. */
  predicate AtInsert(s: Store, w: Worker, t: Store, v: Worker) {
    v.pc.Insert? && v.batch == w.batch && v.pos == w.pos && t.jobs == s.jobs && t.listings == s.listings
  }

  /** After `n` turns of its own. */
  predicate ReachesInsert(turn: (Store, Worker) -> (Store, Worker), s: Store, w: Worker, n: nat) {
    var (t, v) := Solo(turn, s, w, n);
    AtInsert(s, w, t, v)
  }

  lemma SoloStep(turn: (Store, Worker) -> (Store, Worker), s: Store, w: Worker, t: Store, v: Worker, n: nat)
    requires turn(s, w) == (t, v)
    ensures Solo(turn, s, w, n + 1) == Solo(turn, t, v, n)
  {
  }

  /** One turn on the way leads from wherever the way ends. */
  lemma OneTurnLeads(turn: (Store, Worker) -> (Store, Worker), s: Store, w: Worker, t: Store, v: Worker)
    requires turn(s, w) == (t, v)
    requires v.batch == w.batch && v.pos == w.pos && t.jobs == s.jobs && t.listings == s.listings
    ensures forall n: nat :: ReachesInsert(turn, t, v, n) ==> ReachesInsert(turn, s, w, n + 1)
  {
    forall n: nat | ReachesInsert(turn, t, v, n) ensures ReachesInsert(turn, s, w, n + 1) {
      SoloStep(turn, s, w, t, v, n);
    }
  }

  lemma ClearTurn(cfg: Config, sources: map<string, nat>, s: Store, w: Worker) returns (t: Store, v: Worker)
    requires OnAnItem(sources, w) && Clear(cfg, s, w.batch[w.pos], sources[w.batch[w.pos].sourceName], w.pc)
    requires !w.pc.Insert?
    ensures OnAnItem(sources, v) && Clear(cfg, t, v.batch[v.pos], sources[v.batch[v.pos].sourceName], v.pc)
    ensures Rank(v.pc) < Rank(w.pc)
    ensures forall n: nat ::
              ReachesInsert(Turn(cfg, sources), t, v, n) ==> ReachesInsert(Turn(cfg, sources), s, w, n + 1)
  {
    var item := w.batch[w.pos];
    ClearCall(cfg, s, item, sources[item.sourceName], w.pc);
    var outcome := Call(cfg, s, item, sources[item.sourceName], w.pc).1;
    t, v := Call(cfg, s, item, sources[item.sourceName], w.pc).0, w.(pc := outcome.pc);
    OneTurnLeads(Turn(cfg, sources), s, w, t, v);
  }

  lemma {:induction false} ClearReachesInsert(cfg: Config, sources: map<string, nat>, s: Store, w: Worker)
    returns (n: nat)
    requires OnAnItem(sources, w) && Clear(cfg, s, w.batch[w.pos], sources[w.batch[w.pos].sourceName], w.pc)
    ensures ReachesInsert(Turn(cfg, sources), s, w, n)
    decreases Rank(w.pc)
  {
    if w.pc.Insert? {
      n := 0;
    } else {
      var t, v := ClearTurn(cfg, sources, s, w);
      var m := ClearReachesInsert(cfg, sources, t, v);
      n := m + 1;
    }
  }

  /** Beginning the item and finding its company. */
  lemma NewIsClear(cfg: Config, sources: map<string, nat>, s: Store, w: Worker) returns (t: Store, v: Worker)
    requires Consistent(cfg.text, s) && OnAnItem(sources, w) && w.pc == Ready
    requires !Known(cfg, s, w.batch[w.pos], sources[w.batch[w.pos].sourceName])
    ensures OnAnItem(sources, v) && Clear(cfg, t, v.batch[v.pos], sources[v.batch[v.pos].sourceName], v.pc)
    ensures forall n: nat ::
              ReachesInsert(Turn(cfg, sources), t, v, n) ==> ReachesInsert(Turn(cfg, sources), s, Started(w), n + 1)
  {
    SoloBegins(cfg, sources, s, w);
    ResolveIsClear(cfg, s, w.batch[w.pos], sources[w.batch[w.pos].sourceName]);
    t, v := Step(cfg, sources, s, Started(w)).0, Step(cfg, sources, s, Started(w)).1;
    OneTurnLeads(Turn(cfg, sources), s, Started(w), t, v);
  }

  /** A worker about to begin an item the store does not recognise can be brought to the brink of its insert. */
  lemma NewReachesInsert(cfg: Config, sources: map<string, nat>, s: Store, w: Worker) returns (n: nat)
    requires Consistent(cfg.text, s) && OnAnItem(sources, w) && w.pc == Ready
    requires !Known(cfg, s, w.batch[w.pos], sources[w.batch[w.pos].sourceName])
    ensures ReachesInsert(Turn(cfg, sources), s, w, n)
  {
    var t, v := NewIsClear(cfg, sources, s, w);
    var m := ClearReachesInsert(cfg, sources, t, v);
    StartReaches(cfg, sources, s, w, m + 1);
    n := m + 2;
  }

  lemma StartReaches(cfg: Config, sources: map<string, nat>, s: Store, w: Worker, n: nat)
    requires OnAnItem(sources, w) && w.pc == Ready && ReachesInsert(Turn(cfg, sources), s, Started(w), n)
    ensures ReachesInsert(Turn(cfg, sources), s, w, n + 1)
  {
    OneTurnLeads(Turn(cfg, sources), s, w, s, Started(w));
  }

  lemma SoloBegins(cfg: Config, sources: map<string, nat>, s: Store, w: Worker)
    requires OnAnItem(sources, w) && w.pc == Ready
    ensures Step(cfg, sources, s, w) == (s, Started(w)) && OnAnItem(sources, Started(w))
    ensures var item := w.batch[w.pos];
            var (t, outcome) := Call(cfg, s, item, sources[item.sourceName], Resolve);
            outcome.Goto? && Step(cfg, sources, s, Started(w)) == (t, Started(w).(pc := outcome.pc))
  {
  }

  lemma {:induction false} SoloKeeps(cfg: Config, sources: map<string, nat>, s: Store, w: Worker, n: nat)
    requires Consistent(cfg.text, s) && WorkerOk(cfg, sources, s, w)
    ensures var (t, v) := Solo(Turn(cfg, sources), s, w, n);
            Consistent(cfg.text, t) && Extends(s, t) && WorkerOk(cfg, sources, t, v)
    decreases n
  {
    if n > 0 {
      var (t, v) := Turn(cfg, sources)(s, w);
      if !w.Finished() {
        StepStore(cfg, sources, s, w);
        StepKeeps(cfg, sources, s, w);
      }
      SoloKeeps(cfg, sources, t, v, n - 1);
      ExtendsTransitive(s, t, Solo(Turn(cfg, sources), t, v, n - 1).0);
    }
  }

  lemma InsertTwice(cfg: Config, sources: map<string, nat>, s: Store, w: Worker, v: Worker)
    requires OnAnItem(sources, w) && OnAnItem(sources, v) && w.pc.Insert? && v.pc.Insert?
    requires var a, b := w.batch[w.pos], v.batch[v.pos];
             a.contentHash == b.contentHash && !ShareKey(sources, a, b)
             && !ListingKnown(s, a, sources[a.sourceName]) && !ListingKnown(s, b, sources[b.sourceName])
    ensures var once := Step(cfg, sources, s, w).0;
            !HashesUnique(Step(cfg, sources, once, v).0)
  {
    var a, b := w.batch[w.pos], v.batch[v.pos];
    var once := Step(cfg, sources, s, w).0;
    assert once.listings == s.listings + [NewListing(|s.jobs|, sources[a.sourceName], a, true)];
    assert !ListingKnown(once, b, sources[b.sourceName]);
    var twice := Step(cfg, sources, once, v).0;
    assert |twice.jobs| == |s.jobs| + 2;
    assert twice.jobs[|s.jobs|].contentHash == twice.jobs[|s.jobs| + 1].contentHash;
  }

  predicate AtNewItem(cfg: Config, sources: map<string, nat>, s: Store, w: Worker) {
    OnAnItem(sources, w) && w.pc == Ready && !Known(cfg, s, w.batch[w.pos], sources[w.batch[w.pos].sourceName])
  }

  /** The race: whatever state a system of runs is in, if two of them are about to begin incompatible items that are
      new to the store, some schedule stores that content twice. */
  lemma TwoRunsCanDuplicateContent(cfg: Config, sources: map<string, nat>, sys: System, i: nat, k: nat)
    returns (schedule: seq<nat>)
    requires AllOk(cfg, sources, sys) && i < |sys.workers| && k < |sys.workers| && i != k
    requires AtNewItem(cfg, sources, sys.store, sys.workers[i]) && AtNewItem(cfg, sources, sys.store, sys.workers[k])
    requires !Compatible(sources, sys.workers[i].batch[sys.workers[i].pos], sys.workers[k].batch[sys.workers[k].pos])
    ensures !HashesUnique(Run(cfg, sources, sys, schedule).store)
  {
    var w, v := sys.workers[i], sys.workers[k];
    var m := NewReachesInsert(cfg, sources, sys.store, w);
    var (t, x) := Solo(Turn(cfg, sources), sys.store, w, m);
    SoloKeeps(cfg, sources, sys.store, w, m);
    NewStaysNew(cfg, sys.store, t, v.batch[v.pos], sources[v.batch[v.pos].sourceName]);
    var n := NewReachesInsert(cfg, sources, t, v);
    var (u, y) := Solo(Turn(cfg, sources), t, v, n);
    var middle := System(t, sys.workers[i := x]);
    var brink := System(u, middle.workers[k := y]);
    TurnsAreSolo(cfg, sources, sys, i, m);
    TurnsAreSolo(cfg, sources, middle, k, n);
    BrinkBreaks(cfg, sources, brink, i, k);
    RunInTwo(cfg, sources, sys, Turns(i, m), Turns(k, n));
    RunInTwo(cfg, sources, sys, Turns(i, m) + Turns(k, n), [i, k]);
    schedule := Turns(i, m) + Turns(k, n) + [i, k];
  }

  lemma BrinkBreaks(cfg: Config, sources: map<string, nat>, sys: System, i: nat, k: nat)
    requires i < |sys.workers| && k < |sys.workers| && i != k
    requires OnAnItem(sources, sys.workers[i]) && OnAnItem(sources, sys.workers[k])
    requires sys.workers[i].pc.Insert? && sys.workers[k].pc.Insert?
    requires var a, b := sys.workers[i].batch[sys.workers[i].pos], sys.workers[k].batch[sys.workers[k].pos];
             a.contentHash == b.contentHash && !ShareKey(sources, a, b)
             && !ListingKnown(sys.store, a, sources[a.sourceName]) && !ListingKnown(sys.store, b, sources[b.sourceName])
    ensures !HashesUnique(Run(cfg, sources, sys, [i, k]).store)
  {
    InsertTwice(cfg, sources, sys.store, sys.workers[i], sys.workers[k]);
    var once := Next(cfg, sources, sys, i);
    assert [i, k][1..] == [k] && [k][1..] == [];
    assert Run(cfg, sources, sys, [i, k]) == Run(cfg, sources, once, [k]);
    assert Run(cfg, sources, once, [k]) == Next(cfg, sources, once, k);
  }
}
