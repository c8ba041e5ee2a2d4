/** Exactly which batches keep contents unique however their runs overlap: those of which no two items race. */
module DedupRaces {
  import opened Prelude
  import opened JobIdentity
  import opened DuplicateDetection
  import opened JobStore
  import opened Deduplication
  import opened DedupInterleaving
  import opened DedupRefinement
  import opened DedupContent

  // ----- the earliest race -----

  predicate SameUnkeyedContent(sources: map<string, nat>, x: Item, hash: string) {
    KnownSource(sources, x) && x.externalId.None? && x.contentHash == hash
  }

  /** No earlier item could have stored the content for want of a key of its own. */
  ghost predicate Clean(sources: map<string, nat>, items: seq<Item>, hash: string) {
    forall k :: 0 <= k < |items| ==> !SameUnkeyedContent(sources, items[k], hash)
  }

  /** An earlier item of the same content without a key races in place of the later one. */
  lemma {:induction false} EarliestRace(sources: map<string, nat>, a: seq<Item>, p: nat, b: seq<Item>, q: nat)
    returns (x: nat, y: nat)
    requires Racing(sources, a, p, b, q)
    ensures Racing(sources, a, x, b, y)
    ensures Clean(sources, a[..x], a[x].contentHash) && Clean(sources, b[..y], a[x].contentHash)
    decreases p + q
  {
    if k: nat :| k < p && SameUnkeyedContent(sources, a[k], a[p].contentHash) {
      x, y := EarliestRace(sources, a, k, b, q);
    } else if k: nat :| k < q && SameUnkeyedContent(sources, b[k], a[p].contentHash) {
      x, y := EarliestRace(sources, a, p, b, k);
    } else {
      x, y := p, q;
    }
  }

  // ----- a store that recognises the items before them, and nothing else -----

  /** By its key if it has one, otherwise by its content. */
  predicate Recognised(s: Store, item: Item, source: nat) {
    if item.externalId.Some? then ListingKnown(s, item, source) else FindByContentHash(s, item.contentHash).Some?
  }

  /** A row for the item without company and URL; one that is found by its key alone is deleted. */
  function AddRow(s: Store, item: Item, source: nat): Store {
    Store(
      s.companies,
      s.jobs + [Job(item.externalId, source, None, item.posting, None, item.companyName, item.contentHash, None,
                    item.externalId.Some?)],
      s.listings + [NewListing(|s.jobs|, source, item, true)])
  }

  function Noted(sources: map<string, nat>, s: Store, item: Item): Store {
    if item.sourceName !in sources || Recognised(s, item, sources[item.sourceName]) then s
    else AddRow(s, item, sources[item.sourceName])
  }

  function Backdrop(sources: map<string, nat>, items: seq<Item>): Store {
    if items == [] then Store([], [], [])
    else Noted(sources, Backdrop(sources, items[..|items| - 1]), items[|items| - 1])
  }

  /** Rows no candidate search and no URL lookup finds. */
  ghost predicate Bare(s: Store) {
    s.companies == [] && forall j :: 0 <= j < |s.jobs| ==> s.jobs[j].companyId.None? && s.jobs[j].canonicalUrl.None?
  }

  lemma AddRowKeeps(text: Text, s: Store, item: Item, source: nat)
    requires Consistent(text, s) && HashesUnique(s) && Bare(s) && !Recognised(s, item, source)
    ensures var t := AddRow(s, item, source);
            Consistent(text, t) && HashesUnique(t) && Bare(t) && Extends(s, t) && Recognised(t, item, source)
  {
    var t := AddRow(s, item, source);
    forall i: nat, j: nat
      ensures IsPrimaryOf(t, i, j) <==> IsPrimaryOf(s, i, j) || (i == |s.listings| && j == |s.jobs|) {}
    forall j: nat | j < |t.jobs| ensures HasPrimary(t, j) {
      if j < |s.jobs| {
        assert HasPrimary(s, j);
        var i: nat :| IsPrimaryOf(s, i, j);
        assert IsPrimaryOf(t, i, j);
      } else {
        assert IsPrimaryOf(t, |s.listings|, j);
      }
    }
    assert t.listings[|s.listings|].sourceId == source && t.listings[|s.listings|].externalId == item.externalId;
    assert t.jobs[|s.jobs|].contentHash == item.contentHash;
  }

  lemma RecognisedStays(s: Store, t: Store, item: Item, source: nat)
    requires Extends(s, t) && Recognised(s, item, source)
    ensures Recognised(t, item, source)
  {
    if item.externalId.Some? {
      ListingKeyStays(s, t, item, source);
    } else {
      var j := FindByContentHash(s, item.contentHash).value;
      assert t.jobs[j] == s.jobs[j];
    }
  }

  predicate KnownIsRecognised(sources: map<string, nat>, s: Store, item: Item) {
    KnownSource(sources, item) ==> Recognised(s, item, sources[item.sourceName])
  }

  ghost predicate AllRecognised(sources: map<string, nat>, s: Store, items: seq<Item>) {
    forall k :: 0 <= k < |items| ==> KnownIsRecognised(sources, s, items[k])
  }

  lemma NotedKeeps(text: Text, sources: map<string, nat>, s: Store, item: Item)
    requires Consistent(text, s) && HashesUnique(s) && Bare(s)
    ensures var t := Noted(sources, s, item);
            Consistent(text, t) && HashesUnique(t) && Bare(t) && Extends(s, t) && KnownIsRecognised(sources, t, item)
  {
    if KnownSource(sources, item) && !Recognised(s, item, sources[item.sourceName]) {
      AddRowKeeps(text, s, item, sources[item.sourceName]);
    }
  }

  lemma StillRecognised(sources: map<string, nat>, s: Store, t: Store, items: seq<Item>)
    requires Extends(s, t) && AllRecognised(sources, s, items)
    ensures AllRecognised(sources, t, items)
  {
    forall k | 0 <= k < |items| ensures KnownIsRecognised(sources, t, items[k]) {
      assert KnownIsRecognised(sources, s, items[k]);
      if KnownSource(sources, items[k]) { RecognisedStays(s, t, items[k], sources[items[k].sourceName]); }
    }
  }

  lemma {:induction false} BackdropRecognises(text: Text, sources: map<string, nat>, items: seq<Item>)
    ensures var s := Backdrop(sources, items);
            Consistent(text, s) && HashesUnique(s) && Bare(s) && AllRecognised(sources, s, items)
    decreases |items|
  {
    if items != [] {
      var front, item := items[..|items| - 1], items[|items| - 1];
      var s, t := Backdrop(sources, front), Backdrop(sources, items);
      BackdropRecognises(text, sources, front);
      NotedKeeps(text, sources, s, item);
      StillRecognised(sources, s, t, front);
      forall k | 0 <= k < |items| ensures KnownIsRecognised(sources, t, items[k]) {
        assert k < |front| ==> KnownIsRecognised(sources, t, front[k]);
      }
    }
  }

  /** What is new to all the items is new to the backdrop. */
  lemma {:induction false} BackdropIgnores(sources: map<string, nat>, items: seq<Item>, item: Item)
    requires KnownSource(sources, item) && Clean(sources, items, item.contentHash)
    requires forall k :: 0 <= k < |items| && KnownSource(sources, items[k]) ==> !ShareKey(sources, items[k], item)
    ensures var s := Backdrop(sources, items);
            !ListingKnown(s, item, sources[item.sourceName]) && FindByContentHash(s, item.contentHash).None?
    decreases |items|
  {
    if items != [] {
      var front, last := items[..|items| - 1], items[|items| - 1];
      BackdropIgnores(sources, front, item);
      var s, t := Backdrop(sources, front), Backdrop(sources, items);
      assert !SameUnkeyedContent(sources, last, item.contentHash);
      if t != s {
        assert !ShareKey(sources, items[|front|], item);
        assert t.jobs[|s.jobs|].deleted || t.jobs[|s.jobs|].contentHash != item.contentHash;
        var l := t.listings[|s.listings|];
        assert item.externalId.Some? ==> !(l.sourceId == sources[item.sourceName] && l.externalId == item.externalId);
      }
    }
  }

  // ----- running what is recognised -----

  /** No listing key appears. */
  ghost predicate NoNewKeys(s: Store, t: Store) {
    forall item: Item, source: nat :: ListingKnown(t, item, source) ==> ListingKnown(s, item, source)
  }

  lemma RefreshKeepsKeys(s: Store, i: nat, item: Item)
    ensures NoNewKeys(s, RefreshListing(s, i, item))
  {
    var t := RefreshListing(s, i, item);
    forall x: Item, source: nat | ListingKnown(t, x, source) ensures ListingKnown(s, x, source) {
      var j := FindListing(t, source, x.externalId.value).value;
      assert s.listings[j].sourceId == source && s.listings[j].externalId == x.externalId;
    }
  }

  lemma AppendKeepsKeys(s: Store, job: nat, source: nat, item: Item)
    requires item.externalId.None?
    ensures NoNewKeys(s, AppendListing(s, job, source, item))
  {
    var t := AppendListing(s, job, source, item);
    forall x: Item, from: nat | ListingKnown(t, x, from) ensures ListingKnown(s, x, from) {
      var j := FindListing(t, from, x.externalId.value).value;
      assert j < |s.listings| && s.listings[j] == t.listings[j];
    }
  }

  lemma RecognisedPersist(cfg: Config, s: Store, item: Item, source: nat)
    requires Consistent(cfg.text, s) && Recognised(s, item, source)
    ensures var (t, created) := Persist(cfg, s, item, source);
            t.jobs == s.jobs && created.None? && NoNewKeys(s, t)
  {
    var (r, c) := ResolveCompany(cfg.text, s, item);
    SameRowsSameLookups(s, r, item, source);
    assert r.jobs == s.jobs && r.listings == s.listings;
    if item.externalId.Some? {
      RefreshKeepsKeys(r, FindListing(r, source, item.externalId.value).value, item);
    } else {
      var job := FindExisting(r, item).value;
      var found := FindUnkeyedListing(r, job, source, item.canonicalUrl);
      if found.Some? { RefreshKeepsKeys(r, found.value, item); } else { AppendKeepsKeys(r, job, source, item); }
    }
    SameListingsSameKeys(s, r);
  }

  lemma SameListingsSameKeys(s: Store, t: Store)
    requires s.listings == t.listings
    ensures forall item: Item, source: nat :: ListingKnown(t, item, source) == ListingKnown(s, item, source)
  {
  }

  /** A batch of recognised items adds no Job and no listing key. */
  lemma {:induction false} RecognisedBatch(cfg: Config, sources: map<string, nat>, s: Store, batch: seq<Item>)
    requires Consistent(cfg.text, s) && AllRecognised(sources, s, batch)
    ensures var t := PersistAll(cfg, sources, s, batch).0;
            Consistent(cfg.text, t) && Extends(s, t) && t.jobs == s.jobs && NoNewKeys(s, t)
    decreases |batch|
  {
    if batch != [] {
      var front, item := batch[..|batch| - 1], batch[|batch| - 1];
      assert AllRecognised(sources, s, front);
      RecognisedBatch(cfg, sources, s, front);
      BatchEffect(cfg, sources, s, batch);
      if KnownSource(sources, item) {
        assert KnownIsRecognised(sources, s, batch[|front|]);
        var t := PersistAll(cfg, sources, s, front).0;
        RecognisedStays(s, t, item, sources[item.sourceName]);
        RecognisedPersist(cfg, t, item, sources[item.sourceName]);
      }
    }
  }

  /** An item the backdrop did not know is new to every store with the same Jobs and keys. */
  lemma StaysUnknown(cfg: Config, s: Store, t: Store, item: Item, source: nat)
    requires Bare(s) && t.jobs == s.jobs && NoNewKeys(s, t)
    requires !ListingKnown(s, item, source) && FindByContentHash(s, item.contentHash).None?
    ensures !Known(cfg, t, item, source)
  {
    var company := FindCompany(t, KeyOf(cfg.text, item.companyName));
    if company.Some? {
      NoLiveJobs(t.jobs, company.value);
      NoCandidatesNoMerge(cfg, t, item, company.value);
    }
  }

  // ----- bringing two runs to the race -----

  /** A worker brought to position `p` of its batch by turns of its own. */
  lemma ReachPosition(cfg: Config, sources: map<string, nat>, sys: System, i: nat, p: nat) returns (n: nat)
    requires i < |sys.workers| && p <= |sys.workers[i].batch| && sys.workers[i] == Fresh(sys.workers[i].batch)
    ensures var (t, tally) := PersistAll(cfg, sources, sys.store, sys.workers[i].batch[..p]);
            Run(cfg, sources, sys, Turns(i, n))
            == System(t, sys.workers[i := Worker(sys.workers[i].batch, p, Ready, tally)])
  {
    var w := sys.workers[i];
    n := LoneRunIsPersistBatch(cfg, sources, sys.store, w.batch, p);
    TurnsAreSolo(cfg, sources, Alone(sys.store, w), 0, n);
    TurnsAreSolo(cfg, sources, sys, i, n);
    var (t, v) := Solo(Turn(cfg, sources), sys.store, w, n);
    assert [w][0 := v] == [v];
  }

  predicate At(w: Worker, batch: seq<Item>, p: nat) {
    w.batch == batch && w.pos == p && w.pc == Ready
  }

  /** The same when the items before `p` are recognised: no Job and no key is added, and the others stay put. */
  lemma ReachRecognised(cfg: Config, sources: map<string, nat>, sys: System, i: nat, p: nat) returns (n: nat)
    requires i < |sys.workers| && p <= |sys.workers[i].batch| && sys.workers[i] == Fresh(sys.workers[i].batch)
    requires Consistent(cfg.text, sys.store) && AllRecognised(sources, sys.store, sys.workers[i].batch[..p])
    ensures var t := Run(cfg, sources, sys, Turns(i, n));
            Consistent(cfg.text, t.store) && Extends(sys.store, t.store)
            && t.store.jobs == sys.store.jobs && NoNewKeys(sys.store, t.store)
            && |t.workers| == |sys.workers| && At(t.workers[i], sys.workers[i].batch, p)
            && forall k :: 0 <= k < |sys.workers| && k != i ==> t.workers[k] == sys.workers[k]
  {
    n := ReachPosition(cfg, sources, sys, i, p);
    RecognisedBatch(cfg, sources, sys.store, sys.workers[i].batch[..p]);
  }

  /** Two runs of recognised items reach any two positions without adding a Job or a key. */
  lemma ReachPositions(
    cfg: Config, sources: map<string, nat>, s: Store, batches: seq<seq<Item>>, i: nat, p: nat, k: nat, q: nat)
    returns (schedule: seq<nat>)
    requires Consistent(cfg.text, s) && i < |batches| && k < |batches| && i != k
    requires p <= |batches[i]| && q <= |batches[k]|
    requires AllRecognised(sources, s, batches[i][..p]) && AllRecognised(sources, s, batches[k][..q])
    ensures var sys := Run(cfg, sources, Begin(s, batches), schedule);
            AllOk(cfg, sources, sys) && |sys.workers| == |batches|
            && sys.store.jobs == s.jobs && NoNewKeys(s, sys.store)
            && At(sys.workers[i], batches[i], p) && At(sys.workers[k], batches[k], q)
  {
    var start := Begin(s, batches);
    var m := ReachRecognised(cfg, sources, start, i, p);
    var middle := Run(cfg, sources, start, Turns(i, m));
    StillRecognised(sources, s, middle.store, batches[k][..q]);
    var n := ReachRecognised(cfg, sources, middle, k, q);
    RunInTwo(cfg, sources, start, Turns(i, m), Turns(k, n));
    schedule := Turns(i, m) + Turns(k, n);
    RunOk(cfg, sources, start, schedule, |s.jobs|);
  }

  /** From the backdrop, two racing items are reached while both are new. */
  lemma RaceIsReached(
    cfg: Config, sources: map<string, nat>, batches: seq<seq<Item>>, i: nat, p: nat, k: nat, q: nat)
    returns (s: Store, schedule: seq<nat>)
    requires i < |batches| && k < |batches| && i != k && Racing(sources, batches[i], p, batches[k], q)
    requires Clean(sources, batches[i][..p], batches[i][p].contentHash)
    requires Clean(sources, batches[k][..q], batches[i][p].contentHash)
    ensures Consistent(cfg.text, s) && HashesUnique(s)
    ensures var sys := Run(cfg, sources, Begin(s, batches), schedule);
            AllOk(cfg, sources, sys) && |sys.workers| == |batches|
            && At(sys.workers[i], batches[i], p) && At(sys.workers[k], batches[k], q)
            && AtNewItem(cfg, sources, sys.store, sys.workers[i]) && AtNewItem(cfg, sources, sys.store, sys.workers[k])
  {
    var a, b := batches[i][p], batches[k][q];
    var front, rest := batches[i][..p], batches[k][..q];
    s := Backdrop(sources, front + rest);
    BackdropRecognises(cfg.text, sources, front + rest);
    RecognisedParts(sources, s, front, rest);
    NothingShared(sources, batches[i], p, batches[k], q);
    BackdropIgnores(sources, front + rest, a);
    BackdropIgnores(sources, front + rest, b);
    schedule := ReachPositions(cfg, sources, s, batches, i, p, k, q);
    var sys := Run(cfg, sources, Begin(s, batches), schedule);
    StaysUnknown(cfg, s, sys.store, a, sources[a.sourceName]);
    StaysUnknown(cfg, s, sys.store, b, sources[b.sourceName]);
  }

  lemma RecognisedParts(sources: map<string, nat>, s: Store, front: seq<Item>, rest: seq<Item>)
    requires AllRecognised(sources, s, front + rest)
    ensures AllRecognised(sources, s, front) && AllRecognised(sources, s, rest)
  {
    forall k | 0 <= k < |front| ensures KnownIsRecognised(sources, s, front[k]) {
      assert KnownIsRecognised(sources, s, (front + rest)[k]);
    }
    forall k | 0 <= k < |rest| ensures KnownIsRecognised(sources, s, rest[k]) {
      assert KnownIsRecognised(sources, s, (front + rest)[|front| + k]);
    }
  }

  lemma NothingShared(sources: map<string, nat>, a: seq<Item>, p: nat, b: seq<Item>, q: nat)
    requires Racing(sources, a, p, b, q)
    requires Clean(sources, a[..p], a[p].contentHash) && Clean(sources, b[..q], a[p].contentHash)
    ensures var items := a[..p] + b[..q];
            Clean(sources, items, a[p].contentHash)
            && forall k :: 0 <= k < |items| && KnownSource(sources, items[k]) ==>
                 !ShareKey(sources, items[k], a[p]) && !ShareKey(sources, items[k], b[q])
  {
    var items := a[..p] + b[..q];
    forall k | 0 <= k < |items| && KnownSource(sources, items[k])
      ensures !ShareKey(sources, items[k], a[p]) && !ShareKey(sources, items[k], b[q])
    {
      if k < p {
        assert !Shields(sources, a[k], a[p], b[q]);
      } else {
        assert !Shields(sources, b[k - p], a[p], b[q]);
      }
    }
    forall k | 0 <= k < |items| ensures !SameUnkeyedContent(sources, items[k], a[p].contentHash) {
      assert k < p ==> items[k] == a[..p][k];
      assert k >= p ==> items[k] == b[..q][k - p];
    }
  }

  // ----- both directions -----

  ghost predicate AlwaysUnique(cfg: Config, sources: map<string, nat>, batches: seq<seq<Item>>) {
    forall s: Store, schedule: seq<nat> :: Consistent(cfg.text, s) && HashesUnique(s) ==>
      HashesUnique(Run(cfg, sources, Begin(s, batches), schedule).store)
  }

  lemma RaceBreaks(cfg: Config, sources: map<string, nat>, batches: seq<seq<Item>>, i: nat, p: nat, k: nat, q: nat)
    requires i < |batches| && k < |batches| && i != k && Racing(sources, batches[i], p, batches[k], q)
    ensures !AlwaysUnique(cfg, sources, batches)
  {
    var x, y := EarliestRace(sources, batches[i], p, batches[k], q);
    var s, before := RaceIsReached(cfg, sources, batches, i, x, k, y);
    var start := Begin(s, batches);
    var after := TwoRunsCanDuplicateContent(cfg, sources, Run(cfg, sources, start, before), i, k);
    RunInTwo(cfg, sources, start, before, after);
    assert !HashesUnique(Run(cfg, sources, Begin(s, batches), before + after).store);
  }

  /** Any number of runs of any batches keep contents unique, from every store and under every schedule, exactly when
      no two of their items race. */
  lemma AlwaysUniqueIff(cfg: Config, sources: map<string, nat>, batches: seq<seq<Item>>)
    ensures AlwaysUnique(cfg, sources, batches) <==> NoRace(sources, batches)
  {
    if NoRace(sources, batches) {
      forall s: Store, schedule: seq<nat> | Consistent(cfg.text, s) && HashesUnique(s)
        ensures HashesUnique(Run(cfg, sources, Begin(s, batches), schedule).store)
      {
        RunsWithoutRaceKeepHashesUnique(cfg, sources, s, batches, schedule);
      }
    } else {
      var i: nat, k: nat, p: nat, q: nat :|
        i < |batches| && k < |batches| && i != k && Racing(sources, batches[i], p, batches[k], q);
      RaceBreaks(cfg, sources, batches, i, p, k, q);
    }
  }

  /** For two runs of one item each: exactly when the items differ in content or share their listing key. */
  lemma TwoItemsIff(cfg: Config, sources: map<string, nat>, a: Item, b: Item)
    requires KnownSource(sources, a) && KnownSource(sources, b)
    ensures AlwaysUnique(cfg, sources, [[a], [b]]) <==> a.contentHash != b.contentHash || ShareKey(sources, a, b)
  {
    var batches := [[a], [b]];
    AlwaysUniqueIff(cfg, sources, batches);
    if !Compatible(sources, a, b) {
      assert Racing(sources, batches[0], 0, batches[1], 0);
    }
  }

  /** In longer batches two incompatible items need not race: an earlier delivery of one listing keeps them apart. */
  lemma EarlierDeliveryShields(cfg: Config, sources: map<string, nat>, x: Item, a: Item, b: Item)
    requires KnownSource(sources, x) && KnownSource(sources, a) && KnownSource(sources, b)
    requires ShareKey(sources, x, b)
    ensures AlwaysUnique(cfg, sources, [[x, a], [b]])
  {
    var batches := [[x, a], [b]];
    forall i, k, p: nat, q: nat | 0 <= i < |batches| && 0 <= k < |batches| && i != k
      ensures !Racing(sources, batches[i], p, batches[k], q)
    {
      if p < |batches[i]| && q < |batches[k]| {
        if i == 0 && p == 1 {
          assert batches[0][0] == x;
        } else if k == 0 && q == 1 {
          assert batches[0][0] == x;
        }
      }
    }
    AlwaysUniqueIff(cfg, sources, batches);
  }
}
