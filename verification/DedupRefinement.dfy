/** The interleaving model and the batch method agree: a worker nobody interrupts does exactly what
    `PersistBatch` does. */
module DedupRefinement {
  import opened Prelude
  import opened JobIdentity
  import opened DuplicateDetection
  import opened JobStore
  import opened Deduplication
  import opened DedupInterleaving

  /** The calls for one item, uninterrupted, until it is done. */
  function Drive(cfg: Config, s: Store, item: Item, source: nat, pc: Pc): (Store, Option<nat>)
    requires pc != Ready
    decreases Rank(pc)
  {
    var (t, outcome) := Call(cfg, s, item, source, pc);
    match outcome
    case Goto(next) => Drive(cfg, t, item, source, next)
    case Finish(created) => (t, created)
  }

  lemma DriveAttach(cfg: Config, s: Store, item: Item, source: nat, job: nat)
    ensures Drive(cfg, s, item, source, Attach(job)) == (UpsertListing(s, job, source, item), None)
  {
    var next := Call(cfg, s, item, source, Attach(job)).1;
    if next.Goto? {
      assert Drive(cfg, s, item, source, next.pc).1 == None;
    }
  }

  /** What happens from the fuzzy lookup on. */
  function Settle(cfg: Config, s: Store, item: Item, source: nat, c: nat): (Store, Option<nat>) {
    match DecideFor(cfg, s, item, c)
    case Duplicate(id, _) => (UpsertListing(s, id, source, item), None)
    case NearDuplicate(id, _) => CreateJob(s, item, source, Some(c), Some(id))
    case Distinct(_) => CreateJob(s, item, source, Some(c), None)
  }

  lemma DriveInsert(cfg: Config, s: Store, item: Item, source: nat, c: nat, duplicateOf: Option<nat>)
    ensures Drive(cfg, s, item, source, Insert(c, duplicateOf)) == CreateJob(s, item, source, Some(c), duplicateOf)
  {
  }

  lemma DriveCandidates(cfg: Config, s: Store, item: Item, source: nat, c: nat)
    ensures Drive(cfg, s, item, source, Candidates(c)) == Settle(cfg, s, item, source, c)
  {
    match DecideFor(cfg, s, item, c) {
      case Duplicate(id, _) => DriveAttach(cfg, s, item, source, id);
      case NearDuplicate(id, _) => DriveInsert(cfg, s, item, source, c, Some(id));
      case Distinct(_) => DriveInsert(cfg, s, item, source, c, None);
    }
  }

  lemma DriveHashLookup(cfg: Config, s: Store, item: Item, source: nat, c: nat)
    ensures Drive(cfg, s, item, source, HashLookup(c)) ==
            if FindExisting(s, item).Some? then (UpsertListing(s, FindExisting(s, item).value, source, item), None)
            else Settle(cfg, s, item, source, c)
  {
    DriveCandidates(cfg, s, item, source, c);
    if FindExisting(s, item).Some? {
      DriveAttach(cfg, s, item, source, FindExisting(s, item).value);
    }
  }

  lemma DriveOn(cfg: Config, s: Store, item: Item, source: nat, pc: Pc, t: Store, next: Pc)
    requires pc != Ready && Call(cfg, s, item, source, pc) == (t, Goto(next))
    ensures Drive(cfg, s, item, source, pc) == Drive(cfg, t, item, source, next)
  {
  }

  lemma DriveRefresh(cfg: Config, s: Store, item: Item, source: nat, i: nat)
    ensures Drive(cfg, s, item, source, Refresh(i)) == (RefreshListing(s, i, item), None)
  {
  }

  lemma DriveKeyLookup(cfg: Config, s: Store, item: Item, source: nat, c: nat)
    ensures Drive(cfg, s, item, source, KeyLookup(c)) == Place(cfg, s, item, source, c)
  {
    DriveOn(cfg, s, item, source, KeyLookup(c), s, AfterKeyLookup(s, item, source, c));
    if ListingKnown(s, item, source) {
      DriveRefresh(cfg, s, item, source, FindListing(s, source, item.externalId.value).value);
    } else {
      DriveHashLookup(cfg, s, item, source, c);
    }
  }

  /** One item, uninterrupted, is one `Persist`. */
  lemma DriveItem(cfg: Config, s: Store, item: Item, source: nat)
    ensures Drive(cfg, s, item, source, Resolve) == Persist(cfg, s, item, source)
  {
    var (t, c) := UpsertCompany(cfg.text, s, item.companyName);
    var columns := MissingColumns(t.companies[c], item.metadata);
    DriveKeyLookup(cfg, FillColumns(t, c, columns), item, source, c);
  }

  // ----- the same statement about schedules -----

  /** `n` turns in a row for worker `i`. */
  function Turns(i: nat, n: nat): seq<nat> {
    seq(n, _ => i)
  }

  function Alone(s: Store, w: Worker): System {
    System(s, [w])
  }

  lemma {:induction false} RunInTwo(cfg: Config, sources: map<string, nat>, sys: System, a: seq<nat>, b: seq<nat>)
    ensures Run(cfg, sources, sys, a + b) == Run(cfg, sources, Run(cfg, sources, sys, a), b)
    decreases |a|
  {
    if a == [] {
      assert a + b == b;
    } else {
      assert (a + b)[1..] == a[1..] + b;
      RunInTwo(cfg, sources, Next(cfg, sources, sys, a[0]), a[1..], b);
    }
  }

  lemma OneTurn(cfg: Config, sources: map<string, nat>, s: Store, w: Worker, n: nat)
    requires !w.Finished()
    ensures var (t, v) := Step(cfg, sources, s, w);
            Run(cfg, sources, Alone(s, w), Turns(0, n + 1)) == Run(cfg, sources, Alone(t, v), Turns(0, n))
  {
    var (t, v) := Step(cfg, sources, s, w);
    assert Turns(0, n + 1)[1..] == Turns(0, n);
    assert Next(cfg, sources, Alone(s, w), 0) == Alone(t, v);
  }

  /** Alone, the worker ends there after `n` turns. */
  predicate Ends(cfg: Config, sources: map<string, nat>, s: Store, w: Worker, t: Store, v: Worker, n: nat) {
    Run(cfg, sources, Alone(s, w), Turns(0, n)) == Alone(t, v)
  }

  lemma TurnThenRun(
    cfg: Config, sources: map<string, nat>, s: Store, w: Worker, r: Store, x: Worker, t: Store, v: Worker, n: nat)
    requires !w.Finished() && Step(cfg, sources, s, w) == (r, x) && Ends(cfg, sources, r, x, t, v, n)
    ensures Ends(cfg, sources, s, w, t, v, n + 1)
  {
    OneTurn(cfg, sources, s, w, n);
  }

  /** Driving the item on from here. */
  function Driven(cfg: Config, sources: map<string, nat>, s: Store, w: Worker): (Store, Worker)
    requires OnAnItem(sources, w) && w.pc != Ready
  {
    var item := w.batch[w.pos];
    var (t, created) := Drive(cfg, s, item, sources[item.sourceName], w.pc);
    (t, Done(w, created))
  }

  /** A turn is one call: the last of the item, or one after which the rest is driven. */
  lemma DriveTurn(cfg: Config, sources: map<string, nat>, s: Store, w: Worker)
    returns (last: bool, r: Store, x: Worker)
    requires OnAnItem(sources, w) && w.pc != Ready
    ensures Step(cfg, sources, s, w) == (r, x)
    ensures last ==> Driven(cfg, sources, s, w) == (r, x)
    ensures !last ==> OnAnItem(sources, x) && x.pc != Ready && Rank(x.pc) < Rank(w.pc)
                      && Driven(cfg, sources, r, x) == Driven(cfg, sources, s, w)
  {
    var item := w.batch[w.pos];
    var outcome := Call(cfg, s, item, sources[item.sourceName], w.pc).1;
    r := Call(cfg, s, item, sources[item.sourceName], w.pc).0;
    DriveOnce(cfg, s, item, sources[item.sourceName], w.pc, r, outcome);
    last, x := outcome.Finish?, Continue(w, outcome);
  }

  lemma DriveOnce(cfg: Config, s: Store, item: Item, source: nat, pc: Pc, t: Store, outcome: Outcome)
    requires pc != Ready && Call(cfg, s, item, source, pc) == (t, outcome)
    ensures outcome.Goto? ==> outcome.pc != Ready && Rank(outcome.pc) < Rank(pc)
    ensures Drive(cfg, s, item, source, pc)
         == if outcome.Goto? then Drive(cfg, t, item, source, outcome.pc) else (t, outcome.created)
  {
  }

  lemma {:induction false} DriveIsARun(cfg: Config, sources: map<string, nat>, s: Store, w: Worker) returns (n: nat)
    requires OnAnItem(sources, w) && w.pc != Ready
    ensures var (t, v) := Driven(cfg, sources, s, w);
            Ends(cfg, sources, s, w, t, v, n)
    decreases Rank(w.pc)
  {
    var last, r, x := DriveTurn(cfg, sources, s, w);
    var (t, v) := Driven(cfg, sources, s, w);
    var m := 0;
    if !last {
      m := DriveIsARun(cfg, sources, r, x);
    }
    TurnThenRun(cfg, sources, s, w, r, x, t, v, m);
    n := m + 1;
  }

  /** The worker after one whole item. */
  function AfterItem(cfg: Config, sources: map<string, nat>, s: Store, w: Worker): (Store, Worker)
    requires !w.Finished()
  {
    var item := w.batch[w.pos];
    if item.sourceName !in sources then (s, w.(pos := w.pos + 1))
    else
      var (t, created) := Persist(cfg, s, item, sources[item.sourceName]);
      (t, w.(pos := w.pos + 1, tally := Count(w.tally, created)))
  }

  lemma StartedCounts(w: Worker, created: Option<nat>)
    requires w.pc == Ready
    ensures Done(Started(w), created) == w.(pos := w.pos + 1, tally := Count(w.tally, created))
  {
  }

  lemma KnownItemIsARun(cfg: Config, sources: map<string, nat>, s: Store, w: Worker) returns (n: nat)
    requires OnAnItem(sources, w) && w.pc == Ready
    ensures var (t, v) := AfterItem(cfg, sources, s, w);
            Ends(cfg, sources, s, w, t, v, n)
  {
    var (t, v) := AfterItem(cfg, sources, s, w);
    ItemIsDriven(cfg, sources, s, w);
    var k := DriveIsARun(cfg, sources, s, Started(w));
    TurnThenRun(cfg, sources, s, w, s, Started(w), t, v, k);
    n := k + 1;
  }

  lemma ItemIsDriven(cfg: Config, sources: map<string, nat>, s: Store, w: Worker)
    requires OnAnItem(sources, w) && w.pc == Ready
    ensures AfterItem(cfg, sources, s, w) == Driven(cfg, sources, s, Started(w))
  {
    var item := w.batch[w.pos];
    var (t, created) := Drive(cfg, s, item, sources[item.sourceName], Resolve);
    DriveItem(cfg, s, item, sources[item.sourceName]);
    PersistedItem(cfg, sources, s, w, t, created);
  }

  lemma PersistedItem(
    cfg: Config, sources: map<string, nat>, s: Store, w: Worker, t: Store, created: Option<nat>)
    requires OnAnItem(sources, w) && w.pc == Ready
    requires Persist(cfg, s, w.batch[w.pos], sources[w.batch[w.pos].sourceName]) == (t, created)
    ensures AfterItem(cfg, sources, s, w) == (t, Done(Started(w), created))
  {
    StartedCounts(w, created);
  }

  /** One whole item, from between items to between items. */
  lemma ItemIsARun(cfg: Config, sources: map<string, nat>, s: Store, w: Worker) returns (n: nat)
    requires !w.Finished() && w.pc == Ready
    ensures var (t, v) := AfterItem(cfg, sources, s, w);
            Run(cfg, sources, Alone(s, w), Turns(0, n)) == Alone(t, v)
  {
    if OnAnItem(sources, w) {
      n := KnownItemIsARun(cfg, sources, s, w);
    } else {
      OneTurn(cfg, sources, s, w, 0);
      n := 1;
    }
  }

  /** A lone worker's turns add up to the batch method: same rows, same counters, same reported ids. */
  lemma {:induction false} LoneRunIsPersistBatch(
    cfg: Config, sources: map<string, nat>, s: Store, batch: seq<Item>, p: nat) returns (n: nat)
    requires p <= |batch|
    ensures var (t, tally) := PersistAll(cfg, sources, s, batch[..p]);
            Run(cfg, sources, Alone(s, Fresh(batch)), Turns(0, n)) == Alone(t, Worker(batch, p, Ready, tally))
    decreases p
  {
    if p == 0 {
      n := 0;
    } else {
      var m := LoneRunIsPersistBatch(cfg, sources, s, batch, p - 1);
      assert batch[..p][..p - 1] == batch[..p - 1];
      var (t, tally) := PersistAll(cfg, sources, s, batch[..p - 1]);
      var k := ItemIsARun(cfg, sources, t, Worker(batch, p - 1, Ready, tally));
      n := m + k;
      assert Turns(0, n) == Turns(0, m) + Turns(0, k);
      RunInTwo(cfg, sources, Alone(s, Fresh(batch)), Turns(0, m), Turns(0, k));
    }
  }

  // ----- content hashes -----

  /** No two live jobs share a content hash. */
  ghost predicate HashesUnique(s: Store) {
    forall i, k :: 0 <= i < k < |s.jobs| && !s.jobs[i].deleted && !s.jobs[k].deleted ==>
      s.jobs[i].contentHash != s.jobs[k].contentHash
  }

  /** One run at a time never stores the same content twice. */
  lemma {:induction false} OneRunKeepsHashesUnique(cfg: Config, sources: map<string, nat>, s: Store, batch: seq<Item>)
    requires Consistent(cfg.text, s) && HashesUnique(s)
    ensures HashesUnique(PersistAll(cfg, sources, s, batch).0)
    decreases |batch|
  {
    if batch != [] {
      var last := |batch| - 1;
      var item := batch[last];
      OneRunKeepsHashesUnique(cfg, sources, s, batch[..last]);
      BatchEffect(cfg, sources, s, batch[..last]);
      var t := PersistAll(cfg, sources, s, batch[..last]).0;
      if item.sourceName in sources {
        PersistEffect(cfg, t, item, sources[item.sourceName]);
        var (u, created) := Persist(cfg, t, item, sources[item.sourceName]);
        NewHashIsNew(t, u, item, created);
      }
    }
  }

  lemma NewHashIsNew(s: Store, t: Store, item: Item, created: Option<nat>)
    requires HashesUnique(s) && JobsAfter(s, t, item, created)
    requires created.Some? ==> FindByContentHash(s, item.contentHash).None?
    ensures HashesUnique(t)
  {
    if created.Some? {
      assert forall k :: 0 <= k < |s.jobs| ==> t.jobs[k] == s.jobs[k];
    }
  }
}
