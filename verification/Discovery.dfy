/** One discovery run: which sources it attempts, how often it calls each, and what it reports. */
module Discovery {
  import opened Prelude
  import opened JobStore
  import opened Deduplication

  // ----- calling a source -----

  /** `retryAfter` is present when the source asked for a pause. */
  datatype Outcome<T> = Returned(value: T) | Raised(retryable: bool, retryAfter: Option<real>)

  function PowerOfTwo(n: nat): real {
    if n == 0 then 1.0 else 2.0 * PowerOfTwo(n - 1)
  }

  datatype Backoff = Backoff(attempts: int, base: real, cap: real)

  function MaxCalls(b: Backoff): nat {
    if b.attempts > 1 then b.attempts else 1
  }

  function Doubled(b: Backoff, k: nat): real {
    MinR(b.cap, b.base * PowerOfTwo(k))
  }

  /** The pause after call `k`, counted from 0. */
  function Pause(b: Backoff, k: nat, jitter: real, retryAfter: Option<real>): (r: real)
    ensures jitter >= 0.0 ==> r >= Doubled(b, k)
    ensures retryAfter.Some? ==> r >= retryAfter.value
  {
    var delay := Doubled(b, k) + jitter;
    if retryAfter.Some? then MaxR(delay, retryAfter.value) else delay
  }

  /** The pause starts at the base and doubles with every call until it reaches the cap. */
  lemma BackoffDoubles(b: Backoff, k: nat)
    requires b.base >= 0.0 && b.cap >= 0.0
    ensures Doubled(b, 0) == MinR(b.cap, b.base)
    ensures Doubled(b, k + 1) == MinR(b.cap, 2.0 * Doubled(b, k))
  {
  }

  /** Jitter comes on top, and only a longer wish of the source replaces the sum. */
  lemma PauseIs(b: Backoff, k: nat, jitter: real, wish: real)
    ensures Pause(b, k, jitter, None) == Doubled(b, k) + jitter
    ensures Pause(b, k, jitter, Some(wish)) == if wish > Doubled(b, k) + jitter then wish else Doubled(b, k) + jitter
  {
  }

  /** No call follows the answer to call `k`. */
  predicate Stops<T>(b: Backoff, answer: Outcome<T>, k: nat) {
    answer.Returned? || !answer.retryable || k + 1 >= b.attempts
  }

  /** Whatever the source answers: it is called again only after a retryable failure and only within the budget, and
      the last answer is the one that counts. */
  method RetrySourceCall<T>(b: Backoff, answers: nat -> Outcome<T>, jitters: nat -> real)
    returns (result: Outcome<T>, calls: nat, pauses: seq<real>)
    ensures 1 <= calls <= MaxCalls(b) && result == answers(calls - 1)
    ensures Stops(b, result, calls - 1) && forall k :: 0 <= k < calls - 1 ==> !Stops(b, answers(k), k)
    ensures |pauses| == calls - 1
    ensures forall k :: 0 <= k < |pauses| ==>
              answers(k).Raised? && pauses[k] == Pause(b, k, jitters(k), answers(k).retryAfter)
  {
    calls, pauses := 0, [];
    while true
      invariant 0 <= calls && (calls > 0 ==> calls < b.attempts)
      invariant forall k :: 0 <= k < calls ==> !Stops(b, answers(k), k)
      invariant |pauses| == calls
      invariant forall k :: 0 <= k < |pauses| ==>
                  answers(k).Raised? && pauses[k] == Pause(b, k, jitters(k), answers(k).retryAfter)
      decreases MaxCalls(b) - calls
    {
      result := answers(calls);
      calls := calls + 1;
      if result.Returned? || !result.retryable || calls >= b.attempts {
        return;
      }
      pauses := pauses + [Pause(b, calls - 1, jitters(calls - 1), result.retryAfter)];
    }
  }

  // ----- choosing sources -----

  datatype Selection = Unknown | Selected(runnable: seq<string>, rejected: seq<string>)

  ghost predicate Distinct(names: seq<string>) {
    forall i, k :: 0 <= i < k < |names| ==> names[i] != names[k]
  }

  /** The first occurrence of each name. */
  method Unique(names: seq<string>) returns (r: seq<string>)
    ensures Distinct(r) && forall x :: x in r <==> x in names
  {
    r := [];
    for i := 0 to |names|
      invariant Distinct(r) && forall x :: x in r <==> x in names[..i]
    {
      if names[i] !in r {
        r := r + [names[i]];
      }
      assert names[..i + 1] == names[..i] + [names[i]];
    }
    assert names[..|names|] == names;
  }

  /** Every attempted source is either run or recorded as rejected, never both; asking for a disabled source is a
      recorded failure, not asking for it is nothing at all. */
  method SelectSources(requested: Option<seq<string>>, known: seq<string>, enabled: set<string>)
    returns (s: Selection)
    requires Distinct(known)
    ensures s.Unknown? <==> requested.Some? && exists x :: x in requested.value && x !in known
    ensures s.Selected? ==> Distinct(s.runnable + s.rejected)
    ensures s.Selected? ==> forall x :: x in s.runnable <==>
              x in enabled && x in (if requested.Some? then requested.value else known)
    ensures s.Selected? ==> forall x :: x in s.rejected <==>
              x !in enabled && requested.Some? && x in requested.value
  {
    if requested.Some? && exists i | 0 <= i < |requested.value| :: requested.value[i] !in known {
      return Unknown;
    }
    var names := known;
    if requested.Some? {
      names := Unique(requested.value);
    }
    var runnable, rejected := [], [];
    for i := 0 to |names|
      invariant Distinct(runnable + rejected)
      invariant forall x :: x in runnable <==> x in enabled && x in names[..i]
      invariant forall x :: x in rejected <==> x !in enabled && requested.Some? && x in names[..i]
    {
      assert names[..i + 1] == names[..i] + [names[i]];
      assert names[i] !in names[..i];
      if names[i] in enabled {
        assert (runnable + [names[i]]) + rejected == runnable + ([names[i]] + rejected);
        InsertDistinct(runnable, rejected, names[i]);
        runnable := runnable + [names[i]];
      } else if requested.Some? {
        InsertDistinct(runnable + rejected, [], names[i]);
        assert runnable + (rejected + [names[i]]) == (runnable + rejected) + [names[i]] + [];
        rejected := rejected + [names[i]];
      }
    }
    assert names[..|names|] == names;
    s := Selected(runnable, rejected);
  }

  lemma InsertDistinct(a: seq<string>, b: seq<string>, x: string)
    requires Distinct(a + b) && x !in a && x !in b
    ensures Distinct((a + [x]) + b)
  {
    var c := (a + [x]) + b;
    forall i, k | 0 <= i < k < |c| ensures c[i] != c[k] {
      assert c[i] == if i < |a| then (a + b)[i] else if i == |a| then x else (a + b)[i - 1];
      assert c[k] == if k < |a| then (a + b)[k] else if k == |a| then x else (a + b)[k - 1];
    }
  }

  // ----- the run's report -----

  datatype Status = Completed | Partial | Failed

  /** What fetching one source gave: its jobs, or an error. */
  datatype Fetch = Fetched(jobs: seq<Item>) | Broken

  datatype Report = Report(succeeded: seq<string>, failed: set<string>, status: Status, tally: Tally)

  function JobsOf(names: seq<string>, fetch: string -> Fetch): seq<Item> {
    if names == [] then []
    else
      var last := fetch(names[|names| - 1]);
      JobsOf(names[..|names| - 1], fetch) + (if last.Fetched? then last.jobs else [])
  }

  /** The jobs gathered are exactly those the sources that answered returned. */
  lemma {:induction false} GatheredIff(names: seq<string>, fetch: string -> Fetch, item: Item)
    ensures item in JobsOf(names, fetch) <==>
            exists x :: x in names && fetch(x).Fetched? && item in fetch(x).jobs
    decreases |names|
  {
    if names != [] {
      GatheredIff(names[..|names| - 1], fetch, item);
      assert names == names[..|names| - 1] + [names[|names| - 1]];
    }
  }

  lemma EarlierIsDifferent(a: seq<string>, b: seq<string>, i: nat)
    requires Distinct(a + b) && i < |a|
    ensures a[i] !in a[..i] && a[i] !in b
  {
    assert forall k :: 0 <= k < |a| ==> (a + b)[k] == a[k];
    assert forall k :: 0 <= k < |b| ==> (a + b)[|a| + k] == b[k];
  }

  /** One source's failure never cancels the others. */
  method Gather(runnable: seq<string>, fetch: string -> Fetch)
    returns (jobs: seq<Item>, succeeded: seq<string>, failed: set<string>)
    requires Distinct(runnable)
    ensures jobs == JobsOf(runnable, fetch) && Distinct(succeeded)
    ensures forall x :: x in succeeded <==> x in runnable && fetch(x).Fetched?
    ensures forall x :: x in failed <==> x in runnable && fetch(x).Broken?
  {
    jobs, succeeded, failed := [], [], {};
    for i := 0 to |runnable|
      invariant jobs == JobsOf(runnable[..i], fetch)
      invariant Distinct(succeeded)
      invariant forall x :: x in succeeded <==> x in runnable[..i] && fetch(x).Fetched?
      invariant forall x :: x in failed <==> x in runnable[..i] && fetch(x).Broken?
    {
      assert runnable + [] == runnable;
      EarlierIsDifferent(runnable, [], i);
      assert runnable[..i + 1][..i] == runnable[..i];
      assert runnable[..i + 1] == runnable[..i] + [runnable[i]];
      match fetch(runnable[i]) {
        case Fetched(found) =>
          jobs := jobs + found;
          assert runnable[i] !in succeeded;
          succeeded := succeeded + [runnable[i]];
        case Broken =>
          failed := failed + {runnable[i]};
      }
    }
    assert runnable[..|runnable|] == runnable;
  }

  /** The report accounts for every attempted source exactly once, its status says which sides are empty, and the
      jobs counted are those of the sources that answered, persisted in order. */
  method Execute(cfg: Config, db: Database, runnable: seq<string>, rejected: seq<string>, fetch: string -> Fetch)
    returns (r: Report)
    requires Distinct(runnable + rejected)
    modifies db
    ensures Distinct(r.succeeded)
    ensures forall x :: x in r.succeeded <==> x in runnable && fetch(x).Fetched?
    ensures forall x :: x in r.failed <==> x in rejected || (x in runnable && fetch(x).Broken?)
    ensures forall x :: !(x in r.succeeded && x in r.failed)
    ensures r.status == Completed <==> r.failed == {}
    ensures r.status == Failed <==> r.failed != {} && r.succeeded == []
    ensures (db.View(), r.tally) == PersistAll(cfg, db.sources, old(db.View()), JobsOf(runnable, fetch))
    ensures r.tally.found == r.tally.created + r.tally.duplicate
  {
    forall i | 0 <= i < |runnable| ensures runnable[i] !in runnable[..i] && runnable[i] !in rejected {
      EarlierIsDifferent(runnable, rejected, i);
    }
    var jobs, succeeded, failed := Gather(runnable, fetch);
    var service := new DeduplicationService(db, cfg);
    var tally := service.PersistBatch(jobs);
    CountsAddUp(cfg, db.sources, old(db.View()), jobs);
    failed := failed + set x | x in rejected;
    var status := if failed == {} then Completed else if succeeded != [] then Partial else Failed;
    r := Report(succeeded, failed, status, tally);
  }

  lemma {:induction false} CountsAddUp(cfg: Config, sources: map<string, nat>, s: Store, batch: seq<Item>)
    ensures var tally := PersistAll(cfg, sources, s, batch).1;
            tally.found == tally.created + tally.duplicate && tally.created == |tally.newIds|
    decreases |batch|
  {
    if batch != [] {
      CountsAddUp(cfg, sources, s, batch[..|batch| - 1]);
    }
  }
}
