/** The per-source throttle many workers share: a fixed-window counter that makes callers wait for the next window.
    Time is milliseconds on one clock; a counter is identified by its window. */
module Throttle {
  import opened Prelude

  const WINDOW := 60_000
  const LIFETIME := 90_000

  function WindowOf(clock: int): int {
    clock / WINDOW
  }

  /** No `until` means the expiry has not been set yet. */
  datatype Counter = Counter(count: nat, until: Option<int>)

  datatype Worker =
    | Idle
    | Ready(clock: int)
    | First(clock: int)
    | Refused(clock: int)
    | Asleep(clock: int, since: int)

  /** `attempts` and `grants` record the clock reading of every count taken and of every call let through. */
  datatype State = State(
    now: int, counters: map<int, Counter>, workers: seq<Worker>, attempts: seq<int>, grants: seq<int>)
  {
    predicate Live(w: int) {
      w in counters && (counters[w].until.Some? ==> now < counters[w].until.value)
    }

    function Count(w: int): nat {
      if Live(w) then counters[w].count else 0
    }
  }

  datatype Event =
    | Pass(d: nat)
    | Look(i: nat)
    | Increment(i: nat)
    | Expire(i: nat)
    | Sleep(i: nat)
    | Wake(i: nat)

  function Step(s: State, perMinute: nat, e: Event): State {
    match e
    case Pass(d) => s.(now := s.now + d)
    case Look(i) =>
      if i < |s.workers| && s.workers[i].Idle? then s.(workers := s.workers[i := Ready(s.now)]) else s
    case Increment(i) =>
      if i < |s.workers| && s.workers[i].Ready? then TakeCount(s, perMinute, i, s.workers[i].clock) else s
    case Expire(i) =>
      if i < |s.workers| && s.workers[i].First? then SetExpiry(s, i, WindowOf(s.workers[i].clock)) else s
    case Sleep(i) =>
      if i < |s.workers| && s.workers[i].Refused? then
        s.(workers := s.workers[i := Asleep(s.workers[i].clock, s.now)])
      else s
    case Wake(i) =>
      if i < |s.workers| && s.workers[i].Asleep?
         && s.now >= s.workers[i].since + (WindowOf(s.workers[i].clock) + 1) * WINDOW - s.workers[i].clock
      then s.(workers := s.workers[i := Ready(s.now)])
      else s
  }

  /** One increment: the count it returns decides. */
  function TakeCount(s: State, perMinute: nat, i: nat, clock: int): State
    requires i < |s.workers|
  {
    var w := WindowOf(clock);
    var n := s.Count(w) + 1;
    State(
      s.now,
      s.counters[w := Counter(n, if s.Live(w) then s.counters[w].until else None)],
      s.workers[i := if n == 1 then First(clock) else if n <= perMinute then Idle else Refused(clock)],
      s.attempts + [clock],
      if n <= perMinute then s.grants + [clock] else s.grants)
  }

  function SetExpiry(s: State, i: nat, w: int): State
    requires i < |s.workers|
  {
    s.(counters := if s.Live(w) then s.counters[w := s.counters[w].(until := Some(s.now + LIFETIME))] else s.counters,
       workers := s.workers[i := Idle])
  }

  function Run(s: State, perMinute: nat, events: seq<Event>): State {
    if events == [] then s
    else Step(Run(s, perMinute, events[..|events| - 1]), perMinute, events[|events| - 1])
  }

  function Init(now: int, workers: nat): State {
    State(now, map[], seq(workers, i => Idle), [], [])
  }

  // ----- exactness -----

  function CountIn(clocks: seq<int>, w: int): nat {
    if clocks == [] then 0
    else CountIn(clocks[..|clocks| - 1], w) + (if WindowOf(clocks[|clocks| - 1]) == w then 1 else 0)
  }

  /** How long after the end of its window a counter is certain to be remembered: thirty seconds. */
  const TOLERANCE := LIFETIME - WINDOW

  /** Less than `late` has passed since the window ended. */
  predicate Within(now: int, w: int, late: int) {
    now < (w + 1) * WINDOW + late
  }

  /** An increment is prompt when it is issued less than `late` after its window ends. */
  predicate Prompt(s: State, late: int, e: Event) {
    e.Increment? && e.i < |s.workers| && s.workers[e.i].Ready? ==>
      Within(s.now, WindowOf(s.workers[e.i].clock), late)
  }

  predicate PromptRun(s: State, perMinute: nat, late: int, events: seq<Event>) {
    if events == [] then true
    else
      var before := events[..|events| - 1];
      PromptRun(s, perMinute, late, before) && Prompt(Run(s, perMinute, before), late, events[|events| - 1])
  }

  ghost predicate ClocksPast(s: State) {
    forall i :: 0 <= i < |s.workers| && !s.workers[i].Idle? ==> s.workers[i].clock <= s.now
  }

  ghost predicate SleepersPast(s: State) {
    forall i :: 0 <= i < |s.workers| && s.workers[i].Asleep? ==> s.workers[i].clock <= s.workers[i].since <= s.now
  }

  ghost predicate ExpiriesLate(s: State) {
    forall w :: w in s.counters && s.counters[w].until.Some? ==>
      s.counters[w].until.value >= w * WINDOW + LIFETIME
  }

  ghost predicate CountersExact(s: State) {
    forall w :: Within(s.now, w, TOLERANCE) ==> s.Count(w) == CountIn(s.attempts, w)
  }

  ghost predicate GrantsExact(s: State, perMinute: nat) {
    forall w :: CountIn(s.grants, w) == Min(CountIn(s.attempts, w), perMinute)
  }

  ghost predicate Sound(s: State, perMinute: nat) {
    ClocksPast(s) && SleepersPast(s) && ExpiriesLate(s) && CountersExact(s) && GrantsExact(s, perMinute)
  }

  lemma CountAppended(clocks: seq<int>, clock: int, w: int)
    ensures CountIn(clocks + [clock], w) == CountIn(clocks, w) + (if WindowOf(clock) == w then 1 else 0)
  {
    assert (clocks + [clock])[..|clocks|] == clocks;
  }

  lemma PassKeeps(s: State, perMinute: nat, d: nat)
    requires Sound(s, perMinute)
    ensures Sound(Step(s, perMinute, Pass(d)), perMinute)
  {
    var t := Step(s, perMinute, Pass(d));
    forall w | Within(t.now, w, TOLERANCE) ensures t.Count(w) == CountIn(t.attempts, w) {
      assert Within(s.now, w, TOLERANCE);
      assert t.Live(w) == s.Live(w);
    }
  }

  lemma TakeCountClocks(s: State, perMinute: nat, i: nat, clock: int)
    requires ClocksPast(s) && SleepersPast(s) && i < |s.workers| && clock <= s.now
    ensures ClocksPast(TakeCount(s, perMinute, i, clock)) && SleepersPast(TakeCount(s, perMinute, i, clock))
  {
  }

  lemma TakeCountExpiries(s: State, perMinute: nat, i: nat, clock: int)
    requires ExpiriesLate(s) && i < |s.workers|
    ensures ExpiriesLate(TakeCount(s, perMinute, i, clock))
  {
  }

  /** An increment moves its window's counter and its attempts alike, and no other window's. */
  lemma TakeCountCounter(s: State, perMinute: nat, i: nat, clock: int, w: int)
    requires i < |s.workers|
    ensures var t := TakeCount(s, perMinute, i, clock);
            t.Count(w) - s.Count(w) == CountIn(t.attempts, w) - CountIn(s.attempts, w)
  {
    CountAppended(s.attempts, clock, w);
  }

  lemma TakeCountGrants(s: State, perMinute: nat, i: nat, clock: int, w: int)
    requires i < |s.workers| && s.Count(WindowOf(clock)) == CountIn(s.attempts, WindowOf(clock))
    requires CountIn(s.grants, w) == Min(CountIn(s.attempts, w), perMinute)
    ensures var t := TakeCount(s, perMinute, i, clock);
            CountIn(t.grants, w) == Min(CountIn(t.attempts, w), perMinute)
  {
    CountAppended(s.attempts, clock, w);
    CountAppended(s.grants, clock, w);
  }

  lemma TakeCountKeeps(s: State, perMinute: nat, i: nat, clock: int)
    requires Sound(s, perMinute) && i < |s.workers| && clock <= s.now && Within(s.now, WindowOf(clock), TOLERANCE)
    ensures Sound(TakeCount(s, perMinute, i, clock), perMinute)
  {
    TakeCountClocks(s, perMinute, i, clock);
    TakeCountExpiries(s, perMinute, i, clock);
    forall w ensures var t := TakeCount(s, perMinute, i, clock);
                     (Within(t.now, w, TOLERANCE) ==> t.Count(w) == CountIn(t.attempts, w))
                     && CountIn(t.grants, w) == Min(CountIn(t.attempts, w), perMinute) {
      TakeCountCounter(s, perMinute, i, clock, w);
      TakeCountGrants(s, perMinute, i, clock, w);
    }
  }

  lemma ExpiryIsLate(now: int, clock: int)
    requires clock <= now
    ensures now + LIFETIME >= WindowOf(clock) * WINDOW + LIFETIME
  {
  }

  lemma SetExpiryKeeps(s: State, perMinute: nat, i: nat)
    requires Sound(s, perMinute) && i < |s.workers| && s.workers[i].First?
    ensures Sound(SetExpiry(s, i, WindowOf(s.workers[i].clock)), perMinute)
  {
    var w := WindowOf(s.workers[i].clock);
    var t := SetExpiry(s, i, w);
    ExpiryIsLate(s.now, s.workers[i].clock);
    forall v ensures t.Count(v) == s.Count(v) {
    }
  }

  lemma StepKeeps(s: State, perMinute: nat, late: int, e: Event)
    requires Sound(s, perMinute) && late <= TOLERANCE && Prompt(s, late, e)
    ensures Sound(Step(s, perMinute, e), perMinute)
  {
    match e {
      case Pass(d) => PassKeeps(s, perMinute, d);
      case Increment(i) =>
        if i < |s.workers| && s.workers[i].Ready? { TakeCountKeeps(s, perMinute, i, s.workers[i].clock); }
      case Expire(i) =>
        if i < |s.workers| && s.workers[i].First? { SetExpiryKeeps(s, perMinute, i); }
      case _ =>
        assert forall w :: Step(s, perMinute, e).Count(w) == s.Count(w);
    }
  }

  lemma {:induction false} RunKeeps(s: State, perMinute: nat, late: int, events: seq<Event>)
    requires Sound(s, perMinute) && late <= TOLERANCE && PromptRun(s, perMinute, late, events)
    ensures Sound(Run(s, perMinute, events), perMinute)
    decreases |events|
  {
    if events != [] {
      var before := events[..|events| - 1];
      RunKeeps(s, perMinute, late, before);
      StepKeeps(Run(s, perMinute, before), perMinute, late, events[|events| - 1]);
    }
  }

  lemma InitIsSound(now: int, workers: nat, perMinute: nat)
    ensures Sound(Init(now, workers), perMinute)
  {
  }

  /** For any number of workers, in any interleaving: a window lets through every attempt up to the budget and no
      attempt beyond it. */
  lemma GrantsPerWindow(now: int, workers: nat, perMinute: nat, late: int, events: seq<Event>, w: int)
    requires late <= TOLERANCE && PromptRun(Init(now, workers), perMinute, late, events)
    ensures var t := Run(Init(now, workers), perMinute, events);
            CountIn(t.grants, w) == Min(CountIn(t.attempts, w), perMinute)
  {
    InitIsSound(now, workers, perMinute);
    RunKeeps(Init(now, workers), perMinute, late, events);
  }

  // ----- any sixty seconds -----

  function CountFrom(clocks: seq<int>, start: int): nat {
    if clocks == [] then 0
    else
      CountFrom(clocks[..|clocks| - 1], start)
      + (if start <= clocks[|clocks| - 1] < start + WINDOW then 1 else 0)
  }

  lemma {:induction false} SpanMeetsTwoWindows(clocks: seq<int>, start: int)
    ensures CountFrom(clocks, start) <= CountIn(clocks, WindowOf(start)) + CountIn(clocks, WindowOf(start) + 1)
    decreases |clocks|
  {
    if clocks != [] {
      SpanMeetsTwoWindows(clocks[..|clocks| - 1], start);
    }
  }

  /** Wherever a minute starts, at most twice the budget was let through on readings taken inside it. */
  lemma GrantsPerMinute(now: int, workers: nat, perMinute: nat, late: int, events: seq<Event>, start: int)
    requires late <= TOLERANCE && PromptRun(Init(now, workers), perMinute, late, events)
    ensures CountFrom(Run(Init(now, workers), perMinute, events).grants, start) <= 2 * perMinute
  {
    var t := Run(Init(now, workers), perMinute, events);
    GrantsPerWindow(now, workers, perMinute, late, events, WindowOf(start));
    GrantsPerWindow(now, workers, perMinute, late, events, WindowOf(start) + 1);
    SpanMeetsTwoWindows(t.grants, start);
  }

  // ----- waiting -----

  /** A refused caller looks again in a strictly later window, although it computes how long to sleep from a reading
      taken before it was refused. */
  lemma NextLookIsLater(s: State, perMinute: nat, i: nat)
    requires SleepersPast(s) && i < |s.workers| && s.workers[i].Asleep?
    ensures var t := Step(s, perMinute, Wake(i));
            t == s || (t.workers[i].Ready? && WindowOf(t.workers[i].clock) > WindowOf(s.workers[i].clock))
  {
    LaterWindow(s.workers[i].clock, s.workers[i].since, s.now);
  }

  lemma LaterWindow(clock: int, since: int, now: int)
    requires clock <= since
    ensures now >= since + (WindowOf(clock) + 1) * WINDOW - clock ==> WindowOf(now) > WindowOf(clock)
  {
  }

  // ----- how late an increment may be -----

  /** An increment delayed until its counter expired exceeds a window's full budget, in any state. */
  lemma LateIncrementExceedsBudget(s: State, perMinute: nat, i: nat, d: nat)
    requires Sound(s, perMinute) && perMinute > 0 && i < |s.workers| && s.workers[i].Ready?
    requires var w := WindowOf(s.workers[i].clock);
             CountIn(s.grants, w) == perMinute
             && w in s.counters && s.counters[w].until.Some? && s.now + d >= s.counters[w].until.value
    ensures var w := WindowOf(s.workers[i].clock);
            CountIn(Step(Step(s, perMinute, Pass(d)), perMinute, Increment(i)).grants, w) == perMinute + 1
    ensures s.now + d >= (WindowOf(s.workers[i].clock) + 1) * WINDOW + 30_000
  {
    CountAppended(s.grants, s.workers[i].clock, WindowOf(s.workers[i].clock));
  }

  /** Worker 1 looks; worker 0 then takes `k` calls in the same instant. */
  function Burst(k: nat): seq<Event> {
    if k == 0 then [Look(1)] else Burst(k - 1) + [Look(0), Increment(0), Expire(0)]
  }

  function Zeros(k: nat): seq<int> {
    seq(k, _ => 0)
  }

  function AfterBurst(k: nat): State {
    State(0, if k == 0 then map[] else map[0 := Counter(k, Some(LIFETIME))], [Idle, Ready(0)], Zeros(k), Zeros(k))
  }

  lemma RunMore(s: State, perMinute: nat, late: int, events: seq<Event>, e: Event)
    ensures Run(s, perMinute, events + [e]) == Step(Run(s, perMinute, events), perMinute, e)
    ensures PromptRun(s, perMinute, late, events + [e]) <==>
            PromptRun(s, perMinute, late, events) && Prompt(Run(s, perMinute, events), late, e)
  {
    assert (events + [e])[..|events|] == events;
  }

  lemma OneCall(perMinute: nat, k: nat)
    requires k < perMinute
    ensures var looked := Step(AfterBurst(k), perMinute, Look(0));
            var counted := Step(looked, perMinute, Increment(0));
            looked.workers == [Ready(0), Ready(0)] && looked.now == 0
            && Step(counted, perMinute, Expire(0)) == AfterBurst(k + 1)
  {
    assert Zeros(k) + [0] == Zeros(k + 1);
    var looked := Step(AfterBurst(k), perMinute, Look(0));
    assert looked.workers == [Ready(0), Ready(0)];
    var counted := Step(looked, perMinute, Increment(0));
    assert counted.workers == [if k == 0 then First(0) else Idle, Ready(0)];
    assert Step(counted, perMinute, Expire(0)).workers == [Idle, Ready(0)];
    assert Step(counted, perMinute, Expire(0)).counters == AfterBurst(k + 1).counters;
  }

  lemma RunThree(s: State, perMinute: nat, late: int, front: seq<Event>, a: Event, b: Event, c: Event)
    ensures var x := Step(Run(s, perMinute, front), perMinute, a);
            var y := Step(x, perMinute, b);
            Run(s, perMinute, front + [a, b, c]) == Step(y, perMinute, c)
    ensures var x := Step(Run(s, perMinute, front), perMinute, a);
            var y := Step(x, perMinute, b);
            PromptRun(s, perMinute, late, front + [a, b, c]) <==>
            PromptRun(s, perMinute, late, front) && Prompt(Run(s, perMinute, front), late, a) && Prompt(x, late, b)
            && Prompt(y, late, c)
  {
    RunMore(s, perMinute, late, front, a);
    RunMore(s, perMinute, late, front + [a], b);
    RunMore(s, perMinute, late, front + [a] + [b], c);
    assert front + [a] + [b] + [c] == front + [a, b, c];
  }

  lemma {:induction false} BurstRuns(perMinute: nat, late: int, k: nat)
    requires k <= perMinute && late > 0
    ensures Run(Init(0, 2), perMinute, Burst(k)) == AfterBurst(k)
    ensures PromptRun(Init(0, 2), perMinute, late, Burst(k))
    decreases k
  {
    var start := Init(0, 2);
    if k == 0 {
      RunMore(start, perMinute, late, [], Look(1));
      assert [] + [Look(1)] == Burst(k);
      assert Step(start, perMinute, Look(1)).workers == [Idle, Ready(0)];
    } else {
      BurstRuns(perMinute, late, k - 1);
      BurstGrows(perMinute, late, k - 1);
    }
  }

  lemma BurstGrows(perMinute: nat, late: int, k: nat)
    requires k < perMinute && late > 0
    requires Run(Init(0, 2), perMinute, Burst(k)) == AfterBurst(k) && PromptRun(Init(0, 2), perMinute, late, Burst(k))
    ensures Run(Init(0, 2), perMinute, Burst(k + 1)) == AfterBurst(k + 1)
    ensures PromptRun(Init(0, 2), perMinute, late, Burst(k + 1))
  {
    OneCall(perMinute, k);
    RunThree(Init(0, 2), perMinute, late, Burst(k), Look(0), Increment(0), Expire(0));
  }

  lemma {:induction false} CountZeros(k: nat)
    ensures CountIn(Zeros(k), 0) == k
    decreases k
  {
    if k > 0 {
      assert Zeros(k)[..k - 1] == Zeros(k - 1);
      CountZeros(k - 1);
    }
  }

  /** A full budget, then one call exactly thirty seconds after its window: it is let through as well. */
  function LateRun(perMinute: nat): seq<Event> {
    Burst(perMinute) + [Pass(LIFETIME)] + [Increment(1)]
  }

  lemma LateCall(perMinute: nat, late: int)
    requires perMinute > 0 && late > TOLERANCE
    ensures var waited := Step(AfterBurst(perMinute), perMinute, Pass(LIFETIME));
            var t := Step(waited, perMinute, Increment(1));
            Prompt(waited, late, Increment(1)) && t.attempts == Zeros(perMinute + 1) && t.grants == Zeros(perMinute + 1)
  {
    assert Zeros(perMinute) + [0] == Zeros(perMinute + 1);
    var waited := Step(AfterBurst(perMinute), perMinute, Pass(LIFETIME));
    assert waited.workers[1] == Ready(0) && !waited.Live(0);
  }

  lemma LateRunBreaksBudget(perMinute: nat, late: int)
    requires perMinute > 0 && late > TOLERANCE
    ensures PromptRun(Init(0, 2), perMinute, late, LateRun(perMinute))
    ensures !GrantsExact(Run(Init(0, 2), perMinute, LateRun(perMinute)), perMinute)
  {
    var start, burst := Init(0, 2), Burst(perMinute);
    BurstRuns(perMinute, late, perMinute);
    RunMore(start, perMinute, late, burst, Pass(LIFETIME));
    RunMore(start, perMinute, late, burst + [Pass(LIFETIME)], Increment(1));
    LateCall(perMinute, late);
    CountZeros(perMinute + 1);
    BudgetExceeded(Run(start, perMinute, LateRun(perMinute)), perMinute, 0);
  }

  lemma BudgetExceeded(s: State, perMinute: nat, w: int)
    ensures CountIn(s.grants, w) > perMinute ==> !GrantsExact(s, perMinute)
  {
  }

  /** Every run whose increments come less than `late` after their windows keeps every window's budget. */
  ghost predicate BudgetKept(perMinute: nat, late: int) {
    forall now: int, workers: nat, events: seq<Event> :: PromptRun(Init(now, workers), perMinute, late, events) ==>
      GrantsExact(Run(Init(now, workers), perMinute, events), perMinute)
  }

  /** The tolerance is exactly thirty seconds, for every budget: the extra half minute of the counter's life. */
  lemma BudgetKeptIff(perMinute: nat, late: int)
    requires perMinute > 0
    ensures BudgetKept(perMinute, late) <==> late <= 30_000
  {
    if late <= TOLERANCE {
      forall now: int, workers: nat, events: seq<Event> | PromptRun(Init(now, workers), perMinute, late, events)
        ensures GrantsExact(Run(Init(now, workers), perMinute, events), perMinute)
      {
        InitIsSound(now, workers, perMinute);
        RunKeeps(Init(now, workers), perMinute, late, events);
      }
    } else {
      LateRunBreaksBudget(perMinute, late);
    }
  }

  // ----- one caller's loop -----

  /** What one turn of the loop meets: how long it starts late, and the delays before the two store calls. */
  datatype Turn = Turn(wait: nat, increment: nat, expire: nat)

  datatype Store = Store(now: int, counters: map<int, Counter>)

  function Increased(s: Store, w: int): (Store, nat) {
    var live := w in s.counters && (s.counters[w].until.Some? ==> s.now < s.counters[w].until.value);
    var n := if live then s.counters[w].count + 1 else 1;
    (s.(counters := s.counters[w := Counter(n, if live then s.counters[w].until else None)]), n)
  }

  function Expiring(s: Store, w: int): Store {
    if w in s.counters && (s.counters[w].until.Some? ==> s.now < s.counters[w].until.value) then
      s.(counters := s.counters[w := s.counters[w].(until := Some(s.now + LIFETIME))])
    else s
  }

  /** How long a refused caller sleeps: from its clock reading to the end of its window. */
  function Nap(clock: int): (r: nat)
    ensures 0 < r <= WINDOW
  {
    (WindowOf(clock) + 1) * WINDOW - clock
  }

  /** One turn: the tables after it, and whether the caller was let through. */
  function TurnOf(s: Store, perMinute: nat, turn: Turn): (Store, bool) {
    var w := WindowOf(s.now + turn.wait);
    var (counted, n) := Increased(s.(now := s.now + turn.wait + turn.increment), w);
    var late := counted.(now := counted.now + turn.expire);
    (if n == 1 then Expiring(late, w) else late, n <= perMinute)
  }

  /** A refused caller is asleep until the time its nap asks for. */
  predicate MayWake(s: State, w: Worker) {
    w.Asleep? && s.now >= w.since + Nap(w.clock)
  }

  /** A refused caller may look again once it has slept. */
  lemma NapEnds(s: State, perMinute: nat, i: nat)
    requires i < |s.workers| && s.workers[i].Refused?
    ensures var rested := Step(Step(s, perMinute, Sleep(i)), perMinute, Pass(Nap(s.workers[i].clock)));
            rested.workers[i] == Asleep(s.workers[i].clock, s.now) && MayWake(rested, rested.workers[i])
            && rested.counters == s.counters && rested.now == s.now + Nap(s.workers[i].clock)
  {
  }

  /** A turn of the loop is the shared machine's steps, taken by a caller nobody interrupts, first or after a nap. */
  lemma TurnIsSteps(s: State, perMinute: nat, i: nat, turn: Turn)
    requires i < |s.workers| && (s.workers[i].Idle? || MayWake(s, s.workers[i]))
    ensures var look := if s.workers[i].Idle? then Look(i) else Wake(i);
            var looked := Step(Step(s, perMinute, Pass(turn.wait)), perMinute, look);
            var counted := Step(Step(looked, perMinute, Pass(turn.increment)), perMinute, Increment(i));
            var done := Step(Step(counted, perMinute, Pass(turn.expire)), perMinute, Expire(i));
            var (t, granted) := TurnOf(Store(s.now, s.counters), perMinute, turn);
            t == Store(done.now, done.counters)
            && done.attempts == s.attempts + [s.now + turn.wait]
            && done.grants == (if granted then s.grants + [s.now + turn.wait] else s.grants)
            && (perMinute > 0 && !granted ==> done.workers[i] == Refused(s.now + turn.wait))
  {
    var look := if s.workers[i].Idle? then Look(i) else Wake(i);
    var looked := Step(Step(s, perMinute, Pass(turn.wait)), perMinute, look);
    var before := Step(looked, perMinute, Pass(turn.increment));
    var w := WindowOf(s.now + turn.wait);
    assert before.workers[i] == Ready(s.now + turn.wait);
    var counted := Step(before, perMinute, Increment(i));
    assert Store(counted.now, counted.counters)
        == Increased(Store(s.now + turn.wait + turn.increment, s.counters), w).0;
  }

  /** One turn and, if it is refused, the nap after it. */
  function NextTurn(s: Store, perMinute: nat, turn: Turn): (Store, bool) {
    var (t, granted) := TurnOf(s, perMinute, turn);
    (if granted then t else Rested(s, t, turn), granted)
  }

  /** The tables after the turns that are taken, and the number of the one that is let through, or 0. */
  function Turns(s: Store, perMinute: nat, turns: seq<Turn>): (Store, nat)
    decreases |turns|
  {
    if turns == [] then (s, 0)
    else
      var (t, granted) := NextTurn(s, perMinute, turns[0]);
      if granted then (t, 1)
      else
        var (u, n) := Turns(t, perMinute, turns[1..]);
        (u, if n == 0 then 0 else n + 1)
  }

  /** The outcome of the remaining turns, counted from the first. */
  function From(s: Store, perMinute: nat, turns: seq<Turn>, i: nat): (Store, nat)
    requires i <= |turns|
  {
    var (t, n) := Turns(s, perMinute, turns[i..]);
    (t, if n == 0 then 0 else n + i)
  }

  lemma FromNext(s: Store, perMinute: nat, turns: seq<Turn>, i: nat)
    requires i < |turns|
    ensures var (t, granted) := NextTurn(s, perMinute, turns[i]);
            From(s, perMinute, turns, i) == if granted then (t, i + 1) else From(t, perMinute, turns, i + 1)
  {
    assert turns[i..][0] == turns[i] && turns[i..][1..] == turns[i + 1..];
  }

  /** After the nap that follows a refused turn. */
  function Rested(s: Store, t: Store, turn: Turn): Store {
    t.(now := t.now + Nap(s.now + turn.wait))
  }

  /** The clock readings of the turns that are taken. */
  function Readings(s: Store, perMinute: nat, turns: seq<Turn>): seq<int>
    decreases |turns|
  {
    if turns == [] then []
    else
      var (t, granted) := TurnOf(s, perMinute, turns[0]);
      [s.now + turns[0].wait]
      + (if granted then [] else Readings(Rested(s, t, turns[0]), perMinute, turns[1..]))
  }

  lemma RestedIsLater(s: Store, perMinute: nat, turn: Turn)
    ensures var t := TurnOf(s, perMinute, turn).0;
            WindowOf(Rested(s, t, turn).now) > WindowOf(s.now + turn.wait)
  {
    LaterWindow(s.now + turn.wait, s.now + turn.wait, Rested(s, TurnOf(s, perMinute, turn).0, turn).now);
  }

  /** However the calls are delayed, every turn of the loop reads the clock in a later window than the one before, and
      the caller is let through at most once, by its last turn. */
  lemma {:induction false} TurnsLookLater(s: Store, perMinute: nat, turns: seq<Turn>)
    ensures var clocks := Readings(s, perMinute, turns);
            (forall i :: 0 <= i < |clocks| ==> clocks[i] >= s.now)
            && (forall i, k :: 0 <= i < k < |clocks| ==> WindowOf(clocks[i]) < WindowOf(clocks[k]))
    ensures var (_, n) := Turns(s, perMinute, turns);
            |Readings(s, perMinute, turns)| == if n == 0 then |turns| else n
    decreases |turns|
  {
    if turns != [] && !TurnOf(s, perMinute, turns[0]).1 {
      var rested := Rested(s, TurnOf(s, perMinute, turns[0]).0, turns[0]);
      var later := Readings(rested, perMinute, turns[1..]);
      TurnsLookLater(rested, perMinute, turns[1..]);
      RestedIsLater(s, perMinute, turns[0]);
      forall i | 0 <= i < |later| ensures WindowOf(later[i]) > WindowOf(s.now + turns[0].wait) {
        SameOrLater(rested.now, later[i]);
      }
    }
  }

  lemma SameOrLater(a: int, b: int)
    requires a <= b
    ensures WindowOf(a) <= WindowOf(b)
  {
  }

  class SourceThrottle {
    const perMinute: nat
    var now: int
    var counters: map<int, Counter>

    constructor (perMinute: nat, now: int)
      ensures this.perMinute == perMinute && View() == Store(now, map[])
    {
      this.perMinute, this.now, counters := perMinute, now, map[];
    }

    function View(): Store
      reads this
    {
      Store(now, counters)
    }

    predicate Live(w: int)
      reads this
    {
      w in counters && (counters[w].until.Some? ==> now < counters[w].until.value)
    }

    /** The loop's body: read the clock, count, set the expiry on the first count, decide, sleep if refused. */
    method TakeTurn(turn: Turn) returns (granted: bool)
      modifies this
      ensures (View(), granted) == NextTurn(old(View()), perMinute, turn)
    {
      now := now + turn.wait;
      var clock := now;
      var w := WindowOf(clock);
      now := now + turn.increment;
      var count := 1;
      if Live(w) {
        count := counters[w].count + 1;
        counters := counters[w := counters[w].(count := count)];
      } else {
        counters := counters[w := Counter(1, None)];
      }
      now := now + turn.expire;
      if count == 1 && Live(w) {
        counters := counters[w := counters[w].(until := Some(now + LIFETIME))];
      }
      granted := count <= perMinute;
      if !granted {
        now := now + Nap(clock);
      }
    }

    /** The loop, for as many turns as are given: the turn that let the caller through, or 0 while it still waits.
        Between turns it sleeps for what was left of the window it read. */
    method Acquire(turns: seq<Turn>) returns (granted: nat)
      modifies this
      ensures (View(), granted) == Turns(old(View()), perMinute, turns)
    {
      for i := 0 to |turns|
        invariant Turns(old(View()), perMinute, turns) == From(View(), perMinute, turns, i)
      {
        FromNext(View(), perMinute, turns, i);
        var ok := TakeTurn(turns[i]);
        if ok {
          return i + 1;
        }
      }
      granted := 0;
    }
  }
}
