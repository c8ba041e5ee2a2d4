/** The guard of the daily search: a key per date, set only if absent, gone a day later. Time is seconds. */
module DailyGuard {
  import opened Prelude

  const DAY := 86_400

  datatype Execution = Execution(date: int, at: int)

  /** `keys` maps a date to the moment its key expires; `executed` records the searches that ran. */
  datatype State = State(now: int, keys: map<int, int>, executed: seq<Execution>)
  {
    predicate Held(date: int) {
      date in keys && now < keys[date]
    }
  }

  /** A call for a given date, or for the UTC date read `lag` seconds before the key is set. */
  datatype Event = Pass(d: nat) | Search(today: Option<int>, lag: nat)

  function DateOf(s: State, today: Option<int>): int {
    if today.Some? then today.value else s.now / DAY
  }

  function Step(s: State, e: Event): State {
    match e
    case Pass(d) => s.(now := s.now + d)
    case Search(today, lag) =>
      var date := DateOf(s, today);
      var t := s.(now := s.now + lag);
      if t.Held(date) then t
      else State(t.now, t.keys[date := t.now + DAY], t.executed + [Execution(date, t.now)])
  }

  function Run(s: State, events: seq<Event>): State {
    if events == [] then s else Step(Run(s, events[..|events| - 1]), events[|events| - 1])
  }

  function Init(now: int): State {
    State(now, map[], [])
  }

  /** Every execution is in the past and its date is guarded for a day from it. */
  ghost predicate Guarded(s: State) {
    forall i :: 0 <= i < |s.executed| ==>
      s.executed[i].at <= s.now
      && s.executed[i].date in s.keys && s.keys[s.executed[i].date] >= s.executed[i].at + DAY
  }

  ghost predicate DayApart(s: State) {
    forall i, k :: 0 <= i < k < |s.executed| && s.executed[i].date == s.executed[k].date ==>
      s.executed[k].at >= s.executed[i].at + DAY
  }

  lemma StepKeeps(s: State, e: Event)
    requires Guarded(s) && DayApart(s)
    ensures Guarded(Step(s, e)) && DayApart(Step(s, e))
  {
  }

  lemma {:induction false} RunKeeps(s: State, events: seq<Event>)
    requires Guarded(s) && DayApart(s)
    ensures Guarded(Run(s, events)) && DayApart(Run(s, events))
    decreases |events|
  {
    if events != [] {
      RunKeeps(s, events[..|events| - 1]);
      StepKeeps(Run(s, events[..|events| - 1]), events[|events| - 1]);
    }
  }

  /** Whatever dates the calls name and however they overlap, two executions for one date lie a day apart; a retry
      after a failed execution is refused like any other call. */
  lemma ExecutionsADayApart(now: int, events: seq<Event>, i: nat, k: nat)
    requires var s := Run(Init(now), events);
             i < k < |s.executed| && s.executed[i].date == s.executed[k].date
    ensures var s := Run(Init(now), events);
            s.executed[k].at >= s.executed[i].at + DAY
  {
    RunKeeps(Init(now), events);
  }

  /** The call names the date on which its key is set. */
  predicate SameDay(s: State, e: Event) {
    e.Search? ==> DateOf(s, e.today) == (s.now + e.lag) / DAY
  }

  predicate SameDayRun(s: State, events: seq<Event>) {
    forall k | 0 <= k < |events| :: SameDay(Run(s, events[..k]), events[k])
  }

  ghost predicate Dated(s: State) {
    forall i :: 0 <= i < |s.executed| ==> s.executed[i].date == s.executed[i].at / DAY
  }

  lemma {:induction false} RunDated(s: State, events: seq<Event>)
    requires Dated(s) && SameDayRun(s, events)
    ensures Dated(Run(s, events))
    decreases |events|
  {
    if events != [] {
      var n := |events| - 1;
      forall k | 0 <= k < n ensures SameDay(Run(s, events[..n][..k]), events[..n][k]) {
        assert events[..n][..k] == events[..k];
      }
      RunDated(s, events[..n]);
      assert SameDay(Run(s, events[..n]), events[n]);
    }
  }

  /** When reading the date and setting the key fall on one day, a UTC date executes at most one search, across all
      workers and retries. */
  lemma OncePerDate(now: int, events: seq<Event>, i: nat, k: nat)
    requires SameDayRun(Init(now), events) && i < k < |Run(Init(now), events).executed|
    ensures var s := Run(Init(now), events);
            s.executed[i].date != s.executed[k].date
  {
    RunKeeps(Init(now), events);
    RunDated(Init(now), events);
    var s := Run(Init(now), events);
    assert s.executed[i].date == s.executed[i].at / DAY && s.executed[k].date == s.executed[k].at / DAY;
  }

  /** Every call names the date it reads, and sets the key at most `lag` seconds later. */
  ghost predicate Lagging(events: seq<Event>, lag: nat) {
    forall k :: 0 <= k < |events| && events[k].Search? ==> events[k].today.None? && events[k].lag <= lag
  }

  ghost predicate AtMostOnce(s: State) {
    forall i, k :: 0 <= i < k < |s.executed| ==> s.executed[i].date != s.executed[k].date
  }

  ghost predicate GuardHolds(lag: nat) {
    forall now: int, events: seq<Event> :: Lagging(events, lag) ==> AtMostOnce(Run(Init(now), events))
  }

  lemma RunMore(s: State, events: seq<Event>, e: Event)
    ensures Run(s, events + [e]) == Step(Run(s, events), e)
  {
    assert (events + [e])[..|events|] == events;
  }

  lemma ThreeSteps(s: State, a: Event, b: Event, c: Event)
    ensures Run(s, [a, b, c]) == Step(Step(Step(s, a), b), c)
  {
    RunMore(s, [], a);
    RunMore(s, [a], b);
    RunMore(s, [a, b], c);
    assert [] + [a] == [a] && [a] + [b] == [a, b] && [a, b] + [c] == [a, b, c];
  }

  lemma AnsweredAtMidnight(s: State)
    requires s == State(DAY - 1, map[0 := DAY], [Execution(0, 0)])
    ensures Step(s, Search(None, 1)).executed == [Execution(0, 0), Execution(0, DAY)]
  {
    assert DateOf(s, None) == 0 && !s.(now := DAY).Held(0);
  }

  lemma SameDateTwice(s: State)
    requires s.executed == [Execution(0, 0), Execution(0, DAY)]
    ensures !AtMostOnce(s)
  {
    assert s.executed[0].date == s.executed[1].date;
  }

  /** Midnight is run, and run again by a call that reads the date in the last second of the day and sets the key in
      the first of the next. */
  lemma MidnightRunsTwice()
    ensures !AtMostOnce(Run(Init(0), [Search(None, 0), Pass(DAY - 1), Search(None, 1)]))
  {
    ThreeSteps(Init(0), Search(None, 0), Pass(DAY - 1), Search(None, 1));
    var once := Step(Init(0), Search(None, 0));
    assert once == State(0, map[0 := DAY], [Execution(0, 0)]);
    AnsweredAtMidnight(Step(once, Pass(DAY - 1)));
    SameDateTwice(Step(Step(once, Pass(DAY - 1)), Search(None, 1)));
  }

  /** A UTC date executes at most once on every run exactly when reading the date and setting the key are one step. */
  lemma GuardHoldsIff(lag: nat)
    ensures GuardHolds(lag) <==> lag == 0
  {
    if lag == 0 {
      forall now: int, events: seq<Event> | Lagging(events, lag) ensures AtMostOnce(Run(Init(now), events)) {
        var s := Run(Init(now), events);
        assert SameDayRun(Init(now), events);
        forall i, k | 0 <= i < k < |s.executed| ensures s.executed[i].date != s.executed[k].date {
          OncePerDate(now, events, i, k);
        }
      }
    } else {
      MidnightRunsTwice();
      assert Lagging([Search(None, 0), Pass(DAY - 1), Search(None, 1)], lag);
    }
  }

  class SearchGuard {
    var now: int
    var keys: map<int, int>
    var executed: seq<Execution>

    constructor (now: int)
      ensures View() == Init(now)
    {
      this.now, keys, executed := now, map[], [];
    }

    function View(): State
      reads this
    {
      State(now, keys, executed)
    }

    method RunDailySearch(today: Option<int>, lag: nat) returns (ran: bool)
      modifies this
      ensures View() == Step(old(View()), Search(today, lag))
      ensures ran <==> !old(View()).(now := old(now) + lag).Held(DateOf(old(View()), today))
    {
      var date := if today.Some? then today.value else now / DAY;
      now := now + lag;
      if date in keys && now < keys[date] {
        return false;
      }
      keys := keys[date := now + DAY];
      executed := executed + [Execution(date, now)];
      ran := true;
    }
  }
}
