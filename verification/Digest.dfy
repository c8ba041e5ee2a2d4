/** Delivery of the daily digest: rows unique per dedupe key, a send outside the database, and a status written
    afterwards. Runs may overlap and may crash between any two calls. */
module Digest {
  import opened Prelude

  datatype Channel = InApp | Email | Telegram
  datatype Key = Key(user: nat, date: int, channel: Channel)
  datatype Content = Content(subject: string, body: string)
  datatype Status = Pending | Sent | Failed
  datatype Row = Row(content: Content, status: Status)
  datatype Delivery = Delivery(key: Key, content: Content)

  /** Where one run is in delivering one key; `Holding` keeps the row as it was read. */
  datatype Worker =
    | Idle
    | Asked(key: Key, content: Content)
    | Missed(key: Key, content: Content)
    | Holding(key: Key, row: Row, created: bool)
    | Delivered(key: Key)
    | Refused(key: Key)

  /** `sent` records every message that went out; `lost` every key whose run crashed right after sending. */
  datatype State = State(rows: map<Key, Row>, workers: seq<Worker>, sent: seq<Delivery>, lost: seq<Key>)

  datatype Event =
    | Begin(i: nat, key: Key, content: Content)
    | Find(i: nat)
    | Create(i: nat)
    | Skip(i: nat)
    | Send(i: nat, ok: bool)
    | Mark(i: nat)
    | Crash(i: nat)

  /** Nothing is sent for a row just found to be sent already, nor for the in-app channel. */
  predicate MaySend(w: Worker) {
    w.Holding? && w.key.channel != InApp && (w.created || w.row.status != Sent)
  }

  function StepOf(s: State, w: Worker, e: Event): (State, Worker) {
    match e
    case Begin(_, key, content) => if w.Idle? then (s, Asked(key, content)) else (s, w)
    case Find(_) =>
      if !w.Asked? then (s, w)
      else if w.key in s.rows then (s, Holding(w.key, s.rows[w.key], false))
      else (s, Missed(w.key, w.content))
    case Create(_) =>
      if !w.Missed? then (s, w)
      else if w.key in s.rows then (s, Holding(w.key, s.rows[w.key], false))
      else
        var row := Row(w.content, Pending);
        (s.(rows := s.rows[w.key := row]), Holding(w.key, row, true))
    case Skip(_) => if w.Holding? && !MaySend(w) then (s, Idle) else (s, w)
    case Send(_, ok) =>
      if !MaySend(w) then (s, w)
      else if ok then (s.(sent := s.sent + [Delivery(w.key, w.row.content)]), Delivered(w.key))
      else (s, Refused(w.key))
    case Mark(_) =>
      if w.Delivered? && w.key in s.rows then (s.(rows := s.rows[w.key := s.rows[w.key].(status := Sent)]), Idle)
      else if w.Refused? && w.key in s.rows then (s.(rows := s.rows[w.key := s.rows[w.key].(status := Failed)]), Idle)
      else (s, w)
    case Crash(_) => (if w.Delivered? then s.(lost := s.lost + [w.key]) else s, Idle)
  }

  function Step(s: State, e: Event): State {
    if e.i >= |s.workers| then s
    else
      var (t, w) := StepOf(s, s.workers[e.i], e);
      t.(workers := s.workers[e.i := w])
  }

  function Run(s: State, events: seq<Event>): State {
    if events == [] then s else Step(Run(s, events[..|events| - 1]), events[|events| - 1])
  }

  function Init(workers: nat): State {
    State(map[], seq(workers, i => Idle), [], [])
  }

  // ----- any interleaving -----

  predicate Knows(s: State, w: Worker) {
    match w
    case Holding(key, row, _) => key in s.rows && s.rows[key].content == row.content
    case Delivered(key) => key in s.rows
    case Refused(key) => key in s.rows
    case _ => true
  }

  ghost predicate WorkersKnow(s: State) {
    forall i :: 0 <= i < |s.workers| ==> Knows(s, s.workers[i])
  }

  ghost predicate SentAsStored(s: State) {
    forall k :: 0 <= k < |s.sent| ==>
      s.sent[k].key in s.rows && s.sent[k].content == s.rows[s.sent[k].key].content
  }

  /** Rows stay, with the subject and body they were created with. */
  ghost predicate Frozen(s: State, t: State) {
    forall k :: k in s.rows ==> k in t.rows && t.rows[k].content == s.rows[k].content
  }

  lemma StepFreezes(s: State, e: Event)
    requires WorkersKnow(s) && SentAsStored(s)
    ensures WorkersKnow(Step(s, e)) && SentAsStored(Step(s, e)) && Frozen(s, Step(s, e))
  {
    if e.i < |s.workers| {
      var t := Step(s, e);
      assert Frozen(s, t);
      forall i | 0 <= i < |t.workers| ensures Knows(t, t.workers[i]) {
        assert Knows(s, s.workers[i]);
      }
      forall k | 0 <= k < |t.sent|
        ensures t.sent[k].key in t.rows && t.sent[k].content == t.rows[t.sent[k].key].content
      {
        if k < |s.sent| {
          assert t.sent[k] == s.sent[k];
        } else {
          assert Knows(s, s.workers[e.i]);
        }
      }
    }
  }

  lemma {:induction false} RunFreezes(s: State, events: seq<Event>)
    requires WorkersKnow(s) && SentAsStored(s)
    ensures WorkersKnow(Run(s, events)) && SentAsStored(Run(s, events)) && Frozen(s, Run(s, events))
    decreases |events|
  {
    if events != [] {
      RunFreezes(s, events[..|events| - 1]);
      StepFreezes(Run(s, events[..|events| - 1]), events[|events| - 1]);
    }
  }

  /** However runs overlap, crash and re-rank: every message ever sent for a key carries the subject and body of its
      row, which later runs never change. */
  lemma EveryDeliveryIsTheFirstDraft(workers: nat, events: seq<Event>, later: seq<Event>, k: nat)
    requires k < |Run(Run(Init(workers), events), later).sent|
    ensures var s := Run(Init(workers), events);
            var t := Run(s, later);
            var d := t.sent[k];
            d.key in t.rows && d.content == t.rows[d.key].content
            && (d.key in s.rows ==> d.content == s.rows[d.key].content)
  {
    RunFreezes(Init(workers), events);
    RunFreezes(Run(Init(workers), events), later);
  }

  // ----- runs that do not overlap -----

  predicate Busy(w: Worker, key: Key) {
    !w.Idle? && w.key == key
  }

  /** No run starts on a key another run is still working on. */
  predicate Serial(s: State, e: Event) {
    e.Begin? ==> forall i | 0 <= i < |s.workers| :: !Busy(s.workers[i], e.key)
  }

  predicate SerialRun(s: State, events: seq<Event>) {
    forall k | 0 <= k < |events| :: Serial(Run(s, events[..k]), events[k])
  }

  function SentOf(log: seq<Delivery>, key: Key): nat {
    if log == [] then 0
    else SentOf(log[..|log| - 1], key) + (if log[|log| - 1].key == key then 1 else 0)
  }

  function LostOf(log: seq<Key>, key: Key): nat {
    if log == [] then 0
    else LostOf(log[..|log| - 1], key) + (if log[|log| - 1] == key then 1 else 0)
  }

  lemma SentAppended(log: seq<Delivery>, d: Delivery, key: Key)
    ensures SentOf(log + [d], key) == SentOf(log, key) + (if d.key == key then 1 else 0)
  {
    assert (log + [d])[..|log|] == log;
  }

  lemma LostAppended(log: seq<Key>, lost: Key, key: Key)
    ensures LostOf(log + [lost], key) == LostOf(log, key) + (if lost == key then 1 else 0)
  {
    assert (log + [lost])[..|log|] == log;
  }

  ghost predicate OneAtATime(s: State, key: Key) {
    forall i, k :: 0 <= i < |s.workers| && 0 <= k < |s.workers| && Busy(s.workers[i], key) && Busy(s.workers[k], key)
      ==> i == k
  }

  predicate Recorded(s: State, key: Key) {
    key in s.rows && s.rows[key].status == Sent
  }

  ghost predicate Carrying(s: State, key: Key) {
    exists i :: 0 <= i < |s.workers| && s.workers[i] == Delivered(key)
  }

  /** What a run holds is what is stored, and a run that may still send works on a row not yet recorded as sent. */
  predicate Fresh(s: State, w: Worker) {
    match w
    case Missed(key, _) => key !in s.rows
    case Holding(key, row, created) => key in s.rows && s.rows[key] == row && (created ==> row.status == Pending)
    case Delivered(key) => key in s.rows && s.rows[key].status != Sent
    case Refused(key) => key in s.rows && s.rows[key].status != Sent
    case _ => true
  }

  /** Every message of the key is accounted for: its record was lost in a crash, or it is recorded, or its run is
      about to record it. */
  ghost predicate Balanced(s: State, key: Key) {
    SentOf(s.sent, key) == LostOf(s.lost, key) + (if Recorded(s, key) || Carrying(s, key) then 1 else 0)
  }

  ghost predicate SerialSound(s: State, key: Key) {
    OneAtATime(s, key) && Balanced(s, key)
    && forall i :: 0 <= i < |s.workers| && Busy(s.workers[i], key) ==> Fresh(s, s.workers[i])
  }

  lemma CarriedByOne(s: State, key: Key, i: nat)
    requires OneAtATime(s, key) && i < |s.workers| && Busy(s.workers[i], key)
    ensures Carrying(s, key) <==> s.workers[i] == Delivered(key)
  {
    if Carrying(s, key) {
      var k :| 0 <= k < |s.workers| && s.workers[k] == Delivered(key);
      assert Busy(s.workers[k], key);
    }
  }

  lemma NoneCarries(s: State, key: Key)
    requires forall i :: 0 <= i < |s.workers| ==> !Busy(s.workers[i], key)
    ensures !Carrying(s, key)
  {
  }

  /** The account of a key whose only run, if any, is at `w`. */
  predicate Account(s: State, w: Worker, key: Key) {
    SentOf(s.sent, key) == LostOf(s.lost, key) + (if Recorded(s, key) || w == Delivered(key) then 1 else 0)
  }

  lemma OwnStepOf(s: State, w: Worker, e: Event, key: Key)
    requires Busy(w, key) && Fresh(s, w) && Account(s, w, key)
    ensures var (t, v) := StepOf(s, w, e);
            Account(t, v, key) && (Busy(v, key) ==> Fresh(t, v)) && (v.Idle? || Busy(v, key))
    ensures var (t, _) := StepOf(s, w, e);
            Recorded(s, key) ==>
              Recorded(t, key)
              && SentOf(t.sent, key) == SentOf(s.sent, key) && LostOf(t.lost, key) == LostOf(s.lost, key)
  {
    match e {
      case Send(_, ok) => if MaySend(w) { SentAppended(s.sent, Delivery(key, w.row.content), key); }
      case Crash(_) => if w.Delivered? { LostAppended(s.lost, key, key); }
      case Mark(_) => MarkAccount(s, w, e, key);
      case _ =>
    }
  }

  lemma MarkAccount(s: State, w: Worker, e: Event, key: Key)
    requires e.Mark? && Busy(w, key) && Fresh(s, w) && Account(s, w, key)
    ensures var (t, v) := StepOf(s, w, e);
            t.sent == s.sent && t.lost == s.lost && (v == w || v.Idle?)
            && (Recorded(t, key) || v == Delivered(key) <==> Recorded(s, key) || w == Delivered(key))
            && (v == w ==> t == s)
  {
  }

  /** A step of a run that is idle or busy with another key leaves this key's account alone. */
  lemma OtherStepOf(s: State, w: Worker, e: Event, key: Key)
    requires !Busy(w, key) && !(e.Begin? && w.Idle? && e.key == key)
    ensures var (t, v) := StepOf(s, w, e);
            !Busy(v, key)
            && (key in t.rows <==> key in s.rows) && (key in s.rows ==> t.rows[key] == s.rows[key])
            && SentOf(t.sent, key) == SentOf(s.sent, key) && LostOf(t.lost, key) == LostOf(s.lost, key)
  {
    match e {
      case Send(_, ok) => if MaySend(w) { SentAppended(s.sent, Delivery(w.key, w.row.content), key); }
      case Crash(_) => if w.Delivered? { LostAppended(s.lost, w.key, key); }
      case _ =>
    }
  }

  lemma OtherKeyStep(s: State, e: Event, key: Key)
    requires SerialSound(s, key) && e.i < |s.workers| && !Busy(s.workers[e.i], key)
    requires !(e.Begin? && s.workers[e.i].Idle? && e.key == key)
    ensures SerialSound(Step(s, e), key)
    ensures SentOf(Step(s, e).sent, key) == SentOf(s.sent, key) && LostOf(Step(s, e).lost, key) == LostOf(s.lost, key)
    ensures Recorded(s, key) ==> Recorded(Step(s, e), key)
  {
    var t := Step(s, e);
    OtherStepOf(s, s.workers[e.i], e, key);
    forall i | 0 <= i < |t.workers| && Busy(t.workers[i], key)
      ensures t.workers[i] == s.workers[i] && i != e.i && Fresh(t, t.workers[i])
    {
    }
    if Carrying(s, key) {
      var k :| 0 <= k < |s.workers| && s.workers[k] == Delivered(key);
      assert t.workers[k] == Delivered(key);
    }
    assert Carrying(t, key) == Carrying(s, key);
  }

  lemma OwnStep(s: State, e: Event, key: Key)
    requires SerialSound(s, key) && e.i < |s.workers| && Busy(s.workers[e.i], key)
    ensures SerialSound(Step(s, e), key)
    ensures Recorded(s, key) ==>
              Recorded(Step(s, e), key)
              && SentOf(Step(s, e).sent, key) == SentOf(s.sent, key)
              && LostOf(Step(s, e).lost, key) == LostOf(s.lost, key)
  {
    var t := Step(s, e);
    CarriedByOne(s, key, e.i);
    OwnStepOf(s, s.workers[e.i], e, key);
    forall i | 0 <= i < |t.workers| && i != e.i ensures !Busy(t.workers[i], key) {
      assert t.workers[i] == s.workers[i];
    }
    if Busy(t.workers[e.i], key) {
      CarriedByOne(t, key, e.i);
    } else {
      NoneCarries(t, key);
    }
  }

  lemma BeginStep(s: State, e: Event)
    requires e.Begin? && e.i < |s.workers| && s.workers[e.i].Idle? && Serial(s, e) && SerialSound(s, e.key)
    ensures SerialSound(Step(s, e), e.key)
  {
    var t := Step(s, e);
    NoneCarries(s, e.key);
    forall i | 0 <= i < |t.workers| && i != e.i ensures !Busy(t.workers[i], e.key) {
      assert t.workers[i] == s.workers[i];
    }
    CarriedByOne(t, e.key, e.i);
  }

  lemma SerialStepKeeps(s: State, e: Event, key: Key)
    requires SerialSound(s, key) && Serial(s, e)
    ensures SerialSound(Step(s, e), key)
    ensures Recorded(s, key) ==>
              Recorded(Step(s, e), key)
              && SentOf(Step(s, e).sent, key) == SentOf(s.sent, key)
              && LostOf(Step(s, e).lost, key) == LostOf(s.lost, key)
  {
    if e.i < |s.workers| {
      if Busy(s.workers[e.i], key) {
        OwnStep(s, e, key);
      } else if e.Begin? && s.workers[e.i].Idle? && e.key == key {
        BeginStep(s, e);
      } else {
        OtherKeyStep(s, e, key);
      }
    }
  }

  lemma {:induction false} SerialRunKeeps(s: State, events: seq<Event>, key: Key)
    requires SerialSound(s, key) && SerialRun(s, events)
    ensures SerialSound(Run(s, events), key)
    ensures Recorded(s, key) ==>
              Recorded(Run(s, events), key)
              && SentOf(Run(s, events).sent, key) == SentOf(s.sent, key)
              && LostOf(Run(s, events).lost, key) == LostOf(s.lost, key)
    decreases |events|
  {
    if events != [] {
      var n := |events| - 1;
      forall k | 0 <= k < n ensures Serial(Run(s, events[..n][..k]), events[..n][k]) {
        assert events[..n][..k] == events[..k];
      }
      SerialRunKeeps(s, events[..n], key);
      SerialStepKeeps(Run(s, events[..n]), events[n], key);
    }
  }

  lemma InitIsSound(workers: nat, key: Key)
    ensures SerialSound(Init(workers), key) && WorkersKnow(Init(workers)) && SentAsStored(Init(workers))
  {
    NoneCarries(Init(workers), key);
  }

  /** Runs that do not overlap send a digest exactly once for every crash between sending and recording, plus once
      when it is recorded or its run is about to record it. */
  lemma SendsAtMostOncePerLostRecord(workers: nat, events: seq<Event>, key: Key)
    requires SerialRun(Init(workers), events)
    ensures var t := Run(Init(workers), events);
            SentOf(t.sent, key) == LostOf(t.lost, key) + (if Recorded(t, key) || Carrying(t, key) then 1 else 0)
  {
    InitIsSound(workers, key);
    SerialRunKeeps(Init(workers), events, key);
  }

  /** Once recorded as sent, a digest stays so and is never sent again. */
  lemma SentIsFinal(workers: nat, events: seq<Event>, later: seq<Event>, key: Key)
    requires SerialRun(Init(workers), events) && SerialRun(Run(Init(workers), events), later)
    requires Recorded(Run(Init(workers), events), key)
    ensures var s := Run(Init(workers), events);
            Recorded(Run(s, later), key) && SentOf(Run(s, later).sent, key) == SentOf(s.sent, key)
  {
    InitIsSound(workers, key);
    SerialRunKeeps(Init(workers), events, key);
    SerialRunKeeps(Run(Init(workers), events), later, key);
  }

  // ----- what the dedupe key does not prevent -----

  /** A crash between sending and recording, then a retry: the same digest goes out twice. */
  lemma CrashedRunSendsAgain(s: State, i: nat, content: Content, reranked: Content, key: Key)
    requires i < |s.workers| && s.workers[i].Idle? && key !in s.rows && key.channel != InApp
    ensures var first := Step(Step(Step(Step(s, Begin(i, key, content)), Find(i)), Create(i)), Send(i, true));
            var retry := Step(Step(Step(first, Crash(i)), Begin(i, key, reranked)), Find(i));
            var again := Step(Step(retry, Send(i, true)), Mark(i));
            again.sent == s.sent + [Delivery(key, content), Delivery(key, content)] && Recorded(again, key)
  {
    var asked := Step(s, Begin(i, key, content));
    assert asked.workers[i] == Asked(key, content);
    var missed := Step(asked, Find(i));
    assert missed.workers[i] == Missed(key, content);
    var held := Step(missed, Create(i));
    assert held.workers[i] == Holding(key, Row(content, Pending), true);
    var first := Step(held, Send(i, true));
    assert first.workers[i] == Delivered(key) && first.rows[key] == Row(content, Pending);
    var crashed := Step(first, Crash(i));
    assert crashed.workers[i] == Idle;
    var retry := Step(Step(crashed, Begin(i, key, reranked)), Find(i));
    assert retry.workers[i] == Holding(key, Row(content, Pending), false);
    var again := Step(retry, Send(i, true));
    assert again.workers[i] == Delivered(key);
  }

  /** Two runs that both look before either has created the row; the second loses the race. */
  function Overlapped(s: State, i: nat, k: nat, key: Key, a: Content, b: Content): State {
    var looked := Step(Step(s, Begin(i, key, a)), Find(i));
    var both := Step(Step(looked, Begin(k, key, b)), Find(k));
    Step(Step(both, Create(i)), Create(k))
  }

  lemma LoserHoldsTheWinnersRow(s: State, i: nat, k: nat, key: Key, a: Content, b: Content)
    requires i < |s.workers| && k < |s.workers| && i != k && s.workers[i].Idle? && s.workers[k].Idle?
    requires key !in s.rows
    ensures var held := Overlapped(s, i, k, key, a, b);
            held.rows == s.rows[key := Row(a, Pending)] && held.sent == s.sent && held.lost == s.lost
            && |held.workers| == |s.workers|
            && held.workers[i] == Holding(key, Row(a, Pending), true)
            && held.workers[k] == Holding(key, Row(a, Pending), false)
  {
    var asked := Step(s, Begin(i, key, a));
    assert asked.workers[i] == Asked(key, a) && asked.workers[k] == Idle;
    var looked := Step(asked, Find(i));
    assert looked.workers[i] == Missed(key, a) && looked.workers[k] == Idle;
    var other := Step(looked, Begin(k, key, b));
    assert other.workers[k] == Asked(key, b);
    var both := Step(other, Find(k));
    assert both.workers[i] == Missed(key, a) && both.workers[k] == Missed(key, b);
    var created := Step(both, Create(i));
    assert created.workers[k] == Missed(key, b);
  }

  /** Two overlapping runs need no crash to send twice, and a failure reported late replaces the record of a
      success: the unique key stops the second row, not the second message. */
  lemma OverlapSendsTwice(s: State, i: nat, k: nat, key: Key, a: Content, b: Content)
    requires i < |s.workers| && k < |s.workers| && i != k && s.workers[i].Idle? && s.workers[k].Idle?
    requires key !in s.rows && key.channel != InApp
    ensures var first := Step(Step(Overlapped(s, i, k, key, a, b), Send(i, true)), Mark(i));
            Recorded(first, key) && first.lost == s.lost
            && Step(first, Send(k, true)).sent == s.sent + [Delivery(key, a), Delivery(key, a)]
            && !Recorded(Step(Step(first, Send(k, false)), Mark(k)), key)
  {
    LoserHoldsTheWinnersRow(s, i, k, key, a, b);
    var sent := Step(Overlapped(s, i, k, key, a, b), Send(i, true));
    assert sent.workers[i] == Delivered(key);
    var first := Step(sent, Mark(i));
    assert first.workers[k] == Holding(key, Row(a, Pending), false);
    var refused := Step(first, Send(k, false));
    assert refused.workers[k] == Refused(key);
  }

  // ----- exactly when no digest goes out twice -----

  /** Over all runs from the beginning, overlapping only if allowed, with at most `maxLost` records of a digest lost:
      it goes out at most once. */
  ghost predicate OneMessage(maxLost: nat, overlap: bool) {
    forall workers: nat, events: seq<Event>, key: Key ::
      (overlap || SerialRun(Init(workers), events)) && LostOf(Run(Init(workers), events).lost, key) <= maxLost ==>
        SentOf(Run(Init(workers), events).sent, key) <= 1
  }

  lemma RunMore(s: State, events: seq<Event>, e: Event)
    ensures Run(s, events + [e]) == Step(Run(s, events), e)
  {
    assert (events + [e])[..|events|] == events;
  }

  lemma FiveSteps(s: State, a: Event, b: Event, c: Event, d: Event, e: Event)
    ensures Run(s, [a, b, c, d, e]) == Step(Step(Step(Step(Step(s, a), b), c), d), e)
  {
    RunMore(s, [], a);
    RunMore(s, [a], b);
    RunMore(s, [a, b], c);
    RunMore(s, [a, b, c], d);
    RunMore(s, [a, b, c, d], e);
    assert [] + [a] == [a] && [a] + [b] == [a, b] && [a, b] + [c] == [a, b, c];
    assert [a, b, c] + [d] == [a, b, c, d] && [a, b, c, d] + [e] == [a, b, c, d, e];
  }

  lemma FourMoreSteps(s: State, front: seq<Event>, a: Event, b: Event, c: Event, d: Event)
    ensures Run(s, front + [a, b, c, d]) == Step(Step(Step(Step(Run(s, front), a), b), c), d)
  {
    RunMore(s, front, a);
    RunMore(s, front + [a], b);
    RunMore(s, front + [a] + [b], c);
    RunMore(s, front + [a] + [b] + [c], d);
    assert front + [a] + [b] + [c] + [d] == front + [a, b, c, d];
  }

  const LETTER := Content("s", "b")
  const MAIL := Key(0, 0, Email)

  /** One run crashes after sending; the next, alone, sends again and records it. */
  const CRASHED := [Begin(0, MAIL, LETTER), Find(0), Create(0), Send(0, true), Crash(0)]
  const RETRIED := CRASHED + [Begin(0, MAIL, LETTER), Find(0), Send(0, true), Mark(0)]

  lemma TwoSent(log: seq<Delivery>, d: Delivery)
    requires log == [d, d]
    ensures SentOf(log, d.key) == 2
  {
    assert log == ([] + [d]) + [d];
    SentAppended([], d, d.key);
    SentAppended([] + [d], d, d.key);
  }

  lemma AfterCrash()
    ensures var t := Run(Init(1), CRASHED);
            t.workers == [Idle] && t.lost == [MAIL]
  {
    FiveSteps(Init(1), Begin(0, MAIL, LETTER), Find(0), Create(0), Send(0, true), Crash(0));
    var asked := Step(Init(1), Begin(0, MAIL, LETTER));
    assert asked.workers == [Asked(MAIL, LETTER)];
    var missed := Step(asked, Find(0));
    assert missed.workers == [Missed(MAIL, LETTER)];
    var held := Step(missed, Create(0));
    assert held.workers == [Holding(MAIL, Row(LETTER, Pending), true)];
    assert Step(held, Send(0, true)).workers == [Delivered(MAIL)];
  }

  lemma RetriedIsSerial()
    ensures SerialRun(Init(1), RETRIED)
  {
    AfterCrash();
    forall k | 0 <= k < |RETRIED| ensures Serial(Run(Init(1), RETRIED[..k]), RETRIED[k]) {
      if k == 0 {
        assert RETRIED[..0] == [];
      } else if k == 5 {
        assert RETRIED[..5] == CRASHED;
      }
    }
  }

  lemma RetriedSendsTwice()
    ensures SentOf(Run(Init(1), RETRIED).sent, MAIL) == 2 && LostOf(Run(Init(1), RETRIED).lost, MAIL) == 1
  {
    var t := Run(Init(1), RETRIED);
    FiveSteps(Init(1), Begin(0, MAIL, LETTER), Find(0), Create(0), Send(0, true), Crash(0));
    FourMoreSteps(Init(1), CRASHED, Begin(0, MAIL, LETTER), Find(0), Send(0, true), Mark(0));
    CrashedRunSendsAgain(Init(1), 0, LETTER, LETTER, MAIL);
    assert [] + [Delivery(MAIL, LETTER), Delivery(MAIL, LETTER)] == [Delivery(MAIL, LETTER), Delivery(MAIL, LETTER)];
    TwoSent(t.sent, Delivery(MAIL, LETTER));
    RetriedIsSerial();
    SendsAtMostOncePerLostRecord(1, RETRIED, MAIL);
  }

  /** Two runs look before either has created the row. */
  const BOTH_LOOKED := [Begin(0, MAIL, LETTER), Find(0), Begin(1, MAIL, LETTER), Find(1), Create(0)]
  const OVERLAPPING := BOTH_LOOKED + [Create(1), Send(0, true), Mark(0), Send(1, true)]

  lemma OverlappingSendsTwice()
    ensures SentOf(Run(Init(2), OVERLAPPING).sent, MAIL) == 2 && Run(Init(2), OVERLAPPING).lost == []
  {
    FiveSteps(Init(2), Begin(0, MAIL, LETTER), Find(0), Begin(1, MAIL, LETTER), Find(1), Create(0));
    FourMoreSteps(Init(2), BOTH_LOOKED, Create(1), Send(0, true), Mark(0), Send(1, true));
    OverlapSendsTwice(Init(2), 0, 1, MAIL, LETTER, LETTER);
    var before := Step(Step(Overlapped(Init(2), 0, 1, MAIL, LETTER, LETTER), Send(0, true)), Mark(0));
    assert Run(Init(2), OVERLAPPING) == Step(before, Send(1, true));
    assert [] + [Delivery(MAIL, LETTER), Delivery(MAIL, LETTER)] == [Delivery(MAIL, LETTER), Delivery(MAIL, LETTER)];
    TwoSent(Run(Init(2), OVERLAPPING).sent, Delivery(MAIL, LETTER));
    SendingLosesNothing(before, 1);
  }

  lemma SendingLosesNothing(s: State, i: nat)
    ensures Step(s, Send(i, true)).lost == s.lost
  {
  }

  /** A digest goes out at most once, over all runs, exactly when no record is lost and runs do not overlap. */
  lemma OneMessageIff(maxLost: nat, overlap: bool)
    ensures OneMessage(maxLost, overlap) <==> maxLost == 0 && !overlap
  {
    if overlap {
      OverlappingSendsTwice();
      assert LostOf(Run(Init(2), OVERLAPPING).lost, MAIL) == 0;
    } else if maxLost > 0 {
      RetriedIsSerial();
      RetriedSendsTwice();
    } else {
      forall workers: nat, events: seq<Event>, key: Key
        | SerialRun(Init(workers), events) && LostOf(Run(Init(workers), events).lost, key) <= maxLost
        ensures SentOf(Run(Init(workers), events).sent, key) <= 1
      {
        SendsAtMostOncePerLostRecord(workers, events, key);
      }
    }
  }

  // ----- the service -----

  datatype SendResult = Accepted | Rejected | Raised
  datatype Outcome = WasCreated | WasSent | WasDeduped | WasFailed

  /** What a run reports per channel, unless something other than a refused send was raised. */
  datatype Answer = Outcomes(byChannel: map<Channel, Outcome>) | Exception

  datatype Tables = Tables(rows: map<Key, Row>, sent: seq<Delivery>)

  /** One uninterrupted delivery; no outcome when it raises. */
  function DeliverOnce(s: Tables, key: Key, content: Content, result: SendResult): (Tables, Option<Outcome>) {
    if key in s.rows && s.rows[key].status == Sent then (s, Some(WasDeduped))
    else
      var row := if key in s.rows then s.rows[key] else Row(content, Pending);
      var t := s.(rows := s.rows[key := row]);
      match result
      case Accepted =>
        (Tables(t.rows[key := row.(status := Sent)], t.sent + [Delivery(key, row.content)]), Some(WasSent))
      case Rejected => (t.(rows := t.rows[key := row.(status := Failed)]), Some(WasFailed))
      case Raised => (t, None)
  }

  /** A channel that is off is passed over, and nothing is tried after an exception. */
  function DeliverIf(s: Tables, answer: Answer, on: bool, key: Key, content: Content, result: SendResult)
    : (Tables, Answer)
  {
    if answer.Exception? || !on then (s, answer)
    else
      var (t, outcome) := DeliverOnce(s, key, content, result);
      (t, if outcome.None? then Exception else Outcomes(answer.byChannel[key.channel := outcome.value]))
  }

  function AnnounceOnce(s: Tables, key: Key, content: Content): (Tables, Outcome) {
    if key in s.rows then (s, WasDeduped) else (s.(rows := s.rows[key := Row(content, Pending)]), WasCreated)
  }

  /** A delivery is what one run's steps amount to when nothing else happens between them. */
  lemma DeliveryIsARun(s: State, i: nat, key: Key, content: Content, result: SendResult)
    requires i < |s.workers| && s.workers[i].Idle? && key.channel != InApp
    ensures var (t, outcome) := DeliverOnce(Tables(s.rows, s.sent), key, content, result);
            var held := Step(Step(Step(s, Begin(i, key, content)), Find(i)), Create(i));
            var done :=
              if outcome == Some(WasDeduped) then Step(held, Skip(i))
              else if result.Raised? then Step(held, Crash(i))
              else Step(Step(held, Send(i, result.Accepted?)), Mark(i));
            Tables(done.rows, done.sent) == t && done.workers == s.workers && done.lost == s.lost
  {
    var asked := Step(s, Begin(i, key, content));
    assert asked.workers[i] == Asked(key, content);
    var found := Step(asked, Find(i));
    var held := Step(found, Create(i));
    var created := key !in s.rows;
    var row := if created then Row(content, Pending) else s.rows[key];
    assert held.workers[i] == Holding(key, row, created);
    assert held.rows == s.rows[key := row];
    if MaySend(held.workers[i]) && !result.Raised? {
      var out := Step(held, Send(i, result.Accepted?));
      assert out.workers[i] == if result.Accepted? then Delivered(key) else Refused(key);
    }
  }

  datatype Preferences = Preferences(digest: bool, email: bool, telegram: bool)

  function SendAll(
    s: Tables, user: nat, date: int, prefs: Preferences, content: Option<Content>,
    email: SendResult, telegram: SendResult)
    : (Tables, Answer)
  {
    if !prefs.digest || content.None? then (s, Outcomes(map[]))
    else
      var (announced, created) := AnnounceOnce(s, Key(user, date, InApp), content.value);
      var (mailed, answer) :=
        DeliverIf(announced, Outcomes(map[InApp := created]), prefs.email, Key(user, date, Email), content.value, email);
      DeliverIf(mailed, answer, prefs.telegram, Key(user, date, Telegram), content.value, telegram)
  }

  /** Which channels a report names: those that are on, when there is a digest and nothing was raised. */
  lemma ReportedChannels(
    s: Tables, user: nat, date: int, prefs: Preferences, content: Option<Content>,
    email: SendResult, telegram: SendResult)
    ensures var answer := SendAll(s, user, date, prefs, content, email, telegram).1;
            answer.Outcomes? ==>
              (InApp in answer.byChannel <==> prefs.digest && content.Some?)
              && (Email in answer.byChannel <==> prefs.digest && content.Some? && prefs.email)
              && (Telegram in answer.byChannel <==> prefs.digest && content.Some? && prefs.telegram)
  {
  }

  /** An outcome tells what happened: sent exactly when the message went out and its row says so, failed exactly when
      none did and its row says so, deduped exactly when the row said sent before; no outcome only after an exception. */
  predicate Tells(s: Tables, t: Tables, key: Key, outcome: Outcome) {
    key in t.rows
    && (outcome == WasSent <==> t.sent == s.sent + [Delivery(key, t.rows[key].content)])
    && (outcome == WasSent ==> t.rows[key].status == Sent)
    && (outcome == WasFailed <==> t.sent == s.sent && t.rows[key].status == Failed)
    && (outcome == WasDeduped <==> key in s.rows && s.rows[key].status == Sent)
    && outcome != WasCreated
    && (outcome != WasSent ==> t.sent == s.sent)
  }

  lemma OutcomeTells(s: Tables, key: Key, content: Content, result: SendResult)
    ensures var (t, outcome) := DeliverOnce(s, key, content, result);
            (outcome.Some? ==> Tells(s, t, key, outcome.value))
            && (outcome.None? <==> result.Raised? && !(key in s.rows && s.rows[key].status == Sent))
            && (outcome.None? ==> t.sent == s.sent)
            && (forall k :: k in s.rows && k != key ==> k in t.rows && t.rows[k] == s.rows[k])
  {
    var t := DeliverOnce(s, key, content, result).0;
    assert |t.sent| == |s.sent| ==> t.sent != s.sent + [Delivery(key, t.rows[key].content)];
  }

  /** What a report says of a channel that sends: sent exactly when one more message of its key went out, and then its row
      says sent; failed exactly when none did and its row says failed; deduped exactly when its row said sent before. */
  predicate Reports(s: Tables, t: Tables, key: Key, outcome: Outcome) {
    key in t.rows
    && SentOf(t.sent, key) == SentOf(s.sent, key) + (if outcome == WasSent then 1 else 0)
    && (outcome == WasSent ==> t.rows[key].status == Sent)
    && (outcome == WasFailed <==> SentOf(t.sent, key) == SentOf(s.sent, key) && t.rows[key].status == Failed)
    && (outcome == WasDeduped <==> key in s.rows && s.rows[key].status == Sent)
    && outcome != WasCreated
  }

  lemma TellsReports(s: Tables, t: Tables, key: Key, outcome: Outcome)
    requires Tells(s, t, key, outcome)
    ensures Reports(s, t, key, outcome)
  {
    if outcome == WasSent { SentAppended(s.sent, Delivery(key, t.rows[key].content), key); }
  }

  /** A delivery on one channel leaves the others' rows and messages alone. */
  lemma OtherChannel(s: Tables, answer: Answer, on: bool, key: Key, content: Content, result: SendResult, other: Key)
    requires other != key
    ensures var t := DeliverIf(s, answer, on, key, content, result).0;
            (other in t.rows <==> other in s.rows) && (other in s.rows ==> t.rows[other] == s.rows[other])
            && SentOf(t.sent, other) == SentOf(s.sent, other)
  {
    if answer.Outcomes? && on {
      var (t, outcome) := DeliverOnce(s, key, content, result);
      OutcomeTells(s, key, content, result);
      if outcome == Some(WasSent) { SentAppended(s.sent, Delivery(key, t.rows[key].content), other); }
    }
  }

  lemma OwnChannel(s: Tables, answer: Answer, key: Key, content: Content, result: SendResult)
    requires answer.Outcomes?
    ensures var (t, after) := DeliverIf(s, answer, true, key, content, result);
            after.Outcomes? ==>
              key.channel in after.byChannel && Reports(s, t, key, after.byChannel[key.channel])
              && forall c :: c in answer.byChannel && c != key.channel ==>
                   c in after.byChannel && after.byChannel[c] == answer.byChannel[c]
  {
    OutcomeTells(s, key, content, result);
    var (t, outcome) := DeliverOnce(s, key, content, result);
    if outcome.Some? { TellsReports(s, t, key, outcome.value); }
  }

  /** Whatever a run reports is true of every channel it reports. */
  lemma ReportsAreTrue(
    s: Tables, user: nat, date: int, prefs: Preferences, content: Option<Content>,
    email: SendResult, telegram: SendResult)
    ensures var (t, answer) := SendAll(s, user, date, prefs, content, email, telegram);
            answer.Outcomes? ==>
              (InApp in answer.byChannel ==>
                 answer.byChannel[InApp] == if Key(user, date, InApp) in s.rows then WasDeduped else WasCreated)
              && (Email in answer.byChannel ==> Reports(s, t, Key(user, date, Email), answer.byChannel[Email]))
              && (Telegram in answer.byChannel ==> Reports(s, t, Key(user, date, Telegram), answer.byChannel[Telegram]))
  {
    if prefs.digest && content.Some? {
      var mail, chat := Key(user, date, Email), Key(user, date, Telegram);
      var (r, created) := AnnounceOnce(s, Key(user, date, InApp), content.value);
      var (u, half) := DeliverIf(r, Outcomes(map[InApp := created]), prefs.email, mail, content.value, email);
      OtherChannel(r, Outcomes(map[InApp := created]), prefs.email, mail, content.value, email, chat);
      OtherChannel(u, half, prefs.telegram, chat, content.value, telegram, mail);
      if prefs.email { OwnChannel(r, Outcomes(map[InApp := created]), mail, content.value, email); }
      if prefs.telegram && half.Outcomes? { OwnChannel(u, half, chat, content.value, telegram); }
    }
  }

  lemma SentIsDeduped(s: Tables, answer: Answer, on: bool, key: Key, content: Content, result: SendResult)
    requires on ==> key in s.rows && s.rows[key].status == Sent
    ensures DeliverIf(s, answer, on, key, content, result).0 == s
    ensures answer.Outcomes? ==>
              DeliverIf(s, answer, on, key, content, result).1
              == if on then Outcomes(answer.byChannel[key.channel := WasDeduped]) else answer
  {
  }

  /** After a run whose sends succeeded a second one for the same date changes nothing, whatever it ranked, and reports
      every channel that is on as deduped. */
  lemma SecondRunSendsNothingNew(
    s: Tables, user: nat, date: int, prefs: Preferences, content: Content, reranked: Option<Content>,
    email: SendResult, telegram: SendResult)
    ensures var t := SendAll(s, user, date, prefs, Some(content), Accepted, Accepted).0;
            var (u, answer) := SendAll(t, user, date, prefs, reranked, email, telegram);
            u == t && answer.Outcomes? && forall c :: c in answer.byChannel ==> answer.byChannel[c] == WasDeduped
  {
    var t := SendAll(s, user, date, prefs, Some(content), Accepted, Accepted).0;
    if prefs.digest && reranked.Some? {
      assert AnnounceOnce(t, Key(user, date, InApp), reranked.value) == (t, WasDeduped);
      SentIsDeduped(t, Outcomes(map[InApp := WasDeduped]), prefs.email, Key(user, date, Email), reranked.value, email);
      var answer := DeliverIf(t, Outcomes(map[InApp := WasDeduped]), prefs.email, Key(user, date, Email), reranked.value,
                              email).1;
      SentIsDeduped(t, answer, prefs.telegram, Key(user, date, Telegram), reranked.value, telegram);
    }
  }

  class DigestService {
    var rows: map<Key, Row>
    var sent: seq<Delivery>

    constructor ()
      ensures View() == Tables(map[], [])
    {
      rows, sent := map[], [];
    }

    function View(): Tables
      reads this
    {
      Tables(rows, sent)
    }

    /** Keyed on the unique dedupe key; an existing row is returned untouched. */
    method CreateIfAbsent(key: Key, content: Content) returns (row: Row, created: bool)
      modifies `rows
      ensures created <==> key !in old(rows)
      ensures row == if created then Row(content, Pending) else old(rows)[key]
      ensures rows == if created then old(rows)[key := row] else old(rows)
    {
      if key in rows {
        return rows[key], false;
      }
      row := Row(content, Pending);
      rows := rows[key := row];
      created := true;
    }

    method MarkSent(key: Key)
      requires key in rows
      modifies `rows
      ensures rows == old(rows)[key := old(rows)[key].(status := Sent)]
    {
      rows := rows[key := rows[key].(status := Sent)];
    }

    method MarkFailed(key: Key)
      requires key in rows
      modifies `rows
      ensures rows == old(rows)[key := old(rows)[key].(status := Failed)]
    {
      rows := rows[key := rows[key].(status := Failed)];
    }

    method Deliver(key: Key, content: Content, result: SendResult) returns (outcome: Option<Outcome>)
      modifies this
      ensures (View(), outcome) == DeliverOnce(old(View()), key, content, result)
    {
      var row, created := CreateIfAbsent(key, content);
      assert rows == old(rows)[key := row];
      if !created && row.status == Sent {
        return Some(WasDeduped);
      }
      match result {
        case Accepted =>
          sent := sent + [Delivery(key, row.content)];
          MarkSent(key);
          outcome := Some(WasSent);
        case Rejected =>
          MarkFailed(key);
          outcome := Some(WasFailed);
        case Raised =>
          outcome := None;
      }
    }

    method DeliverOn(answer: Answer, on: bool, key: Key, content: Content, result: SendResult) returns (r: Answer)
      modifies this
      ensures (View(), r) == DeliverIf(old(View()), answer, on, key, content, result)
    {
      r := answer;
      if answer.Outcomes? && on {
        var outcome := Deliver(key, content, result);
        r := if outcome.None? then Exception else Outcomes(answer.byChannel[key.channel := outcome.value]);
      }
    }

    /** In-app always, then email, then telegram. */
    method SendForUser(
      user: nat, date: int, prefs: Preferences, content: Option<Content>, email: SendResult, telegram: SendResult)
      returns (answer: Answer)
      modifies this
      ensures (View(), answer) == SendAll(old(View()), user, date, prefs, content, email, telegram)
    {
      if !prefs.digest || content.None? {
        return Outcomes(map[]);
      }
      var _, created := CreateIfAbsent(Key(user, date, InApp), content.value);
      answer := Outcomes(map[InApp := if created then WasCreated else WasDeduped]);
      answer := DeliverOn(answer, prefs.email, Key(user, date, Email), content.value, email);
      answer := DeliverOn(answer, prefs.telegram, Key(user, date, Telegram), content.value, telegram);
    }
  }
}
