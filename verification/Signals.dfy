/** The store of preference signals: one row per user, job and kind, oldest first. */
module Signals {
  import opened Prelude

  datatype Kind = Like | Save | Apply | Dislike | NotRelevant | HideCompany | HideRole

  const VERDICTS: set<Kind> := {Like, Dislike, NotRelevant}

  function DefaultWeight(kind: Kind): real {
    match kind
    case Like => 1.0
    case Save => 1.5
    case Apply => 3.0
    case Dislike => -1.0
    case NotRelevant => -2.0
    case HideCompany => 0.0
    case HideRole => 0.0
  }

  /** The job's facts as the signal remembers them. */
  datatype Snapshot = Snapshot(
    roleKey: string, companyKey: seq<string>, location: Option<string>, mode: Option<string>, skills: seq<string>)

  /** Skills in first-seen order, each once and none empty: the loop over the two analysis lists. */
  method SnapshotSkills(names: seq<string>, normalize: string -> string) returns (skills: seq<string>)
    ensures forall i, k :: 0 <= i < k < |skills| ==> skills[i] != skills[k]
    ensures forall key :: key in skills <==> key != "" && exists i :: 0 <= i < |names| && normalize(names[i]) == key
  {
    skills := [];
    for i := 0 to |names|
      invariant forall a, b :: 0 <= a < b < |skills| ==> skills[a] != skills[b]
      invariant forall key :: key in skills <==> key != "" && exists j :: 0 <= j < i && normalize(names[j]) == key
    {
      var key := normalize(names[i]);
      if key != "" && key !in skills {
        skills := skills + [key];
      }
    }
  }

  datatype Row = Row(id: nat, user: nat, job: nat, kind: Kind, facts: Snapshot, weight: real)

  datatype Store = Store(rows: seq<Row>, next: nat)

  /** What the interface lets a user do to a job. */
  datatype Action = Positive | Interested | Negative | Irrelevant | Saved | Applied | HidCompany | HidRole

  /** The signal an action teaches; an interest is a weaker like. */
  function Taught(action: Action): (Kind, real) {
    match action
    case Positive => (Like, 1.0)
    case Interested => (Like, 0.7)
    case Negative => (Dislike, -1.0)
    case Irrelevant => (NotRelevant, -2.0)
    case Saved => (Save, DefaultWeight(Save))
    case Applied => (Apply, DefaultWeight(Apply))
    case HidCompany => (HideCompany, DefaultWeight(HideCompany))
    case HidRole => (HideRole, DefaultWeight(HideRole))
  }

  datatype Event =
    | Record(user: nat, job: nat, action: Action, facts: Snapshot)
    | Remove(user: nat, job: nat, kind: Kind)
    | RemoveSignal(user: nat, id: nat)
    | Reset(user: nat)

  // ----- repository calls -----

  function Without(rows: seq<Row>, drop: Row -> bool): (r: seq<Row>)
    ensures forall x :: x in r <==> x in rows && !drop(x)
    ensures |r| <= |rows|
  {
    if rows == [] then []
    else
      var last := |rows| - 1;
      assert rows == rows[..last] + [rows[last]];
      if drop(rows[last]) then Without(rows[..last], drop) else Without(rows[..last], drop) + [rows[last]]
  }

  function InSlot(user: nat, job: nat, kinds: set<Kind>): Row -> bool {
    (r: Row) => r.user == user && r.job == job && r.kind in kinds
  }

  function OfId(user: nat, id: nat): Row -> bool {
    (r: Row) => r.user == user && r.id == id
  }

  function OfUser(user: nat): Row -> bool {
    (r: Row) => r.user == user
  }

  function DeleteKinds(s: Store, user: nat, job: nat, kinds: set<Kind>): Store {
    s.(rows := Without(s.rows, InSlot(user, job, kinds)))
  }

  function FindRow(rows: seq<Row>, user: nat, job: nat, kind: Kind): (r: Option<nat>)
    ensures r.Some? ==> r.value < |rows|
                        && rows[r.value].user == user && rows[r.value].job == job && rows[r.value].kind == kind
    ensures r.None? ==> forall x :: x in rows ==> !(x.user == user && x.job == job && x.kind == kind)
  {
    FirstIndex(rows, (x: Row) => x.user == user && x.job == job && x.kind == kind)
  }

  /** A repeated action refreshes the snapshot and the weight; the row keeps its place in creation order. */
  function Upsert(s: Store, user: nat, job: nat, kind: Kind, facts: Snapshot, weight: real): Store {
    match FindRow(s.rows, user, job, kind)
    case Some(i) => s.(rows := s.rows[i := s.rows[i].(facts := facts, weight := weight)])
    case None => Store(s.rows + [Row(s.next, user, job, kind, facts, weight)], s.next + 1)
  }

  function RecordSignal(s: Store, user: nat, job: nat, kind: Kind, facts: Snapshot, weight: real): Store {
    var cleared := if kind in VERDICTS then DeleteKinds(s, user, job, VERDICTS - {kind}) else s;
    Upsert(cleared, user, job, kind, facts, weight)
  }

  function Step(s: Store, e: Event): Store {
    match e
    case Record(user, job, action, facts) =>
      var (kind, weight) := Taught(action);
      RecordSignal(s, user, job, kind, facts, weight)
    case Remove(user, job, kind) => DeleteKinds(s, user, job, {kind})
    case RemoveSignal(user, id) => s.(rows := Without(s.rows, OfId(user, id)))
    case Reset(user) => s.(rows := Without(s.rows, OfUser(user)))
  }

  function Run(s: Store, events: seq<Event>): Store {
    if events == [] then s else Step(Run(s, events[..|events| - 1]), events[|events| - 1])
  }

  // ----- the invariant -----

  predicate SameSlot(a: Row, b: Row) {
    a.user == b.user && a.job == b.job && (a.kind == b.kind || (a.kind in VERDICTS && b.kind in VERDICTS))
  }

  /** One row per user, job and kind, and one verdict per user and job. */
  ghost predicate OnePerSlot(rows: seq<Row>) {
    forall i, k :: 0 <= i < k < |rows| ==> !SameSlot(rows[i], rows[k])
  }

  predicate Weighed(r: Row) {
    r.weight == DefaultWeight(r.kind) || (r.kind == Like && r.weight == 0.7)
  }

  ghost predicate Sound(s: Store) {
    OnePerSlot(s.rows)
    && (forall i :: 0 <= i < |s.rows| ==> Weighed(s.rows[i]) && s.rows[i].id < s.next)
    && (forall i, k :: 0 <= i < k < |s.rows| ==> s.rows[i].id != s.rows[k].id)
  }

  lemma {:induction false} WithoutKeeps(rows: seq<Row>, next: nat, drop: Row -> bool)
    requires Sound(Store(rows, next))
    ensures Sound(Store(Without(rows, drop), next))
    decreases |rows|
  {
    if rows != [] {
      var last := |rows| - 1;
      WithoutKeeps(rows[..last], next, drop);
      var kept := Without(rows[..last], drop);
      forall i | 0 <= i < |kept| ensures !SameSlot(kept[i], rows[last]) && kept[i].id != rows[last].id {
        assert kept[i] in rows[..last];
      }
    }
  }

  lemma UpsertKeeps(s: Store, user: nat, job: nat, kind: Kind, facts: Snapshot, weight: real)
    requires Sound(s) && Weighed(Row(0, user, job, kind, facts, weight))
    requires kind in VERDICTS ==>
               forall r :: r in s.rows && r.user == user && r.job == job && r.kind in VERDICTS ==> r.kind == kind
    ensures Sound(Upsert(s, user, job, kind, facts, weight))
  {
    var t := Upsert(s, user, job, kind, facts, weight);
    if FindRow(s.rows, user, job, kind).None? {
      var n := |s.rows|;
      forall i | 0 <= i < n ensures !SameSlot(t.rows[i], t.rows[n]) {
        assert s.rows[i] in s.rows;
      }
    }
  }

  lemma StepKeeps(s: Store, e: Event)
    requires Sound(s)
    ensures Sound(Step(s, e))
  {
    match e {
      case Record(user, job, action, facts) =>
        var (kind, weight) := Taught(action);
        WithoutKeeps(s.rows, s.next, InSlot(user, job, VERDICTS - {kind}));
        var cleared := if kind in VERDICTS then DeleteKinds(s, user, job, VERDICTS - {kind}) else s;
        UpsertKeeps(cleared, user, job, kind, facts, weight);
      case Remove(user, job, kind) => WithoutKeeps(s.rows, s.next, InSlot(user, job, {kind}));
      case RemoveSignal(user, id) => WithoutKeeps(s.rows, s.next, OfId(user, id));
      case Reset(user) => WithoutKeeps(s.rows, s.next, OfUser(user));
    }
  }

  lemma {:induction false} RunKeeps(s: Store, events: seq<Event>)
    requires Sound(s)
    ensures Sound(Run(s, events))
    decreases |events|
  {
    if events != [] {
      RunKeeps(s, events[..|events| - 1]);
      StepKeeps(Run(s, events[..|events| - 1]), events[|events| - 1]);
    }
  }

  /** Over every history, a user holds at most one verdict on a job. */
  lemma OneVerdictPerJob(events: seq<Event>, a: Row, b: Row)
    requires a in Run(Store([], 0), events).rows && b in Run(Store([], 0), events).rows
    requires a.user == b.user && a.job == b.job && a.kind in VERDICTS && b.kind in VERDICTS
    ensures a == b
  {
    RunKeeps(Store([], 0), events);
  }

  // ----- a repeated action -----

  lemma {:induction false} WithoutNone(rows: seq<Row>, drop: Row -> bool)
    requires forall i :: 0 <= i < |rows| ==> !drop(rows[i])
    ensures Without(rows, drop) == rows
    decreases |rows|
  {
    if rows != [] {
      WithoutNone(rows[..|rows| - 1], drop);
    }
  }

  lemma NothingToClear(s: Store, user: nat, job: nat, i: nat)
    requires OnePerSlot(s.rows) && i < |s.rows| && s.rows[i].user == user && s.rows[i].job == job
    requires s.rows[i].kind in VERDICTS
    ensures DeleteKinds(s, user, job, VERDICTS - {s.rows[i].kind}) == s
  {
    var others := InSlot(user, job, VERDICTS - {s.rows[i].kind});
    forall k | 0 <= k < |s.rows| ensures !others(s.rows[k]) {
      assert k < i ==> !SameSlot(s.rows[k], s.rows[i]);
      assert k > i ==> !SameSlot(s.rows[i], s.rows[k]);
    }
    WithoutNone(s.rows, others);
  }

  lemma OneRowPerSlot(rows: seq<Row>, a: nat, b: nat)
    requires OnePerSlot(rows) && a < |rows| && b < |rows|
    ensures SameSlot(rows[a], rows[b]) ==> a == b
  {
    assert SameSlot(rows[a], rows[b]) == SameSlot(rows[b], rows[a]);
  }

  lemma FoundInPlace(rows: seq<Row>, i: nat)
    requires OnePerSlot(rows) && i < |rows|
    ensures FindRow(rows, rows[i].user, rows[i].job, rows[i].kind) == Some(i)
  {
    var found := FindRow(rows, rows[i].user, rows[i].job, rows[i].kind);
    assert rows[i] in rows;
    OneRowPerSlot(rows, found.value, i);
  }

  /** Repeating an action refreshes the snapshot and the weight where the row stands: neither its id nor its place in
      creation order changes, and no other row does. */
  lemma RepeatedActionKeepsItsPlace(s: Store, user: nat, job: nat, action: Action, facts: Snapshot, i: nat)
    requires Sound(s) && i < |s.rows|
    requires s.rows[i].user == user && s.rows[i].job == job && s.rows[i].kind == Taught(action).0
    ensures Step(s, Record(user, job, action, facts))
         == s.(rows := s.rows[i := s.rows[i].(facts := facts, weight := Taught(action).1)])
  {
    if Taught(action).0 in VERDICTS { NothingToClear(s, user, job, i); }
    FoundInPlace(s.rows, i);
  }

  // ----- what a job contributes -----

  function Contribution(rows: seq<Row>, user: nat, job: nat): real {
    if rows == [] then 0.0
    else
      var last := rows[|rows| - 1];
      Contribution(rows[..|rows| - 1], user, job) + (if last.user == user && last.job == job then last.weight else 0.0)
  }

  predicate Has(rows: seq<Row>, user: nat, job: nat, kinds: set<Kind>) {
    exists i | 0 <= i < |rows| :: rows[i].user == user && rows[i].job == job && rows[i].kind in kinds
  }

  /** The most and the least the signals present can add up to. */
  lemma {:induction false} ContributionWithin(rows: seq<Row>, next: nat, user: nat, job: nat)
    requires Sound(Store(rows, next))
    ensures Contribution(rows, user, job) <=
            (if Has(rows, user, job, {Like}) then 1.0 else 0.0)
            + (if Has(rows, user, job, {Save}) then 1.5 else 0.0)
            + (if Has(rows, user, job, {Apply}) then 3.0 else 0.0)
    ensures Contribution(rows, user, job) >= if Has(rows, user, job, {Dislike, NotRelevant}) then -2.0 else 0.0
    decreases |rows|
  {
    if rows != [] {
      var n := |rows| - 1;
      ContributionWithin(rows[..n], next, user, job);
      forall kinds: set<Kind> ensures Has(rows, user, job, kinds) <==>
          Has(rows[..n], user, job, kinds) || (rows[n].user == user && rows[n].job == job && rows[n].kind in kinds)
      {
        HasLast(rows, user, job, kinds);
      }
      if rows[n].user == user && rows[n].job == job {
        NoOtherInSlot(rows, user, job);
      }
    }
  }

  lemma HasLast(rows: seq<Row>, user: nat, job: nat, kinds: set<Kind>)
    requires rows != []
    ensures var n := |rows| - 1;
            Has(rows, user, job, kinds) <==>
            Has(rows[..n], user, job, kinds) || (rows[n].user == user && rows[n].job == job && rows[n].kind in kinds)
  {
    var n := |rows| - 1;
    if Has(rows[..n], user, job, kinds) {
      var i :| 0 <= i < n && rows[..n][i].user == user && rows[..n][i].job == job && rows[..n][i].kind in kinds;
      assert rows[i] == rows[..n][i];
    }
    if Has(rows, user, job, kinds) {
      var i :| 0 <= i < |rows| && rows[i].user == user && rows[i].job == job && rows[i].kind in kinds;
      if i < n { assert rows[..n][i] == rows[i]; }
    }
  }

  lemma NoOtherInSlot(rows: seq<Row>, user: nat, job: nat)
    requires OnePerSlot(rows) && rows != []
    requires rows[|rows| - 1].user == user && rows[|rows| - 1].job == job
    ensures var kind := rows[|rows| - 1].kind;
            !Has(rows[..|rows| - 1], user, job, if kind in VERDICTS then VERDICTS else {kind})
    ensures var kind := rows[|rows| - 1].kind;
            kind in VERDICTS ==>
              !Has(rows[..|rows| - 1], user, job, {Like}) && !Has(rows[..|rows| - 1], user, job, {Dislike, NotRelevant})
  {
    var n := |rows| - 1;
    forall i | 0 <= i < n ensures !SameSlot(rows[..n][i], rows[n]) {
      assert rows[..n][i] == rows[i];
    }
  }

  /** Over every history, the signals on a job weigh between -2 and 5.5 altogether. */
  lemma JobWeighsWithin(events: seq<Event>, user: nat, job: nat)
    ensures -2.0 <= Contribution(Run(Store([], 0), events).rows, user, job) <= 5.5
  {
    RunKeeps(Store([], 0), events);
    var s := Run(Store([], 0), events);
    ContributionWithin(s.rows, s.next, user, job);
  }

  // ----- hiding is remembered -----

  predicate Undoes(e: Event, r: Row) {
    match e
    case Record(user, job, action, _) => user == r.user && job == r.job && SameSlot(r, r.(kind := Taught(action).0))
    case Remove(user, job, kind) => user == r.user && job == r.job && kind == r.kind
    case RemoveSignal(user, id) => user == r.user && id == r.id
    case Reset(user) => user == r.user
  }

  lemma RowSurvives(s: Store, e: Event, r: Row)
    requires r in s.rows && !Undoes(e, r)
    ensures r in Step(s, e).rows
  {
    if e.Record? {
      var (kind, weight) := Taught(e.action);
      var cleared := if kind in VERDICTS then DeleteKinds(s, e.user, e.job, VERDICTS - {kind}) else s;
      assert r in cleared.rows;
      var i :| 0 <= i < |cleared.rows| && cleared.rows[i] == r;
      var t := Upsert(cleared, e.user, e.job, kind, e.facts, weight);
      assert t.rows[i] == r;
    }
  }

  /** A signal stays, snapshot and all, until its own user replaces, removes or resets it. */
  lemma {:induction false} SignalSurvives(s: Store, events: seq<Event>, r: Row)
    requires r in s.rows && forall k :: 0 <= k < |events| ==> !Undoes(events[k], r)
    ensures r in Run(s, events).rows
    decreases |events|
  {
    if events != [] {
      SignalSurvives(s, events[..|events| - 1], r);
      RowSurvives(Run(s, events[..|events| - 1]), events[|events| - 1], r);
    }
  }

  // ----- the service -----

  class SignalStore {
    var rows: seq<Row>
    var next: nat

    constructor ()
      ensures View() == Store([], 0)
    {
      rows, next := [], 0;
    }

    function View(): Store
      reads this
    {
      Store(rows, next)
    }

    method DeleteMatching(drop: Row -> bool) returns (deleted: nat)
      modifies `rows
      ensures rows == Without(old(rows), drop) && deleted == |old(rows)| - |rows|
    {
      var kept := Without(rows, drop);
      deleted := |rows| - |kept|;
      rows := kept;
    }

    method UpsertRow(user: nat, job: nat, kind: Kind, facts: Snapshot, weight: real)
      modifies this
      ensures View() == Upsert(old(View()), user, job, kind, facts, weight)
    {
      var found := FindRow(rows, user, job, kind);
      if found.Some? {
        rows := rows[found.value := rows[found.value].(facts := facts, weight := weight)];
      } else {
        rows := rows + [Row(next, user, job, kind, facts, weight)];
        next := next + 1;
      }
    }

    method RecordAction(user: nat, job: nat, action: Action, facts: Snapshot)
      modifies this
      ensures View() == Step(old(View()), Record(user, job, action, facts))
    {
      var (kind, weight) := Taught(action);
      if kind in VERDICTS {
        var _ := DeleteMatching(InSlot(user, job, VERDICTS - {kind}));
      }
      UpsertRow(user, job, kind, facts, weight);
    }

    method RemoveOne(user: nat, job: nat, kind: Kind)
      modifies `rows
      ensures View() == Step(old(View()), Remove(user, job, kind))
    {
      var _ := DeleteMatching(InSlot(user, job, {kind}));
    }

    /** Another user's id deletes nothing. */
    method RemoveById(user: nat, id: nat) returns (removed: bool)
      modifies `rows
      ensures View() == Step(old(View()), RemoveSignal(user, id))
      ensures removed <==> exists r :: r in old(rows) && r.user == user && r.id == id
    {
      WithoutShrinksIff(rows, OfId(user, id));
      var deleted := DeleteMatching(OfId(user, id));
      removed := deleted > 0;
    }

    method ResetUser(user: nat) returns (deleted: nat)
      modifies `rows
      ensures View() == Step(old(View()), Reset(user)) && deleted == |old(rows)| - |rows|
    {
      deleted := DeleteMatching(OfUser(user));
    }
  }

  lemma {:induction false} WithoutShrinksIff(rows: seq<Row>, drop: Row -> bool)
    ensures |Without(rows, drop)| < |rows| <==> exists r :: r in rows && drop(r)
    decreases |rows|
  {
    if rows != [] {
      var n := |rows| - 1;
      WithoutShrinksIff(rows[..n], drop);
      assert rows == rows[..n] + [rows[n]];
    }
  }
}
