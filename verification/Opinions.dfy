/** What a user's actions come to: what each makes a job weigh, and that hiding a company or a role hides it. Stated
    from the actions themselves, over whole histories. */
module Opinions {
  import opened Prelude
  import opened Signals
  import opened Learning
  import Ranking
  import RankingService
  import Lessons
  import opened Tenths

  // ----- what a job weighs -----

  predicate IsVerdictOn(r: Row, user: nat, job: nat) {
    r.user == user && r.job == job && r.kind in VERDICTS
  }

  /** The weight of the user's verdict on the job. */
  function VerdictOf(rows: seq<Row>, user: nat, job: nat): Option<real> {
    if rows == [] then None
    else
      var last := rows[|rows| - 1];
      if IsVerdictOn(last, user, job) then Some(last.weight) else VerdictOf(rows[..|rows| - 1], user, job)
  }

  function Given(weight: Option<real>): real {
    if weight.Some? then weight.value else 0.0
  }

  lemma {:induction false} NoVerdict(rows: seq<Row>, user: nat, job: nat)
    ensures VerdictOf(rows, user, job).None? <==> !Has(rows, user, job, VERDICTS)
    decreases |rows|
  {
    if rows != [] {
      NoVerdict(rows[..|rows| - 1], user, job);
      HasLast(rows, user, job, VERDICTS);
    }
  }

  /** A job weighs its verdict, one and a half if it was saved and three if it was applied to. */
  lemma {:induction false} JobWeighs(rows: seq<Row>, next: nat, user: nat, job: nat)
    requires Sound(Store(rows, next))
    ensures Contribution(rows, user, job)
         == Given(VerdictOf(rows, user, job))
            + (if Has(rows, user, job, {Save}) then 1.5 else 0.0)
            + (if Has(rows, user, job, {Apply}) then 3.0 else 0.0)
    decreases |rows|
  {
    if rows != [] {
      var n := |rows| - 1;
      JobWeighs(rows[..n], next, user, job);
      HasLast(rows, user, job, {Save});
      HasLast(rows, user, job, {Apply});
      NoVerdict(rows[..n], user, job);
      if rows[n].user == user && rows[n].job == job {
        NoOtherInSlot(rows, user, job);
      }
    }
  }

  lemma {:induction false} VerdictIs(rows: seq<Row>, r: Row)
    requires OnePerSlot(rows) && r in rows && r.kind in VERDICTS
    ensures VerdictOf(rows, r.user, r.job) == Some(r.weight)
    decreases |rows|
  {
    var n := |rows| - 1;
    if IsVerdictOn(rows[n], r.user, r.job) {
      var i :| 0 <= i < |rows| && rows[i] == r;
      OneRowPerSlot(rows, i, n);
    } else {
      VerdictIs(rows[..n], r);
    }
  }

  predicate InSameSlot(r: Row, user: nat, job: nat, kind: Kind) {
    r.user == user && r.job == job && (r.kind == kind || (r.kind in VERDICTS && kind in VERDICTS))
  }

  /** There is a row saying what was recorded, and every row outside its slot stayed. */
  ghost predicate Recorded(s: Store, t: Store, user: nat, job: nat, kind: Kind, facts: Snapshot, weight: real) {
    (exists r :: r in t.rows && r.user == user && r.job == job && r.kind == kind
                 && r.facts == facts && r.weight == weight)
    && forall r :: !InSameSlot(r, user, job, kind) ==> (r in t.rows <==> r in s.rows)
  }

  lemma RecordedRows(s: Store, user: nat, job: nat, kind: Kind, facts: Snapshot, weight: real)
    requires Sound(s)
    ensures Recorded(s, RecordSignal(s, user, job, kind, facts, weight), user, job, kind, facts, weight)
  {
    var cleared := if kind in VERDICTS then DeleteKinds(s, user, job, VERDICTS - {kind}) else s;
    var t := Upsert(cleared, user, job, kind, facts, weight);
    var found := FindRow(cleared.rows, user, job, kind);
    var at := if found.Some? then found.value else |cleared.rows|;
    assert t.rows[at] in t.rows;
    forall r | !InSameSlot(r, user, job, kind) ensures r in t.rows <==> r in s.rows {
      UpsertSpares(cleared, user, job, kind, facts, weight, r);
    }
  }

  lemma UpsertSpares(s: Store, user: nat, job: nat, kind: Kind, facts: Snapshot, weight: real, r: Row)
    requires !InSameSlot(r, user, job, kind)
    ensures r in Upsert(s, user, job, kind, facts, weight).rows <==> r in s.rows
  {
    var t := Upsert(s, user, job, kind, facts, weight);
    if r in s.rows {
      var i :| 0 <= i < |s.rows| && s.rows[i] == r;
      assert t.rows[i] == r;
    }
    if r in t.rows {
      var i :| 0 <= i < |t.rows| && t.rows[i] == r;
      assert i < |s.rows| && s.rows[i] == r;
    }
  }

  lemma HasIsMembership(rows: seq<Row>, user: nat, job: nat, kind: Kind)
    ensures Has(rows, user, job, {kind}) <==> exists r :: r in rows && r.user == user && r.job == job && r.kind == kind
  {
    if Has(rows, user, job, {kind}) {
      var i :| 0 <= i < |rows| && rows[i].user == user && rows[i].job == job && rows[i].kind in {kind};
      assert rows[i] in rows;
    }
    if r :| r in rows && r.user == user && r.job == job && r.kind == kind {
      var i :| 0 <= i < |rows| && rows[i] == r;
      assert rows[i].kind in {kind};
    }
  }

  /** What the user thinks of the job after an action: a verdict replaces the one before, saving and applying stay. */
  function VerdictAfter(action: Action, before: Option<real>): Option<real> {
    match action
    case Positive => Some(1.0)
    case Interested => Some(0.7)
    case Negative => Some(-1.0)
    case Irrelevant => Some(-2.0)
    case _ => before
  }

  lemma VerdictStays(s: Store, t: Store, user: nat, job: nat, kind: Kind)
    requires Sound(s) && Sound(t) && kind !in VERDICTS
    requires forall r :: !InSameSlot(r, user, job, kind) ==> (r in t.rows <==> r in s.rows)
    ensures VerdictOf(t.rows, user, job) == VerdictOf(s.rows, user, job)
  {
    NoVerdict(s.rows, user, job);
    NoVerdict(t.rows, user, job);
    HasVerdict(s.rows, user, job);
    HasVerdict(t.rows, user, job);
    if r :| r in s.rows && IsVerdictOn(r, user, job) {
      VerdictIs(s.rows, r);
      VerdictIs(t.rows, r);
    }
  }

  lemma HasVerdict(rows: seq<Row>, user: nat, job: nat)
    ensures Has(rows, user, job, VERDICTS) <==> exists r :: r in rows && IsVerdictOn(r, user, job)
  {
    if Has(rows, user, job, VERDICTS) {
      var i :| 0 <= i < |rows| && rows[i].user == user && rows[i].job == job && rows[i].kind in VERDICTS;
      assert rows[i] in rows;
    }
    if r :| r in rows && IsVerdictOn(r, user, job) {
      var i :| 0 <= i < |rows| && rows[i] == r;
      assert rows[i].kind in VERDICTS;
    }
  }

  lemma VerdictGiven(t: Store, user: nat, job: nat, kind: Kind, weight: real)
    requires Sound(t) && kind in VERDICTS
    requires exists r :: r in t.rows && r.user == user && r.job == job && r.kind == kind && r.weight == weight
    ensures VerdictOf(t.rows, user, job) == Some(weight)
  {
    var r :| r in t.rows && r.user == user && r.job == job && r.kind == kind && r.weight == weight;
    VerdictIs(t.rows, r);
  }

  lemma KindStays(s: Store, t: Store, user: nat, job: nat, kind: Kind, other: Kind)
    requires other !in VERDICTS && other != kind
    requires forall r :: !InSameSlot(r, user, job, kind) ==> (r in t.rows <==> r in s.rows)
    ensures Has(t.rows, user, job, {other}) == Has(s.rows, user, job, {other})
  {
    HasIsMembership(s.rows, user, job, other);
    HasIsMembership(t.rows, user, job, other);
    assert forall r: Row :: r.kind == other ==> !InSameSlot(r, user, job, kind);
  }

  /** After any history, one more action on a job leaves it weighing: for the verdict one for a like, seven tenths for an
      interest, minus one for a dislike, minus two for irrelevance, else what it was; one and a half more if it is
      saved now or was; three more if it is applied to now or was. Hiding changes none of this. */
  lemma ActionWeighs(events: seq<Event>, user: nat, job: nat, action: Action, facts: Snapshot)
    ensures var s := Run(Store([], 0), events);
            var t := Run(Store([], 0), events + [Record(user, job, action, facts)]);
            Contribution(t.rows, user, job)
            == Given(VerdictAfter(action, VerdictOf(s.rows, user, job)))
               + (if action.Saved? || Has(s.rows, user, job, {Save}) then 1.5 else 0.0)
               + (if action.Applied? || Has(s.rows, user, job, {Apply}) then 3.0 else 0.0)
  {
    var s := Run(Store([], 0), events);
    var e := Record(user, job, action, facts);
    RunMore(Store([], 0), events, e);
    RunKeeps(Store([], 0), events);
    StepKeeps(s, e);
    var t := Step(s, e);
    JobWeighs(t.rows, t.next, user, job);
    RecordedRows(s, user, job, Taught(action).0, facts, Taught(action).1);
    RecordedOpinion(s, t, user, job, action, facts);
  }

  lemma RunMore(s: Store, events: seq<Event>, e: Event)
    ensures Run(s, events + [e]) == Step(Run(s, events), e)
  {
    assert (events + [e])[..|events|] == events;
  }

  lemma RecordedKinds(
    s: Store, t: Store, user: nat, job: nat, kind: Kind, facts: Snapshot, weight: real, other: Kind)
    requires other !in VERDICTS && Recorded(s, t, user, job, kind, facts, weight)
    ensures Has(t.rows, user, job, {other}) == (kind == other || Has(s.rows, user, job, {other}))
  {
    if kind == other { HasIsMembership(t.rows, user, job, other); } else { KindStays(s, t, user, job, kind, other); }
  }

  lemma RecordedVerdict(s: Store, t: Store, user: nat, job: nat, kind: Kind, facts: Snapshot, weight: real)
    requires Sound(s) && Sound(t) && Recorded(s, t, user, job, kind, facts, weight)
    ensures VerdictOf(t.rows, user, job) == if kind in VERDICTS then Some(weight) else VerdictOf(s.rows, user, job)
  {
    if kind in VERDICTS {
      VerdictGiven(t, user, job, kind, weight);
    } else {
      VerdictStays(s, t, user, job, kind);
    }
  }

  lemma TaughtMeans(action: Action, before: Option<real>)
    ensures var (kind, weight) := Taught(action);
            VerdictAfter(action, before) == (if kind in VERDICTS then Some(weight) else before)
            && (kind == Save <==> action.Saved?) && (kind == Apply <==> action.Applied?)
  {
  }

  lemma RecordedOpinion(s: Store, t: Store, user: nat, job: nat, action: Action, facts: Snapshot)
    requires Sound(s) && Sound(t) && Recorded(s, t, user, job, Taught(action).0, facts, Taught(action).1)
    ensures VerdictOf(t.rows, user, job) == VerdictAfter(action, VerdictOf(s.rows, user, job))
    ensures Has(t.rows, user, job, {Save}) == (action.Saved? || Has(s.rows, user, job, {Save}))
    ensures Has(t.rows, user, job, {Apply}) == (action.Applied? || Has(s.rows, user, job, {Apply}))
  {
    var (kind, weight) := Taught(action);
    RecordedVerdict(s, t, user, job, kind, facts, weight);
    RecordedKinds(s, t, user, job, kind, facts, weight, Save);
    RecordedKinds(s, t, user, job, kind, facts, weight, Apply);
    TaughtMeans(action, VerdictOf(s.rows, user, job));
  }

  /** What a user does to one job leaves every other job, and every other user's opinion of it, as it was. */
  lemma OthersKeepTheirs(events: seq<Event>, user: nat, job: nat, action: Action, facts: Snapshot, u: nat, j: nat)
    requires (u, j) != (user, job)
    ensures var s := Run(Store([], 0), events);
            var t := Run(Store([], 0), events + [Record(user, job, action, facts)]);
            Contribution(t.rows, u, j) == Contribution(s.rows, u, j)
  {
    var s := Run(Store([], 0), events);
    var e := Record(user, job, action, facts);
    RunMore(Store([], 0), events, e);
    RunKeeps(Store([], 0), events);
    StepKeeps(s, e);
    var t := Step(s, e);
    var (kind, weight) := Taught(action);
    RecordedRows(s, user, job, kind, facts, weight);
    JobWeighs(s.rows, s.next, u, j);
    JobWeighs(t.rows, t.next, u, j);
    SameOpinion(s, t, u, j);
  }

  lemma SameOpinion(s: Store, t: Store, u: nat, j: nat)
    requires Sound(s) && Sound(t) && forall r: Row :: r.user == u && r.job == j ==> (r in t.rows <==> r in s.rows)
    ensures VerdictOf(t.rows, u, j) == VerdictOf(s.rows, u, j)
    ensures Has(t.rows, u, j, {Save}) == Has(s.rows, u, j, {Save})
    ensures Has(t.rows, u, j, {Apply}) == Has(s.rows, u, j, {Apply})
  {
    HasIsMembership(s.rows, u, j, Save);
    HasIsMembership(t.rows, u, j, Save);
    HasIsMembership(s.rows, u, j, Apply);
    HasIsMembership(t.rows, u, j, Apply);
    NoVerdict(s.rows, u, j);
    NoVerdict(t.rows, u, j);
    HasVerdict(s.rows, u, j);
    HasVerdict(t.rows, u, j);
    if r :| r in s.rows && IsVerdictOn(r, u, j) {
      VerdictIs(s.rows, r);
      VerdictIs(t.rows, r);
    }
  }

  // ----- taking back -----

  /** What a user takes back is gone: the one kind on the one job, the one signal, or everything of that user; every other
      row stays. */
  lemma TakenBackIsGone(events: seq<Event>, e: Event, r: Row)
    requires !e.Record?
    ensures var s, t := Run(Store([], 0), events), Run(Store([], 0), events + [e]);
            r in t.rows <==>
            r in s.rows
            && match e
               case Remove(user, job, kind) => !(r.user == user && r.job == job && r.kind == kind)
               case RemoveSignal(user, id) => !(r.user == user && r.id == id)
               case Reset(user) => r.user != user
               case _ => true
  {
    RunMore(Store([], 0), events, e);
  }

  /** A candidate is in a user's feed exactly when no hide of that user that still stands names its company, or its role,
      or one too close to it: what was taken back hides nothing. */
  lemma FeedShowsIff(
    events: seq<Event>, user: nat, rows: seq<Ranking.Candidate>, w: Ranking.Weights, round: Rounding,
    c: Ranking.Candidate)
    requires c in rows
    ensures var s := Run(Store([], 0), events);
            var prefs := LearnedFrom(RankingService.RowsOf(s, user));
            Ranking.RankOne(c, prefs, w, round) in Ranking.Rank(rows, prefs, w, round, true) <==>
            !(exists r :: r in s.rows && r.user == user && HidesCompanyOf(r, c))
            && !(exists r :: r in s.rows && r.user == user && HidesRoleOf(r, c, w))
  {
    var s := Run(Store([], 0), events);
    var own := RankingService.RowsOf(s, user);
    var prefs := LearnedFrom(own);
    Ranking.ShownIff(rows, prefs, w, round, c);
    HiddenCompanyIff(own, c);
    HiddenRoleIff(own, c, w);
    assert forall r :: r in own <==> r in s.rows && r.user == user;
  }

  predicate HidesCompanyOf(r: Row, c: Ranking.Candidate) {
    r.kind == HideCompany && c.companyKey != [] && r.facts.companyKey == c.companyKey
  }

  predicate HidesRoleOf(r: Row, c: Ranking.Candidate, w: Ranking.Weights) {
    r.kind == HideRole && c.roleKey != ""
    && (r.facts.roleKey == c.roleKey || Ranking.TokenJaccard(c.roleKey, r.facts.roleKey) >= w.roleHide)
  }

  lemma HiddenCompanyIff(own: seq<Row>, c: Ranking.Candidate)
    ensures (c.companyKey != [] && exists h :: h in LearnedFrom(own).hiddenCompanies && h.key == c.companyKey) <==>
            exists r :: r in own && HidesCompanyOf(r, c)
  {
    var hidden := LearnedFrom(own).hiddenCompanies;
    Lessons.HiddenLearned(own, c.companyKey, "");
    if h :| h in hidden && h.key == c.companyKey {
      var k :| 0 <= k < |hidden| && hidden[k] == h;
      assert IsHidden(hidden, c.companyKey);
    }
    if r :| r in own && HidesCompanyOf(r, c) {
      var k :| 0 <= k < |hidden| && hidden[k].key == c.companyKey;
      assert hidden[k] in hidden;
    }
  }

  lemma HiddenRoleIff(own: seq<Row>, c: Ranking.Candidate, w: Ranking.Weights)
    ensures (c.roleKey != ""
             && exists h :: h in LearnedFrom(own).hiddenRoles
                            && (h.key == c.roleKey || Ranking.TokenJaccard(c.roleKey, h.key) >= w.roleHide)) <==>
            exists r :: r in own && HidesRoleOf(r, c, w)
  {
    var hidden := LearnedFrom(own).hiddenRoles;
    if h :| h in hidden && (h.key == c.roleKey || Ranking.TokenJaccard(c.roleKey, h.key) >= w.roleHide) {
      var k :| 0 <= k < |hidden| && hidden[k] == h;
      assert hidden[k].key == h.key && IsHidden(hidden, h.key);
      Lessons.HiddenLearned(own, [], h.key);
      var r :| r in own && r.kind == HideRole && r.facts.roleKey == h.key;
      assert c.roleKey != "" ==> HidesRoleOf(r, c, w);
    }
    if r :| r in own && HidesRoleOf(r, c, w) {
      Lessons.HiddenLearned(own, [], r.facts.roleKey);
      var k :| 0 <= k < |hidden| && hidden[k].key == r.facts.roleKey;
      assert hidden[k] in hidden;
    }
  }

  // ----- hiding hides -----

  /** The event takes the hiding back, or hides the same job's company or role anew. */
  predicate Lifts(e: Event, hidden: Row, action: Action) {
    match e
    case Record(user, job, a, _) => user == hidden.user && job == hidden.job && a == action
    case Remove(user, job, kind) => user == hidden.user && job == hidden.job && kind == hidden.kind
    case RemoveSignal(user, id) => user == hidden.user && id == hidden.id
    case Reset(user) => user == hidden.user
  }

  /** The rows of that user, job and kind are not lifted by what follows. */
  ghost predicate StaysHidden(rows: seq<Row>, later: seq<Event>, user: nat, job: nat, kind: Kind, action: Action) {
    forall r, k :: r in rows && r.user == user && r.job == job && r.kind == kind && 0 <= k < |later| ==>
      !Lifts(later[k], r, action)
  }

  lemma HidingRow(events: seq<Event>, later: seq<Event>, user: nat, job: nat, action: Action, facts: Snapshot)
    returns (hiding: Row)
    requires action == HidCompany || action == HidRole
    requires var kind := if action == HidCompany then HideCompany else HideRole;
             StaysHidden(Run(Store([], 0), events + [Record(user, job, action, facts)]).rows, later,
                         user, job, kind, action)
    ensures var s := Run(Store([], 0), events + [Record(user, job, action, facts)]);
            hiding in s.rows && hiding.user == user && hiding.facts == facts
            && hiding.kind == (if action == HidCompany then HideCompany else HideRole)
            && forall k :: 0 <= k < |later| ==> !Undoes(later[k], hiding)
  {
    var before := Run(Store([], 0), events);
    var (kind, weight) := Taught(action);
    RunMore(Store([], 0), events, Record(user, job, action, facts));
    RunKeeps(Store([], 0), events);
    RecordedRows(before, user, job, kind, facts, weight);
    var s := Step(before, Record(user, job, action, facts));
    hiding :| hiding in s.rows && hiding.user == user && hiding.job == job && hiding.kind == kind
              && hiding.facts == facts && hiding.weight == weight;
    forall k | 0 <= k < |later| ensures !Undoes(later[k], hiding) {
      assert !Lifts(later[k], hiding, action);
    }
  }

  /** A user who hides the company of a job sees no candidate of that company in any feed, after whatever history, until
      the hiding is taken back. */
  lemma HidingACompanyHidesIt(
    events: seq<Event>, user: nat, job: nat, facts: Snapshot, later: seq<Event>,
    rows: seq<Ranking.Candidate>, w: Ranking.Weights, round: Rounding, limit: nat, offset: nat, shown: Ranking.Ranked)
    requires facts.companyKey != []
    requires var s := Run(Store([], 0), events + [Record(user, job, HidCompany, facts)]);
             StaysHidden(s.rows, later, user, job, HideCompany, HidCompany)
             && shown in Ranking.Recommended(
                           rows, LearnedFrom(RankingService.RowsOf(Run(s, later), user)), w, round, limit, offset).0
    ensures shown.candidate.companyKey != facts.companyKey
  {
    var s := Run(Store([], 0), events + [Record(user, job, HidCompany, facts)]);
    var hiding := HidingRow(events, later, user, job, HidCompany, facts);
    RankingService.HiddenCompanyStaysHidden(s, hiding, later, rows, w, round, limit, offset, shown);
  }

  /** Nor any candidate whose role is the hidden one or too close to it. */
  lemma HidingARoleHidesIt(
    events: seq<Event>, user: nat, job: nat, facts: Snapshot, later: seq<Event>,
    rows: seq<Ranking.Candidate>, w: Ranking.Weights, round: Rounding, limit: nat, offset: nat, shown: Ranking.Ranked)
    requires shown.candidate.roleKey != ""
    requires var s := Run(Store([], 0), events + [Record(user, job, HidRole, facts)]);
             StaysHidden(s.rows, later, user, job, HideRole, HidRole)
             && shown in Ranking.Recommended(
                           rows, LearnedFrom(RankingService.RowsOf(Run(s, later), user)), w, round, limit, offset).0
    ensures shown.candidate.roleKey != facts.roleKey
    ensures Ranking.TokenJaccard(shown.candidate.roleKey, facts.roleKey) < w.roleHide
  {
    var s := Run(Store([], 0), events + [Record(user, job, HidRole, facts)]);
    var hiding := HidingRow(events, later, user, job, HidRole, facts);
    RankingService.HiddenRoleStaysHidden(s, hiding, later, rows, w, round, limit, offset, shown);
  }
}
