/** Refresh-token rotation over two expiring structures: one key per live token, one set of tokens per user.
    Time is milliseconds on one clock. A token's identifier is its position among all tokens ever issued, so
    identifiers never repeat. */
module RefreshTokens {
  import opened Prelude

  const SECOND := 1000

  datatype Token = Token(user: nat, exp: int)
  datatype Key = Key(user: nat, until: int)
  /** No `until` means no expiry has been set yet. */
  datatype Family = Family(members: set<nat>, until: Option<int>)

  datatype State = State(
    now: int, keys: map<nat, Key>, families: map<nat, Family>, issued: seq<Token>, active: set<nat>)
  {
    predicate Live(j: nat) {
      j in keys && now < keys[j].until
    }

    predicate FamilyLive(user: nat) {
      user in families && (families[user].until.Some? ==> now < families[user].until.value)
    }

    function Members(user: nat): set<nat> {
      if FamilyLive(user) then families[user].members else {}
    }

    /** Signed by this service and not past its expiry; anything else fails to decode. */
    predicate Decodes(j: nat) {
      j < |issued| && now < issued[j].exp
    }

    function LiveOf(user: nat): set<nat> {
      set j | j in keys && Live(j) && keys[j].user == user
    }
  }

  /** Delays inside one call: before the key is read, set, added to the family, and before the family's expiry is
      renewed. */
  datatype Lags = Lags(read: nat, write: nat, add: nat, renew: nat)

  // ----- steps -----

  function Tick(s: State, d: nat): State {
    s.(now := s.now + d)
  }

  function SetKey(s: State, ttl: nat, j: nat, user: nat): State {
    s.(keys := s.keys[j := Key(user, s.now + ttl)])
  }

  function AddMember(s: State, user: nat, j: nat): State {
    var until := if s.FamilyLive(user) then s.families[user].until else None;
    s.(families := s.families[user := Family(s.Members(user) + {j}, until)])
  }

  /** Does nothing when the family is gone. */
  function Renew(s: State, ttl: nat, user: nat): State {
    if s.FamilyLive(user) then
      s.(families := s.families[user := s.families[user].(until := Some(s.now + ttl))])
    else s
  }

  function Expiry(now: int, ttl: nat): int {
    now - now % SECOND + ttl
  }

  function Issue(s: State, ttl: nat, user: nat, lags: Lags): (State, nat) {
    var j := |s.issued|;
    var signed := s.(issued := s.issued + [Token(user, Expiry(s.now, ttl))]);
    var stored := SetKey(Tick(signed, lags.write), ttl, j, user);
    var added := AddMember(Tick(stored, lags.add), user, j);
    (Renew(Tick(added, lags.renew), ttl, user), j)
  }

  /** Removing the last member removes the family. */
  function Revoke(s: State, user: nat, j: nat): State {
    var rest := s.Members(user) - {j};
    s.(keys := s.keys - {j},
       families := if s.FamilyLive(user) && rest != {} then s.families[user := s.families[user].(members := rest)]
                   else s.families - {user})
  }

  function RevokeAll(s: State, user: nat): State {
    s.(keys := s.keys - s.Members(user), families := s.families - {user})
  }

  datatype Outcome = Rotated(successor: nat) | Replayed | Rejected

  function Refresh(s: State, ttl: nat, p: nat, lags: Lags): (State, Outcome) {
    if !s.Decodes(p) then (s, Rejected)
    else
      var user := s.issued[p].user;
      var r := Tick(s, lags.read);
      if !r.Live(p) then (RevokeAll(r, user), Replayed)
      else if r.keys[p].user != user || user !in r.active then (r, Rejected)
      else
        var (t, j) := Issue(Revoke(r, user, p), ttl, user, lags);
        (t, Rotated(j))
  }

  function Logout(s: State, p: nat): State {
    if s.Decodes(p) then Revoke(s, s.issued[p].user, p) else s
  }

  function Login(s: State, ttl: nat, user: nat, password: bool, lags: Lags): State {
    if password && user in s.active then Issue(s, ttl, user, lags).0 else s
  }

  datatype Event =
    | LogIn(user: nat, password: bool, lags: Lags)
    | Present(p: nat, lags: Lags)
    | LogOut(p: nat)
    | Pass(d: nat)
    | Enable(user: nat)
    | Disable(user: nat)

  function Apply(s: State, ttl: nat, e: Event): State {
    match e
    case LogIn(user, password, lags) => Login(s, ttl, user, password, lags)
    case Present(p, lags) => Refresh(s, ttl, p, lags).0
    case LogOut(p) => Logout(s, p)
    case Pass(d) => Tick(s, d)
    case Enable(user) => s.(active := s.active + {user})
    case Disable(user) => s.(active := s.active - {user})
  }

  function Run(s: State, ttl: nat, events: seq<Event>): State {
    if events == [] then s else Apply(Run(s, ttl, events[..|events| - 1]), ttl, events[|events| - 1])
  }

  // ----- the invariant -----

  ghost predicate KeysMatchTokens(s: State, ttl: nat) {
    forall j :: j in s.keys ==>
      j < |s.issued| && s.keys[j].user == s.issued[j].user
      && s.issued[j].exp <= s.keys[j].until <= s.now + ttl
  }

  ghost predicate FamiliesAreOwn(s: State, ttl: nat) {
    forall u :: u in s.families ==>
      (forall j :: j in s.families[u].members ==> j < |s.issued| && s.issued[j].user == u)
      && s.families[u].until.Some? && s.families[u].until.value <= s.now + ttl
  }

  ghost predicate Covered(s: State, j: nat)
    requires j in s.keys
  {
    var u := s.keys[j].user;
    s.FamilyLive(u) && j in s.families[u].members
    && (s.families[u].until.Some? ==> s.keys[j].until <= s.families[u].until.value)
  }

  /** Every live key is in its user's live family, and the family outlives it. */
  ghost predicate LiveKeysCovered(s: State) {
    forall j :: j in s.keys && s.Live(j) ==> Covered(s, j)
  }

  ghost predicate Sound(s: State, ttl: nat) {
    KeysMatchTokens(s, ttl) && FamiliesAreOwn(s, ttl) && LiveKeysCovered(s)
  }

  /** The family does not expire between being added to and being renewed. */
  predicate RenewedInTime(s: State, user: nat, lags: Lags) {
    var added := Tick(s, lags.write + lags.add);
    added.FamilyLive(user) && added.families[user].until.Some? ==>
      added.now + lags.renew < added.families[user].until.value
  }

  predicate Steady(s: State, e: Event) {
    match e
    case LogIn(user, password, lags) => RenewedInTime(s, user, lags)
    case Present(p, lags) =>
      s.Decodes(p) && Tick(s, lags.read).Live(p) ==>
        RenewedInTime(Revoke(Tick(s, lags.read), s.issued[p].user, p), s.issued[p].user, lags)
    case _ => true
  }

  predicate SteadyRun(s: State, ttl: nat, events: seq<Event>) {
    forall k | 0 <= k < |events| :: Steady(Run(s, ttl, events[..k]), events[k])
  }

  lemma TickKeeps(s: State, ttl: nat, d: nat)
    requires Sound(s, ttl)
    ensures Sound(Tick(s, d), ttl)
  {
    var t := Tick(s, d);
    forall j | j in t.keys && t.Live(j) ensures Covered(t, j) {
      assert s.Live(j) && Covered(s, j);
    }
  }

  lemma RevokeKeeps(s: State, ttl: nat, user: nat, p: nat)
    requires Sound(s, ttl)
    ensures Sound(Revoke(s, user, p), ttl)
  {
    var t := Revoke(s, user, p);
    forall j | j in t.keys && t.Live(j) ensures Covered(t, j) {
      assert s.Live(j) && Covered(s, j);
    }
  }

  lemma RevokeAllKeeps(s: State, ttl: nat, user: nat)
    requires Sound(s, ttl)
    ensures Sound(RevokeAll(s, user), ttl)
    ensures RevokeAll(s, user).LiveOf(user) == {}
  {
    var t := RevokeAll(s, user);
    forall j | j in t.keys && t.Live(j) ensures Covered(t, j) && t.keys[j].user != user {
      assert s.Live(j) && Covered(s, j);
    }
  }

  lemma IssueShape(s: State, ttl: nat, user: nat, lags: Lags)
    requires Sound(s, ttl) && RenewedInTime(s, user, lags)
    ensures var (t, j) := Issue(s, ttl, user, lags);
            var added := Tick(s, lags.write + lags.add);
            t.now == s.now + lags.write + lags.add + lags.renew
            && t.issued == s.issued + [Token(user, Expiry(s.now, ttl))] && j == |s.issued|
            && t.keys == s.keys[j := Key(user, s.now + lags.write + ttl)]
            && t.families == s.families[user := Family(added.Members(user) + {j}, Some(t.now + ttl))]
  {
    var j := |s.issued|;
    var signed := s.(issued := s.issued + [Token(user, Expiry(s.now, ttl))]);
    var stored := SetKey(Tick(signed, lags.write), ttl, j, user);
    var before := Tick(stored, lags.add);
    var added := Tick(AddMember(before, user, j), lags.renew);
    assert before.Members(user) == Tick(s, lags.write + lags.add).Members(user);
    assert added.families == s.families[user := Family(before.Members(user) + {j}, added.families[user].until)];
    assert added.FamilyLive(user);
  }

  lemma IssueKeeps(s: State, ttl: nat, user: nat, lags: Lags)
    requires Sound(s, ttl) && RenewedInTime(s, user, lags) && ttl > 0
    ensures Sound(Issue(s, ttl, user, lags).0, ttl)
  {
    var (t, n) := Issue(s, ttl, user, lags);
    IssueShape(s, ttl, user, lags);
    forall j | j in t.keys && t.Live(j) ensures Covered(t, j) {
      if j != n {
        assert s.Live(j) && Covered(s, j);
      }
    }
  }

  lemma StepKeeps(s: State, ttl: nat, e: Event)
    requires Sound(s, ttl) && Steady(s, e) && ttl > 0
    ensures Sound(Apply(s, ttl, e), ttl)
  {
    match e {
      case LogIn(user, password, lags) => if password && user in s.active { IssueKeeps(s, ttl, user, lags); }
      case Present(p, lags) => PresentKeeps(s, ttl, p, lags);
      case LogOut(p) => if s.Decodes(p) { RevokeKeeps(s, ttl, s.issued[p].user, p); }
      case Pass(d) => TickKeeps(s, ttl, d);
      case Enable(user) => ActiveIsIrrelevant(s, ttl, s.active + {user});
      case Disable(user) => ActiveIsIrrelevant(s, ttl, s.active - {user});
    }
  }

  lemma ActiveIsIrrelevant(s: State, ttl: nat, active: set<nat>)
    requires Sound(s, ttl)
    ensures Sound(s.(active := active), ttl)
  {
    var t := s.(active := active);
    forall j | j in t.keys && t.Live(j) ensures Covered(t, j) {
      assert s.Live(j) && Covered(s, j);
    }
  }

  lemma PresentKeeps(s: State, ttl: nat, p: nat, lags: Lags)
    requires Sound(s, ttl) && Steady(s, Present(p, lags)) && ttl > 0
    ensures Sound(Refresh(s, ttl, p, lags).0, ttl)
  {
    if s.Decodes(p) {
      var user := s.issued[p].user;
      var r := Tick(s, lags.read);
      TickKeeps(s, ttl, lags.read);
      if r.Live(p) {
        RevokeKeeps(r, ttl, user, p);
        IssueKeeps(Revoke(r, user, p), ttl, user, lags);
      } else {
        RevokeAllKeeps(r, ttl, user);
      }
    }
  }

  lemma SteadyPrefix(s: State, ttl: nat, events: seq<Event>, n: nat)
    requires SteadyRun(s, ttl, events) && n <= |events|
    ensures SteadyRun(s, ttl, events[..n])
  {
    forall k | 0 <= k < n ensures Steady(Run(s, ttl, events[..n][..k]), events[..n][k]) {
      assert events[..n][..k] == events[..k];
    }
  }

  /** The token-family invariant, in every state any history of logins, refreshes, replays, logouts, clock ticks and
      account changes reaches. */
  lemma {:induction false} FamiliesCoverLiveKeys(s: State, ttl: nat, events: seq<Event>)
    requires Sound(s, ttl) && ttl > 0 && SteadyRun(s, ttl, events)
    ensures Sound(Run(s, ttl, events), ttl)
    decreases |events|
  {
    if events != [] {
      var n := |events| - 1;
      SteadyPrefix(s, ttl, events, n);
      FamiliesCoverLiveKeys(s, ttl, events[..n]);
      StepKeeps(Run(s, ttl, events[..n]), ttl, events[n]);
    }
  }

  // ----- tokens are used once -----

  /** A token issued before, whose key is gone or expired: nothing can bring it back. */
  predicate Dead(s: State, j: nat) {
    j < |s.issued| && !s.Live(j)
  }

  lemma IssueTouchesOnlyTheNewKey(s: State, ttl: nat, user: nat, lags: Lags)
    ensures var (t, n) := Issue(s, ttl, user, lags);
            t.now >= s.now && n == |s.issued| && t.keys == s.keys[n := Key(user, s.now + lags.write + ttl)]
            && t.issued == s.issued + [Token(user, Expiry(s.now, ttl))] && t.active == s.active
  {
  }

  lemma DeadStaysDead(s: State, ttl: nat, e: Event, j: nat)
    requires Dead(s, j)
    ensures Dead(Apply(s, ttl, e), j)
  {
    match e {
      case LogIn(user, password, lags) => IssueTouchesOnlyTheNewKey(s, ttl, user, lags);
      case Present(p, lags) =>
        if s.Decodes(p) {
          var r := Tick(s, lags.read);
          IssueTouchesOnlyTheNewKey(Revoke(r, s.issued[p].user, p), ttl, s.issued[p].user, lags);
        }
      case _ =>
    }
  }

  lemma {:induction false} DeadForGood(s: State, ttl: nat, events: seq<Event>, j: nat)
    requires Dead(s, j)
    ensures Dead(Run(s, ttl, events), j)
    decreases |events|
  {
    if events != [] {
      DeadForGood(s, ttl, events[..|events| - 1], j);
      DeadStaysDead(Run(s, ttl, events[..|events| - 1]), ttl, events[|events| - 1], j);
    }
  }

  lemma RunStep(s: State, ttl: nat, events: seq<Event>, k: nat)
    requires k < |events|
    ensures Run(s, ttl, events[..k + 1]) == Apply(Run(s, ttl, events[..k]), ttl, events[k])
  {
    assert events[..k + 1][..k] == events[..k];
  }

  lemma {:induction false} DeadAfterPrefix(s: State, ttl: nat, events: seq<Event>, n: nat, j: nat)
    requires n <= |events| && Dead(Run(s, ttl, events[..n]), j)
    ensures Dead(Run(s, ttl, events), j)
    decreases |events|
  {
    if n == |events| {
      assert events[..n] == events;
    } else {
      var last := |events| - 1;
      assert events[..last][..n] == events[..n];
      DeadAfterPrefix(s, ttl, events[..last], n, j);
      DeadStaysDead(Run(s, ttl, events[..last]), ttl, events[last], j);
    }
  }

  /** The event exchanges token `j` for a successor. */
  predicate Accepts(s: State, ttl: nat, e: Event, j: nat) {
    e.Present? && e.p == j && Refresh(s, ttl, j, e.lags).1.Rotated?
  }

  lemma AcceptedThenDead(s: State, ttl: nat, e: Event, j: nat)
    requires Accepts(s, ttl, e, j)
    ensures !Dead(s, j) && Dead(Apply(s, ttl, e), j)
  {
    var r := Tick(s, e.lags.read);
    IssueTouchesOnlyTheNewKey(Revoke(r, s.issued[j].user, j), ttl, s.issued[j].user, e.lags);
  }

  /** Over any run, from any state at all, a token is accepted at most once. */
  lemma AcceptedAtMostOnce(s: State, ttl: nat, events: seq<Event>, i: nat, k: nat, j: nat)
    requires i < k < |events|
    requires Accepts(Run(s, ttl, events[..i]), ttl, events[i], j)
    ensures !Accepts(Run(s, ttl, events[..k]), ttl, events[k], j)
  {
    RunStep(s, ttl, events, i);
    AcceptedThenDead(Run(s, ttl, events[..i]), ttl, events[i], j);
    assert events[..k][..i + 1] == events[..i + 1];
    DeadAfterPrefix(s, ttl, events[..k], i + 1, j);
    if Accepts(Run(s, ttl, events[..k]), ttl, events[k], j) {
      AcceptedThenDead(Run(s, ttl, events[..k]), ttl, events[k], j);
    }
  }

  predicate DetectsReplay(s: State, ttl: nat, e: Event, user: nat) {
    e.Present? && s.Decodes(e.p) && s.issued[e.p].user == user && Refresh(s, ttl, e.p, e.lags).1.Replayed?
  }

  /** Once a replay is detected, no token that user held before is accepted on any later run. */
  lemma ReplayEndsEveryEarlierSession(s: State, ttl: nat, e: Event, later: seq<Event>, next: Event, user: nat, j: nat)
    requires Sound(s, ttl) && DetectsReplay(s, ttl, e, user)
    requires j < |s.issued| && s.issued[j].user == user
    ensures !Accepts(Run(Apply(s, ttl, e), ttl, later), ttl, next, j)
  {
    var r := Tick(s, e.lags.read);
    TickKeeps(s, ttl, e.lags.read);
    RevokeAllKeeps(r, ttl, user);
    assert Dead(Apply(s, ttl, e), j) by {
      assert j !in RevokeAll(r, user).LiveOf(user);
    }
    DeadForGood(Apply(s, ttl, e), ttl, later, j);
    if Accepts(Run(Apply(s, ttl, e), ttl, later), ttl, next, j) {
      AcceptedThenDead(Run(Apply(s, ttl, e), ttl, later), ttl, next, j);
    }
  }

  /** The other users' sessions survive it. */
  lemma ReplayLeavesOthersAlone(s: State, ttl: nat, user: nat, other: nat)
    requires Sound(s, ttl) && other != user
    ensures RevokeAll(s, user).LiveOf(other) == s.LiveOf(other)
  {
    forall j | j in s.LiveOf(other) ensures j !in s.Members(user) {
    }
  }

  // ----- an absent key means the token was used up -----

  /** The event used up token `j`: it was exchanged, logged out, or revoked with its whole family. */
  predicate Consumes(s: State, ttl: nat, e: Event, j: nat) {
    j < |s.issued|
    && match e
       case Present(p, lags) =>
         Accepts(s, ttl, e, j) || DetectsReplay(s, ttl, e, s.issued[j].user)
       case LogOut(p) => p == j && s.Decodes(p)
       case _ => false
  }

  lemma OnlyConsumptionRemovesKeys(s: State, ttl: nat, e: Event, j: nat)
    requires Sound(s, ttl) && j in s.keys && j !in Apply(s, ttl, e).keys
    ensures Consumes(s, ttl, e, j)
  {
    match e {
      case LogIn(user, password, lags) =>
        IssueTouchesOnlyTheNewKey(s, ttl, user, lags);
      case Present(p, lags) =>
        var user := s.issued[p].user;
        var r := Tick(s, lags.read);
        if r.Live(p) {
          IssueTouchesOnlyTheNewKey(Revoke(r, user, p), ttl, user, lags);
        } else {
          assert j in r.Members(user);
        }
      case _ =>
    }
  }

  lemma IssuedHasKey(s: State, ttl: nat, e: Event, j: nat)
    requires |s.issued| <= j < |Apply(s, ttl, e).issued|
    ensures j in Apply(s, ttl, e).keys
  {
    match e {
      case LogIn(user, password, lags) => IssueTouchesOnlyTheNewKey(s, ttl, user, lags);
      case Present(p, lags) =>
        var user := s.issued[p].user;
        IssueTouchesOnlyTheNewKey(Revoke(Tick(s, lags.read), user, p), ttl, user, lags);
      case _ =>
    }
  }

  ghost predicate ConsumedIn(s: State, ttl: nat, events: seq<Event>, j: nat) {
    exists k: nat :: ConsumedAt(s, ttl, events, j, k)
  }

  ghost predicate ConsumedAt(s: State, ttl: nat, events: seq<Event>, j: nat, k: nat) {
    k < |events| && Consumes(Run(s, ttl, events[..k]), ttl, events[k], j)
  }

  lemma StepLosesKey(s: State, ttl: nat, e: Event, j: nat)
    requires Sound(s, ttl)
    requires j < |Apply(s, ttl, e).issued| && j !in Apply(s, ttl, e).keys
    ensures Consumes(s, ttl, e, j) || (j < |s.issued| && j !in s.keys)
  {
    if j >= |s.issued| {
      IssuedHasKey(s, ttl, e, j);
    } else if j in s.keys {
      OnlyConsumptionRemovesKeys(s, ttl, e, j);
    }
  }

  lemma ConsumedEarlier(s: State, ttl: nat, events: seq<Event>, n: nat, j: nat)
    requires n <= |events| && ConsumedIn(s, ttl, events[..n], j)
    ensures ConsumedIn(s, ttl, events, j)
  {
    var k: nat :| ConsumedAt(s, ttl, events[..n], j, k);
    assert events[..n][..k] == events[..k];
    assert ConsumedAt(s, ttl, events, j, k);
  }

  /** Consumption is the only way to lose a key, over a whole run. */
  lemma {:induction false} MissingKeyWasConsumed(s: State, ttl: nat, events: seq<Event>, j: nat)
    requires Sound(s, ttl) && ttl > 0 && SteadyRun(s, ttl, events)
    requires j < |s.issued| ==> j in s.keys
    requires j < |Run(s, ttl, events).issued| && j !in Run(s, ttl, events).keys
    ensures ConsumedIn(s, ttl, events, j)
    decreases |events|
  {
    if events != [] {
      var n := |events| - 1;
      SteadyPrefix(s, ttl, events, n);
      FamiliesCoverLiveKeys(s, ttl, events[..n]);
      StepLosesKey(Run(s, ttl, events[..n]), ttl, events[n], j);
      if Consumes(Run(s, ttl, events[..n]), ttl, events[n], j) {
        assert ConsumedAt(s, ttl, events, j, n);
      } else {
        MissingKeyWasConsumed(s, ttl, events[..n], j);
        ConsumedEarlier(s, ttl, events, n, j);
      }
    }
  }

  lemma ConsumedThenDead(s: State, ttl: nat, e: Event, j: nat)
    requires Sound(s, ttl) && Consumes(s, ttl, e, j)
    ensures Dead(Apply(s, ttl, e), j)
  {
    if e.Present? {
      if Accepts(s, ttl, e, j) {
        AcceptedThenDead(s, ttl, e, j);
      } else {
        var r := Tick(s, e.lags.read);
        TickKeeps(s, ttl, e.lags.read);
        RevokeAllKeeps(r, ttl, s.issued[j].user);
        assert j !in RevokeAll(r, s.issued[j].user).LiveOf(s.issued[j].user);
      }
    }
  }

  lemma ConsumedInThenDead(s: State, ttl: nat, events: seq<Event>, j: nat)
    requires Sound(s, ttl) && ttl > 0 && SteadyRun(s, ttl, events) && ConsumedIn(s, ttl, events, j)
    ensures Dead(Run(s, ttl, events), j)
  {
    var k: nat :| ConsumedAt(s, ttl, events, j, k);
    SteadyPrefix(s, ttl, events, k);
    FamiliesCoverLiveKeys(s, ttl, events[..k]);
    ConsumedThenDead(Run(s, ttl, events[..k]), ttl, events[k], j);
    RunStep(s, ttl, events, k);
    DeadAfterPrefix(s, ttl, events, k + 1, j);
  }

  /** Before a token expires, the store has forgotten it exactly when an earlier event of the run used it up: the
      keys' expiry never ends before the tokens'. */
  lemma UnexpiredIsLiveUnlessConsumed(s: State, ttl: nat, events: seq<Event>, j: nat)
    requires Sound(s, ttl) && ttl > 0 && SteadyRun(s, ttl, events)
    requires j < |s.issued| ==> j in s.keys
    requires Run(s, ttl, events).Decodes(j)
    ensures !Run(s, ttl, events).Live(j) <==> ConsumedIn(s, ttl, events, j)
  {
    FamiliesCoverLiveKeys(s, ttl, events);
    if !Run(s, ttl, events).Live(j) {
      MissingKeyWasConsumed(s, ttl, events, j);
    } else if ConsumedIn(s, ttl, events, j) {
      ConsumedInThenDead(s, ttl, events, j);
    }
  }

  // ----- sessions -----

  /** A rotation swaps one live session for another; a call without delay keeps their number. */
  lemma RotationKeepsSessions(s: State, ttl: nat, p: nat)
    requires Sound(s, ttl) && ttl > 0
    requires Refresh(s, ttl, p, Lags(0, 0, 0, 0)).1.Rotated?
    requires RenewedInTime(Revoke(s, s.issued[p].user, p), s.issued[p].user, Lags(0, 0, 0, 0))
    ensures var user := s.issued[p].user;
            var (t, out) := Refresh(s, ttl, p, Lags(0, 0, 0, 0));
            t.LiveOf(user) == s.LiveOf(user) - {p} + {out.successor}
            && |t.LiveOf(user)| == |s.LiveOf(user)|
            && forall other :: other != user ==> t.LiveOf(other) == s.LiveOf(other)
  {
    var user := s.issued[p].user;
    var (t, out) := Refresh(s, ttl, p, Lags(0, 0, 0, 0));
    assert Tick(s, 0) == s;
    IssueTouchesOnlyTheNewKey(Revoke(s, user, p), ttl, user, Lags(0, 0, 0, 0));
    assert t.LiveOf(user) == s.LiveOf(user) - {p} + {out.successor};
    assert p in s.LiveOf(user) && out.successor !in s.LiveOf(user);
    forall other | other != user ensures t.LiveOf(other) == s.LiveOf(other) {
    }
  }

  const AT_ONCE := Lags(0, 0, 0, 0)

  /** The same token presented `n` times. */
  function Presented(p: nat, n: nat): seq<Event> {
    seq(n, _ => Present(p, AT_ONCE))
  }

  lemma RunMore(s: State, ttl: nat, events: seq<Event>, e: Event)
    ensures Run(s, ttl, events + [e]) == Apply(Run(s, ttl, events), ttl, e)
  {
    assert (events + [e])[..|events|] == events;
  }

  lemma {:induction false} RefusedWhileDisabled(s: State, ttl: nat, front: seq<Event>, p: nat, n: nat)
    requires var t := Run(s, ttl, front);
             t.Decodes(p) && t.Live(p) && t.issued[p].user !in t.active
    ensures Run(s, ttl, front + Presented(p, n)) == Run(s, ttl, front)
    decreases n
  {
    if n == 0 {
      assert front + Presented(p, n) == front;
    } else {
      RefusedWhileDisabled(s, ttl, front, p, n - 1);
      assert Presented(p, n) == Presented(p, n - 1) + [Present(p, AT_ONCE)];
      assert front + Presented(p, n) == (front + Presented(p, n - 1)) + [Present(p, AT_ONCE)];
      RunMore(s, ttl, front + Presented(p, n - 1), Present(p, AT_ONCE));
      assert Tick(Run(s, ttl, front), 0) == Run(s, ttl, front);
    }
  }

  /** Disabling an account is no logout: however often the user tries meanwhile, enabling it again restores every
      session and every token. */
  lemma DisabledUserKeepsSessions(s: State, ttl: nat, p: nat, n: nat)
    requires s.Decodes(p) && s.Live(p) && s.issued[p].user in s.active
    ensures var user := s.issued[p].user;
            Run(s, ttl, [Disable(user)] + Presented(p, n) + [Enable(user)]) == s
  {
    var user := s.issued[p].user;
    RunMore(s, ttl, [], Disable(user));
    assert [] + [Disable(user)] == [Disable(user)];
    RefusedWhileDisabled(s, ttl, [Disable(user)], p, n);
    RunMore(s, ttl, [Disable(user)] + Presented(p, n), Enable(user));
    assert s.active - {user} + {user} == s.active;
  }

  /** A detected replay is not always a rotated token: presenting a token after logging it out also ends every
      session of the user. */
  lemma ReusedLogoutEndsEverySession(s: State, ttl: nat, p: nat, lags: Lags)
    requires Sound(s, ttl) && s.Decodes(p)
    ensures var (t, out) := Refresh(Logout(s, p), ttl, p, lags);
            out.Replayed? && t.LiveOf(s.issued[p].user) == {}
  {
    var out := Logout(s, p);
    RevokeKeeps(s, ttl, s.issued[p].user, p);
    TickKeeps(out, ttl, lags.read);
    RevokeAllKeeps(Tick(out, lags.read), ttl, s.issued[p].user);
  }

  /** Decoding and reading the key are two moments: a token never used is taken for a replay exactly when its key
      expires between them. */
  lemma UnusedTokenMistakenIff(s: State, ttl: nat, p: nat, lags: Lags)
    requires Sound(s, ttl) && s.Decodes(p) && s.Live(p)
    ensures Refresh(s, ttl, p, lags).1.Replayed? <==> s.now + lags.read >= s.keys[p].until
    ensures Refresh(s, ttl, p, lags).1.Replayed? ==> s.now + lags.read >= s.issued[p].exp
  {
  }

  /** Why every issue must renew the family in time: the new token is covered by its family exactly when it does.
      Otherwise the addition vanishes with the old family and a later replay cannot revoke the new token. */
  lemma NewTokenIsCoveredIff(s: State, ttl: nat, user: nat, lags: Lags)
    requires Sound(s, ttl) && lags.add + lags.renew < ttl
    ensures var (t, j) := Issue(s, ttl, user, lags);
            t.Live(j) && (Covered(t, j) <==> RenewedInTime(s, user, lags))
    ensures var (t, j) := Issue(s, ttl, user, lags);
            !RenewedInTime(s, user, lags) ==> RevokeAll(t, user).Live(j)
  {
    var (t, j) := Issue(s, ttl, user, lags);
    IssueTouchesOnlyTheNewKey(s, ttl, user, lags);
    if RenewedInTime(s, user, lags) {
      IssueKeeps(s, ttl, user, lags);
    } else {
      LateRenewal(s, ttl, user, lags);
    }
  }

  lemma LateRenewal(s: State, ttl: nat, user: nat, lags: Lags)
    requires Sound(s, ttl) && !RenewedInTime(s, user, lags)
    ensures !Issue(s, ttl, user, lags).0.FamilyLive(user)
  {
    var j := |s.issued|;
    var signed := s.(issued := s.issued + [Token(user, Expiry(s.now, ttl))]);
    var stored := SetKey(Tick(signed, lags.write), ttl, j, user);
    var before := Tick(stored, lags.add);
    var added := Tick(AddMember(before, user, j), lags.renew);
    assert before.families == s.families && before.now == s.now + lags.write + lags.add;
    assert added.families[user].until == s.families[user].until;
    assert !added.FamilyLive(user);
  }

  /** Where every history starts. */
  lemma FreshStoreIsSound(ttl: nat, now: int, active: set<nat>)
    ensures Sound(State(now, map[], map[], [], active), ttl)
  {
  }

  // ----- the service over its store -----

  class AuthService {
    var now: int
    var keys: map<nat, Key>
    var families: map<nat, Family>
    var issued: seq<Token>
    var active: set<nat>
    const ttl: nat

    constructor (ttl: nat, now: int, active: set<nat>)
      ensures View() == State(now, map[], map[], [], active) && this.ttl == ttl
    {
      this.ttl := ttl;
      this.now, keys, families, issued, this.active := now, map[], map[], [], active;
    }

    function View(): State
      reads this
    {
      State(now, keys, families, issued, active)
    }

    method Wait(d: nat)
      modifies `now
      ensures now == old(now) + d
    {
      now := now + d;
    }

    method IssueTokens(user: nat, lags: Lags) returns (j: nat)
      modifies `now, `keys, `families, `issued
      ensures (View(), j) == Issue(old(View()), ttl, user, lags)
    {
      j := |issued|;
      issued := issued + [Token(user, now - now % SECOND + ttl)];
      Wait(lags.write);
      keys := keys[j := Key(user, now + ttl)];
      Wait(lags.add);
      families := families[user := Family(View().Members(user) + {j},
                                          if View().FamilyLive(user) then families[user].until else None)];
      Wait(lags.renew);
      if View().FamilyLive(user) {
        families := families[user := families[user].(until := Some(now + ttl))];
      }
    }

    method RevokeOne(user: nat, j: nat)
      modifies `keys, `families
      ensures View() == Revoke(old(View()), user, j)
    {
      keys := keys - {j};
      var rest := View().Members(user) - {j};
      if View().FamilyLive(user) && rest != {} {
        families := families[user := families[user].(members := rest)];
      } else {
        families := families - {user};
      }
    }

    method RevokeEvery(user: nat)
      modifies `keys, `families
      ensures View() == RevokeAll(old(View()), user)
    {
      var members := View().Members(user);
      if members != {} {
        keys := keys - members;
      }
      families := families - {user};
    }

    method RefreshToken(p: nat, lags: Lags) returns (outcome: Outcome)
      modifies `now, `keys, `families, `issued
      ensures (View(), outcome) == Refresh(old(View()), ttl, p, lags)
    {
      if !View().Decodes(p) {
        return Rejected;
      }
      var user := issued[p].user;
      Wait(lags.read);
      var stored := if View().Live(p) then Some(keys[p].user) else None;
      if stored != Some(user) {
        if stored.None? {
          RevokeEvery(user);
          return Replayed;
        }
        return Rejected;
      }
      if user !in active {
        return Rejected;
      }
      RevokeOne(user, p);
      var j := IssueTokens(user, lags);
      outcome := Rotated(j);
    }

    method LogOutToken(p: nat)
      modifies `keys, `families
      ensures View() == Logout(old(View()), p)
    {
      if View().Decodes(p) {
        RevokeOne(issued[p].user, p);
      }
    }

    method LogInUser(user: nat, password: bool, lags: Lags) returns (j: Option<nat>)
      modifies `now, `keys, `families, `issued
      ensures View() == Login(old(View()), ttl, user, password, lags)
      ensures j == if password && user in active then Some(|old(issued)|) else None
    {
      if !password || user !in active {
        return None;
      }
      var token := IssueTokens(user, lags);
      j := Some(token);
    }
  }
}
