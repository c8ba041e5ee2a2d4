/** What a user may count on: exactly when a refresh token is exchanged, and what logging in and out does to sessions. */
module Sessions {
  import opened Prelude
  import opened RefreshTokens

  /** A token presented after any run is exchanged exactly when it has not expired, its user is active and nothing
      used it up, as long as the key is read before the token expires; other sessions of the user do not matter. */
  lemma ExchangedIff(s: State, ttl: nat, events: seq<Event>, j: nat, lags: Lags)
    requires Sound(s, ttl) && ttl > 0 && SteadyRun(s, ttl, events)
    requires j < |s.issued| ==> j in s.keys
    requires var t := Run(s, ttl, events);
             j < |t.issued| && (t.now < t.issued[j].exp ==> t.now + lags.read < t.issued[j].exp)
    ensures var t := Run(s, ttl, events);
            Accepts(t, ttl, Present(j, lags), j) <==>
            t.now < t.issued[j].exp && t.issued[j].user in t.active && !ConsumedIn(s, ttl, events, j)
  {
    var t := Run(s, ttl, events);
    FamiliesCoverLiveKeys(s, ttl, events);
    if t.Decodes(j) {
      UnexpiredIsLiveUnlessConsumed(s, ttl, events, j);
      if t.Live(j) { KeyOutlivesToken(t, ttl, j, lags.read); }
    }
  }

  lemma KeyOutlivesToken(s: State, ttl: nat, j: nat, d: nat)
    requires Sound(s, ttl) && s.Live(j) && s.now + d < s.issued[j].exp
    ensures Tick(s, d).Live(j) && s.keys[j].user == s.issued[j].user
  {
  }

  /** The instants up to which a token issued at `now` may be presented: its lifetime from the second begun. */
  predicate Lasts(now: int, ttl: nat, exp: int) {
    exp - ttl <= now < exp - ttl + 1000 && (exp - ttl) % 1000 == 0
  }

  lemma TermOf(now: int, ttl: nat)
    ensures Lasts(now, ttl, Expiry(now, ttl))
  {
  }

  /** The right password of an active user opens one more session and leaves every other alone; anything else changes
      nothing at all. */
  lemma LoginOpensOneSession(s: State, ttl: nat, user: nat, password: bool)
    requires Sound(s, ttl) && ttl > 0
    ensures var t := Login(s, ttl, user, password, AT_ONCE);
            if password && user in s.active then
              var j := |s.issued|;
              |t.issued| == j + 1 && t.issued[..j] == s.issued && t.issued[j].user == user
              && Lasts(s.now, ttl, t.issued[j].exp)
              && t.LiveOf(user) == s.LiveOf(user) + {j} && |t.LiveOf(user)| == |s.LiveOf(user)| + 1
              && (forall other :: other != user ==> t.LiveOf(other) == s.LiveOf(other))
              && t.now == s.now && t.active == s.active
            else t == s
  {
    if password && user in s.active {
      IssuedSession(s, ttl, user);
      TermOf(s.now, ttl);
    }
  }

  lemma IssuedSession(s: State, ttl: nat, user: nat)
    requires Sound(s, ttl) && ttl > 0
    ensures var (t, j) := Issue(s, ttl, user, AT_ONCE);
            j == |s.issued| && t.issued == s.issued + [Token(user, Expiry(s.now, ttl))]
            && t.LiveOf(user) == s.LiveOf(user) + {j} && |t.LiveOf(user)| == |s.LiveOf(user)| + 1
            && (forall other :: other != user ==> t.LiveOf(other) == s.LiveOf(other))
            && t.now == s.now && t.active == s.active
  {
    var t := Issue(s, ttl, user, AT_ONCE).0;
    IssueShape(s, ttl, user, AT_ONCE);
    OneMoreKey(s, t, user, ttl);
  }

  lemma OneMoreKey(s: State, t: State, user: nat, ttl: nat)
    requires KeysMatchTokens(s, ttl) && ttl > 0 && t.now == s.now
    requires t.keys == s.keys[|s.issued| := Key(user, s.now + ttl)]
    ensures t.LiveOf(user) == s.LiveOf(user) + {|s.issued|} && |t.LiveOf(user)| == |s.LiveOf(user)| + 1
    ensures forall other :: other != user ==> t.LiveOf(other) == s.LiveOf(other)
  {
    assert t.LiveOf(user) == s.LiveOf(user) + {|s.issued|};
    assert |s.issued| !in s.LiveOf(user);
    forall other | other != user ensures t.LiveOf(other) == s.LiveOf(other) {}
  }

  /** Rotation gives the successor a full term of its own. */
  lemma SuccessorLasts(s: State, ttl: nat, p: nat, lags: Lags)
    requires Refresh(s, ttl, p, lags).1.Rotated?
    ensures var (t, out) := Refresh(s, ttl, p, lags);
            out.successor == |s.issued| && |t.issued| == |s.issued| + 1
            && t.issued[out.successor].user == s.issued[p].user
            && Lasts(s.now + lags.read, ttl, t.issued[out.successor].exp)
  {
    TermOf(s.now + lags.read, ttl);
    IssueTouchesOnlyTheNewKey(Revoke(Tick(s, lags.read), s.issued[p].user, p), ttl, s.issued[p].user, lags);
  }

  /** Logging out ends the session of the presented token and no other; a token that does not decode ends none. */
  lemma LogoutEndsOneSession(s: State, ttl: nat, p: nat)
    requires Sound(s, ttl)
    ensures var t := Logout(s, p);
            (forall user :: t.LiveOf(user) == if s.Decodes(p) then s.LiveOf(user) - {p} else s.LiveOf(user))
            && t.issued == s.issued && t.active == s.active && t.now == s.now
  {
    forall user ensures Logout(s, p).LiveOf(user) == if s.Decodes(p) then s.LiveOf(user) - {p} else s.LiveOf(user) {
    }
  }

  /** What ends a token before its time, in the words of the calls that do it: it was exchanged, logged out, or a used
      token of its user was presented. */
  lemma OnlyThreeWaysToEnd(s: State, ttl: nat, e: Event, j: nat)
    requires Sound(s, ttl) && s.Decodes(j) && s.Live(j)
    requires !Apply(s, ttl, e).Live(j) && Apply(s, ttl, e).now < s.issued[j].exp
    ensures e == LogOut(j)
            || (e.Present? && e.p == j && s.issued[j].user in s.active)
            || (e.Present? && e.p != j && s.Decodes(e.p) && s.issued[e.p].user == s.issued[j].user
                && !Tick(s, e.lags.read).Live(e.p))
  {
    var t := Apply(s, ttl, e);
    if j in t.keys {
      KeyUntouched(s, ttl, e, j);
    } else {
      OnlyConsumptionRemovesKeys(s, ttl, e, j);
    }
  }

  lemma KeyUntouched(s: State, ttl: nat, e: Event, j: nat)
    requires Sound(s, ttl) && s.Live(j) && j in Apply(s, ttl, e).keys
    ensures Apply(s, ttl, e).keys[j] == s.keys[j]
  {
    match e {
      case LogIn(user, password, lags) => IssueTouchesOnlyTheNewKey(s, ttl, user, lags);
      case Present(p, lags) =>
        if s.Decodes(p) {
          IssueTouchesOnlyTheNewKey(Revoke(Tick(s, lags.read), s.issued[p].user, p), ttl, s.issued[p].user, lags);
        }
      case _ =>
    }
  }
}
