/** What logging in, refreshing, logging out and resetting a password do to the sessions of
    a user, over every interleaving. */
module RefreshAnswers {
  import opened Prelude
  import opened RefreshTokens

  lemma StepOfRun(events: seq<Event>, e: Event)
    ensures After(events + [e]) == Step(After(events), e) && Inv(After(events))
  {
    assert (events + [e])[..|events|] == events;
    EveryRunKeepsInv(events);
  }

  // ------------------------------------------------------------------------ resets

  /** The code is the user's, was issued and not used, and its hour has not passed. */
  predicate IsUsable(s: Service, userId: nat, code: nat) {
    code < |s.tables.codes|
    && var x := s.tables.codes[code]; x.userId == userId && x.consumed.None? && s.clock < x.expiresAt
  }

  /** A reset with a usable code revokes every standing family of the user, leaves the
      families of others as they are, changes the password and uses the code up. */
  lemma ResetEndsEverySession(events: seq<Event>, userId: nat, code: nat, passwordHash: string)
    requires IsUsable(After(events), userId, code)
    ensures var s := After(events);
      var t, u := s.tables, After(events + [ResetPassword(userId, code, passwordHash)]).tables;
      && |u.families| == |t.families|
      && (forall f :: 0 <= f < |t.families| ==>
            && u.families[f].userId == t.families[f].userId
            && (t.families[f].userId == userId ==> u.families[f].revoked.Some?)
            && (t.families[f].userId != userId || t.families[f].revoked.Some? ==> u.families[f] == t.families[f]))
      && u.passwords == t.passwords[userId := passwordHash] && u.tokens == t.tokens
      && |u.codes| == |t.codes| && u.codes[code].consumed.Some?
      && forall i :: 0 <= i < |t.codes| && i != code ==> u.codes[i] == t.codes[i]
  {
    StepOfRun(events, ResetPassword(userId, code, passwordHash));
  }

  /** A reset with any other code changes nothing. */
  lemma UselessCodeChangesNothing(events: seq<Event>, userId: nat, code: nat, passwordHash: string)
    requires !IsUsable(After(events), userId, code)
    ensures var s, n := After(events), After(events + [ResetPassword(userId, code, passwordHash)]);
      n.tables == s.tables && n.refreshes == s.refreshes && n.logouts == s.logouts
  {
    StepOfRun(events, ResetPassword(userId, code, passwordHash));
  }

  /** A code that was issued keeps its user and its hour, and once used stays used. */
  predicate Kept(x: ResetCode, y: ResetCode) {
    y.userId == x.userId && y.expiresAt == x.expiresAt && (x.consumed.Some? ==> y.consumed == x.consumed)
  }

  lemma {:induction false} CodesAreKept(events: seq<Event>, n: nat, code: nat)
    requires n <= |events| && code < |After(events[..n]).tables.codes|
    ensures code < |After(events).tables.codes|
    ensures Kept(After(events[..n]).tables.codes[code], After(events).tables.codes[code])
    decreases |events|
  {
    if n == |events| {
      assert events[..n] == events;
    } else {
      var before := events[..|events| - 1];
      assert before[..n] == events[..n];
      CodesAreKept(before, n, code);
      StepKeepsCodes(After(before), events[|events| - 1], code);
    }
  }

  lemma StepKeepsCodes(s: Service, e: Event, code: nat)
    requires code < |s.tables.codes|
    ensures code < |Step(s, e).tables.codes| && Kept(s.tables.codes[code], Step(s, e).tables.codes[code])
  {
  }

  /** A code works once, and only within the hour after it was issued. */
  lemma CodeWorksOnce(events: seq<Event>, n: nat, userId: nat, code: nat, passwordHash: string)
    requires n < |events| && events[n] == ResetPassword(userId, code, passwordHash)
    requires IsUsable(After(events[..n]), userId, code)
    ensures forall user :: !IsUsable(After(events), user, code)
  {
    assert events[..n + 1] == events[..n] + [events[n]];
    ResetEndsEverySession(events[..n], userId, code, passwordHash);
    CodesAreKept(events, n + 1, code);
  }

  lemma CodeIsGoodForAnHour(events: seq<Event>, n: nat, userId: nat, user: nat)
    requires n < |events| && events[n] == IssueResetCode(userId)
    ensures var code, issuedAt := |After(events[..n]).tables.codes|, After(events[..n]).clock;
      IsUsable(After(events), user, code) ==> user == userId && After(events).clock < issuedAt + 3_600_000
  {
    var code := |After(events[..n]).tables.codes|;
    assert events[..n + 1] == events[..n] + [events[n]];
    StepOfRun(events[..n], events[n]);
    CodesAreKept(events, n + 1, code);
  }

  /** The family was there after n events and is revoked then; the refresh of one of its
      tokens started after that. */
  ghost predicate StartedAfterRevocation(events: seq<Event>, n: nat, b: nat) {
    && n <= |events| && b < |After(events).refreshes|
    && After(events).refreshes[b].token < |After(events).tables.tokens|
    && FamilyOf(After(events), b) < |After(events[..n]).tables.families|
    && After(events[..n]).tables.families[FamilyOf(After(events), b)].revoked.Some?
    && After(events[..n]).steps <= After(events).refreshes[b].started.step
  }

  /** No refresh of a family that starts after its revocation is exchanged. */
  lemma RevokedBeforehand(events: seq<Event>, n: nat, b: nat)
    requires StartedAfterRevocation(events, n, b)
    ensures !After(events).refreshes[b].status.Exchanged?
  {
    var family := FamilyOf(After(events), b);
    EveryRunKeepsInv(events[..n]);
    RevocationIsPermanent(events, n, family);
    assert StampBefore(After(events[..n]).tables.families[family].revoked, After(events[..n]).steps);
    RevocationStopsLaterRefreshes(events, b);
  }

  /** After a reset no refresh of a session that the user had until then is exchanged, if
      it starts later. */
  lemma ResetStopsLaterRefreshes(events: seq<Event>, n: nat, userId: nat, code: nat, passwordHash: string, b: nat)
    requires n < |events| && events[n] == ResetPassword(userId, code, passwordHash)
    requires IsUsable(After(events[..n]), userId, code)
    requires var s := After(events);
      && b < |s.refreshes| && s.refreshes[b].token < |s.tables.tokens|
      && FamilyOf(s, b) < |After(events[..n]).tables.families|
      && After(events[..n]).tables.families[FamilyOf(s, b)].userId == userId && n < s.refreshes[b].started.step
    ensures !After(events).refreshes[b].status.Exchanged?
  {
    var s, family := After(events), FamilyOf(After(events), b);
    assert events[..n + 1] == events[..n] + [events[n]];
    ResetEndsEverySession(events[..n], userId, code, passwordHash);
    StepsAreEvents(events[..n + 1]);
    RevokedBeforehand(events, n + 1, b);
  }

  lemma {:induction false} StepsAreEvents(events: seq<Event>)
    ensures After(events).steps == |events|
    decreases |events|
  {
    if events != [] {
      StepsAreEvents(events[..|events| - 1]);
    }
  }

  // ----------------------------------------------------------------------- logouts

  /** A logout whose second half comes revokes the family of its token, and no other. */
  lemma LogoutEndsItsSession(events: seq<Event>, i: nat)
    requires var s := After(events); i < |s.logouts| && s.logouts[i].Waiting?
    ensures var s, n := After(events), After(events + [FinishLogout(i)]);
      var family := s.logouts[i].record.family;
      && family < |s.tables.families| && |n.tables.families| == |s.tables.families|
      && n.tables.families[family].revoked.Some?
      && (forall f :: 0 <= f < |s.tables.families| && f != family ==> n.tables.families[f] == s.tables.families[f])
      && n.tables.tokens == s.tables.tokens && n.tables.passwords == s.tables.passwords
  {
    StepOfRun(events, FinishLogout(i));
    LogoutsKnowTheirFamily(events, i);
  }

  /** A logout that waits is of the family of the token it was called with. */
  lemma {:induction false} LogoutsKnowTheirFamily(events: seq<Event>, i: nat)
    requires i < |After(events).logouts| && After(events).logouts[i].Waiting?
    ensures var s := After(events); var r := s.logouts[i].record;
      r.token < |s.tables.tokens| && r.family == s.tables.tokens[r.token].family && r.family < |s.tables.families|
    decreases |events|
  {
    var before, e := events[..|events| - 1], events[|events| - 1];
    var s := After(before);
    StepGrows(s, e);
    if i < |s.logouts| && s.logouts[i] == After(events).logouts[i] {
      LogoutsKnowTheirFamily(before, i);
    } else {
      assert e.StartLogout?;
    }
  }

  /** The token is known, and its family revoked or not. */
  predicate OfFamily(t: Tables, token: nat, revoked: bool) {
    && token < |t.tokens| && t.tokens[token].family < |t.families|
    && t.families[t.tokens[token].family].revoked.Some? == revoked
  }

  /** A logout of a known token of a standing family waits for its second half; of any
      other it is done. */
  lemma LogoutWaitsExactly(events: seq<Event>, token: nat)
    ensures var s, n := After(events), After(events + [StartLogout(token)]);
      && |n.logouts| == |s.logouts| + 1 && n.tables == s.tables
      && (n.logouts[|s.logouts|].Waiting?
          <==> OfFamily(s.tables, token, false))
      && (n.logouts[|s.logouts|].Waiting? ==> n.logouts[|s.logouts|].record.token == token)
  {
    StepOfRun(events, StartLogout(token));
  }

  // ------------------------------------------------------------ refreshes and logins

  /** A refresh that nothing interrupts is exchanged exactly when its token exists, has
      not expired and not been rotated, and its family stands. */
  lemma UndisturbedRefreshSucceedsExactly(events: seq<Event>, token: nat)
    ensures var s := After(events);
      var n := After(events + [StartRefresh(token)] + [FinishRefresh(|s.refreshes|)]);
      && |n.refreshes| == |s.refreshes| + 1
      && (n.refreshes[|s.refreshes|].status.Exchanged?
          <==> && token < |s.tables.tokens| && s.clock < s.tables.tokens[token].expiresAt
               && s.tables.tokens[token].rotated.None? && OfFamily(s.tables, token, false))
  {
    StepOfRun(events, StartRefresh(token));
    StepOfRun(events + [StartRefresh(token)], FinishRefresh(|After(events).refreshes|));
  }

  /** Why a refresh is refused before it rotates: an unknown or expired token is invalid,
      a token of a revoked family counts as reused. */
  lemma RefreshIsRefusedExactly(events: seq<Event>, token: nat)
    ensures var s, n := After(events), After(events + [StartRefresh(token)]);
      var status := n.refreshes[|s.refreshes|].status;
      && n.tables == s.tables
      && (status == Refused(InvalidRefresh)
          <==> token >= |s.tables.tokens| || s.tables.tokens[token].expiresAt <= s.clock)
      && (status == Refused(RefreshReused)
          <==> token < |s.tables.tokens| && s.clock < s.tables.tokens[token].expiresAt
               && OfFamily(s.tables, token, true))
  {
    StepOfRun(events, StartRefresh(token));
  }

  /** The token a login gives is good for thirty days. */
  lemma LoginOpensASession(events: seq<Event>, userId: nat)
    ensures var s, n := After(events), After(events + [Login(userId)]);
      var token := |s.tables.tokens|;
      && n.tables.families == s.tables.families + [Family(userId, None)]
      && |n.tables.tokens| == token + 1 && n.tables.tokens[..token] == s.tables.tokens
      && n.tables.tokens[token].family == |s.tables.families| && n.tables.tokens[token].rotated.None?
      && n.tables.tokens[token].expiresAt == s.clock + 2_592_000_000
  {
    StepOfRun(events, Login(userId));
  }

  /** As is the one that a rotation gives, in the same family. */
  lemma ExchangeContinuesTheSession(events: seq<Event>, i: nat)
    requires var s := After(events);
      && i < |s.refreshes| && s.refreshes[i].status.Looked? && s.refreshes[i].token < |s.tables.tokens|
      && s.tables.tokens[s.refreshes[i].token].rotated.None?
    ensures var s, n := After(events), After(events + [FinishRefresh(i)]);
      var old', new' := s.refreshes[i].token, |s.tables.tokens|;
      && n.tables.families == s.tables.families && |n.tables.tokens| == new' + 1
      && n.tables.tokens[old'].rotated.Some? && n.tables.tokens[new'].rotated.None?
      && n.tables.tokens[new'].family == s.tables.tokens[old'].family
      && n.tables.tokens[new'].expiresAt == s.clock + 2_592_000_000
      && i < |n.refreshes| && n.refreshes[i].status.Exchanged? && n.refreshes[i].status.next == new'
  {
    StepOfRun(events, FinishRefresh(i));
    assert RefreshSound(After(events).tables, After(events).refreshes[i]);
  }

  /** A token that reaches rotation a second time ends its family. */
  lemma ReuseRevokesItsSession(events: seq<Event>, i: nat)
    requires var s := After(events);
      && i < |s.refreshes| && s.refreshes[i].status.Looked? && s.refreshes[i].token < |s.tables.tokens|
      && s.tables.tokens[s.refreshes[i].token].rotated.Some?
    ensures var s, n := After(events), After(events + [FinishRefresh(i)]);
      var family := FamilyOf(s, i);
      && |n.tables.families| == |s.tables.families| && family < |s.tables.families|
      && n.tables.families[family].revoked.Some? && n.tables.tokens == s.tables.tokens
      && (forall f :: 0 <= f < |s.tables.families| && f != family ==> n.tables.families[f] == s.tables.families[f])
      && i < |n.refreshes| && n.refreshes[i].status.Reused?
  {
    StepOfRun(events, FinishRefresh(i));
    assert RefreshSound(After(events).tables, After(events).refreshes[i]);
  }
}
