/** Refresh-token rotation: the tables, their transactions, and the calls of the service
    that look a token up in one transaction and act on it in another. A token is known by
    its row; hashes are taken as injective and secrets as fresh. */
module RefreshTokens {
  import opened Prelude

  /** An instant: its date, and its place among the steps of the run. */
  datatype Stamp = Stamp(ms: int, step: nat)

  datatype Family = Family(userId: nat, revoked: Option<Stamp>)

  datatype Token = Token(family: nat, issued: Stamp, expiresAt: int, rotated: Option<Stamp>)

  datatype ResetCode = ResetCode(userId: nat, expiresAt: int, consumed: Option<Stamp>)

  datatype Tables = Tables(families: seq<Family>, tokens: seq<Token>, codes: seq<ResetCode>, passwords: map<nat, string>)

  const REFRESH_TOKEN_TTL_MS := 30 * 24 * 60 * 60 * 1000
  const PASSWORD_RESET_CODE_TTL_MS := 60 * 60 * 1000

  // ------------------------------------------------------------------- transactions

  function CreateRefreshSession(t: Tables, userId: nat, now: Stamp): Tables {
    t.(families := t.families + [Family(userId, None)],
       tokens := t.tokens + [Token(|t.families|, now, now.ms + REFRESH_TOKEN_TTL_MS, None)])
  }

  /** A token row joined with its family's revocation. */
  datatype Record = Record(token: nat, family: nat, userId: nat, expiresAt: int, revoked: Option<Stamp>)

  function FindRefreshToken(t: Tables, token: nat): Option<Record> {
    if token < |t.tokens| && t.tokens[token].family < |t.families| then
      var row := t.tokens[token];
      var family := t.families[row.family];
      Some(Record(token, row.family, family.userId, row.expiresAt, family.revoked))
    else None
  }

  function Revoked(f: Family, now: Stamp): Family {
    if f.revoked.None? then f.(revoked := Some(now)) else f
  }

  function RevokeRefreshFamily(t: Tables, family: nat, now: Stamp): Tables {
    if family < |t.families| then t.(families := t.families[family := Revoked(t.families[family], now)]) else t
  }

  predicate CanRotate(t: Tables, token: nat) {
    token < |t.tokens| && t.tokens[token].rotated.None?
  }

  /** The compare-and-set: rotate the token and append its successor, or revoke the
      family of a token that was rotated before. */
  function RotateRefreshToken(t: Tables, token: nat, family: nat, now: Stamp): Tables {
    if CanRotate(t, token)
    then t.(tokens := t.tokens[token := t.tokens[token].(rotated := Some(now))]
                      + [Token(family, now, now.ms + REFRESH_TOKEN_TTL_MS, None)])
    else RevokeRefreshFamily(t, family, now)
  }

  predicate CanConsume(t: Tables, userId: nat, code: nat, now: Stamp) {
    code < |t.codes| && t.codes[code].userId == userId && t.codes[code].consumed.None? && t.codes[code].expiresAt > now.ms
  }

  function AllRevoked(fs: seq<Family>, userId: nat, now: Stamp): seq<Family> {
    seq(|fs|, i requires 0 <= i < |fs| => if fs[i].userId == userId then Revoked(fs[i], now) else fs[i])
  }

  function ConsumePasswordResetToken(t: Tables, userId: nat, code: nat, now: Stamp, passwordHash: string): Tables {
    if !CanConsume(t, userId, code, now) then t
    else t.(codes := t.codes[code := t.codes[code].(consumed := Some(now))],
            passwords := t.passwords[userId := passwordHash],
            families := AllRevoked(t.families, userId, now))
  }

  // ------------------------------------------------------------------------- calls

  datatype Error = InvalidRefresh | RefreshReused

  /** A refresh: looked up and about to rotate, or over. */
  datatype Status =
    | Looked(record: Record)
    | Refused(error: Error)
    | Exchanged(next: nat, at: Stamp)
    | Reused(at: Stamp)

  datatype Refresh = Refresh(token: nat, started: Stamp, status: Status)

  datatype Logout = Waiting(record: Record) | LoggedOut

  datatype Service = Service(
    tables: Tables,
    refreshes: seq<Refresh>,
    logouts: seq<Logout>,
    clock: int,
    steps: nat)

  const INITIAL := Service(Tables([], [], [], map[]), [], [], 0, 0)

  datatype Event =
    | Login(userId: nat)
    | StartRefresh(token: nat)
    | FinishRefresh(refresh: nat)
    | StartLogout(token: nat)
    | FinishLogout(logout: nat)
    | IssueResetCode(userId: nat)
    | ResetPassword(userId: nat, code: nat, passwordHash: string)
    | TimePasses(elapsed: nat)

  function Now(s: Service): Stamp {
    Stamp(s.clock, s.steps)
  }

  /** What `refresh` makes of the record it found. */
  function Judged(record: Option<Record>, ms: int): Status {
    match record
    case None => Refused(InvalidRefresh)
    case Some(r) =>
      if r.expiresAt <= ms then Refused(InvalidRefresh)
      else if r.revoked.Some? then Refused(RefreshReused)
      else Looked(r)
  }

  function Step(s: Service, e: Event): Service {
    var t, now := s.tables, Now(s);
    var next := s.(steps := s.steps + 1);
    match e
    case Login(userId) => next.(tables := CreateRefreshSession(t, userId, now))
    case StartRefresh(token) =>
      next.(refreshes := s.refreshes + [Refresh(token, now, Judged(FindRefreshToken(t, token), now.ms))])
    case FinishRefresh(i) =>
      if i < |s.refreshes| && s.refreshes[i].status.Looked? then
        var record := s.refreshes[i].status.record;
        var status := if CanRotate(t, record.token) then Exchanged(|t.tokens|, now) else Reused(now);
        next.(tables := RotateRefreshToken(t, record.token, record.family, now),
              refreshes := s.refreshes[i := s.refreshes[i].(status := status)])
      else next
    case StartLogout(token) =>
      (match FindRefreshToken(t, token)
       case None => next.(logouts := s.logouts + [LoggedOut])
       case Some(r) => next.(logouts := s.logouts + [if r.revoked.Some? then LoggedOut else Waiting(r)]))
    case FinishLogout(i) =>
      if i < |s.logouts| && s.logouts[i].Waiting?
      then next.(tables := RevokeRefreshFamily(t, s.logouts[i].record.family, now), logouts := s.logouts[i := LoggedOut])
      else next
    case IssueResetCode(userId) =>
      next.(tables := t.(codes := t.codes + [ResetCode(userId, now.ms + PASSWORD_RESET_CODE_TTL_MS, None)]))
    case ResetPassword(userId, code, passwordHash) =>
      next.(tables := ConsumePasswordResetToken(t, userId, code, now, passwordHash))
    case TimePasses(elapsed) => next.(clock := s.clock + elapsed)
  }

  function After(events: seq<Event>): Service
    decreases |events|
  {
    if events == [] then INITIAL else Step(After(events[..|events| - 1]), events[|events| - 1])
  }

  // ---------------------------------------------------------------------- invariants

  ghost predicate IsLive(t: Tables, family: nat, token: nat) {
    token < |t.tokens| && t.tokens[token].family == family && t.tokens[token].rotated.None?
  }

  ghost predicate HasLive(t: Tables, family: nat) {
    exists token :: IsLive(t, family, token)
  }

  /** Of two tokens of a family the earlier was rotated before the later was issued. */
  ghost predicate Succeeds(a: Token, b: Token) {
    a.family == b.family ==> a.rotated.Some? && a.rotated.value.step <= b.issued.step
  }

  ghost predicate Chained(t: Tables) {
    && (forall i :: 0 <= i < |t.tokens| ==> t.tokens[i].family < |t.families|)
    && (forall i, j :: 0 <= i < j < |t.tokens| ==> Succeeds(t.tokens[i], t.tokens[j]))
    && (forall f :: 0 <= f < |t.families| ==> HasLive(t, f))
  }

  predicate StampBefore(x: Option<Stamp>, steps: nat) {
    x.Some? ==> x.value.step < steps
  }

  ghost predicate Past(s: Service) {
    && (forall i :: 0 <= i < |s.tables.tokens| ==>
          s.tables.tokens[i].issued.step < s.steps && StampBefore(s.tables.tokens[i].rotated, s.steps))
    && (forall f :: 0 <= f < |s.tables.families| ==> StampBefore(s.tables.families[f].revoked, s.steps))
    && (forall i :: 0 <= i < |s.refreshes| ==> s.refreshes[i].started.step < s.steps)
  }

  /** The family was not revoked when the refresh looked its token up. */
  predicate FoundStanding(t: Tables, r: Refresh) {
    && r.token < |t.tokens| && t.tokens[r.token].family < |t.families|
    && t.tokens[r.token].issued.step < r.started.step
    && (var x := t.families[t.tokens[r.token].family].revoked; x.Some? ==> r.started.step < x.value.step)
  }

  predicate RefreshSound(t: Tables, r: Refresh) {
    match r.status
    case Looked(record) =>
      FoundStanding(t, r) && record.token == r.token && record.family == t.tokens[r.token].family
    case Refused(_) => true
    case Exchanged(next, at) =>
      FoundStanding(t, r) && t.tokens[r.token].rotated == Some(at) && next < |t.tokens|
      && t.tokens[next].issued == at && t.tokens[next].family == t.tokens[r.token].family
    case Reused(at) =>
      FoundStanding(t, r) && t.tokens[r.token].rotated.Some?
      && (var x := t.families[t.tokens[r.token].family].revoked; x.Some? && x.value.step <= at.step)
  }

  ghost predicate RefreshesSound(s: Service) {
    && (forall i :: 0 <= i < |s.refreshes| ==> RefreshSound(s.tables, s.refreshes[i]))
    && (forall i, j :: 0 <= i < j < |s.refreshes| && s.refreshes[i].status.Exchanged? && s.refreshes[j].status.Exchanged? ==>
          s.refreshes[i].status.at.step != s.refreshes[j].status.at.step)
  }

  ghost predicate Inv(s: Service) {
    Chained(s.tables) && Past(s) && RefreshesSound(s)
  }

  /** What any transaction may do to the tables: tokens and families are only added,
      and revocations and rotations are only set, once, now. */
  ghost predicate Grows(t: Tables, u: Tables, now: Stamp) {
    && |t.tokens| <= |u.tokens| && |t.families| <= |u.families|
    && (forall i :: 0 <= i < |t.tokens| ==>
          && u.tokens[i].family == t.tokens[i].family && u.tokens[i].issued == t.tokens[i].issued
          && Set(t.tokens[i].rotated, u.tokens[i].rotated, now))
    && (forall i :: |t.tokens| <= i < |u.tokens| ==> u.tokens[i].issued == now && u.tokens[i].rotated.None?)
    && (forall f :: 0 <= f < |t.families| ==>
          u.families[f].userId == t.families[f].userId && Set(t.families[f].revoked, u.families[f].revoked, now))
    && (forall f :: |t.families| <= f < |u.families| ==> u.families[f].revoked.None?)
  }

  predicate Set(x: Option<Stamp>, y: Option<Stamp>, now: Stamp) {
    y == x || (x.None? && y == Some(now))
  }

  lemma StepGrows(s: Service, e: Event)
    ensures Grows(s.tables, Step(s, e).tables, Now(s))
  {
  }

  lemma GrowthKeepsPast(s: Service, e: Event)
    requires Past(s)
    ensures Past(Step(s, e))
  {
    StepGrows(s, e);
    var t, u := s.tables, Step(s, e).tables;
    forall i | 0 <= i < |u.tokens|
      ensures u.tokens[i].issued.step < s.steps + 1 && StampBefore(u.tokens[i].rotated, s.steps + 1)
    {
      if i < |t.tokens| {
        assert Set(t.tokens[i].rotated, u.tokens[i].rotated, Now(s));
      }
    }
    forall f | 0 <= f < |u.families| ensures StampBefore(u.families[f].revoked, s.steps + 1) {
      if f < |t.families| {
        assert Set(t.families[f].revoked, u.families[f].revoked, Now(s));
      }
    }
  }

  /** A transaction that touches only families, or only codes, leaves the chains be. */
  lemma SameTokensStayChained(t: Tables, u: Tables, now: Stamp)
    requires Chained(t) && Grows(t, u, now) && u.tokens == t.tokens && |u.families| == |t.families|
    ensures Chained(u)
  {
    forall f | 0 <= f < |u.families| ensures HasLive(u, f) {
      assert f < |t.families| ==> HasLive(t, f);
      var token :| IsLive(t, f, token);
      assert IsLive(u, f, token);
    }
  }

  lemma LoginStaysChained(t: Tables, userId: nat, now: Stamp)
    requires Chained(t)
    ensures Chained(CreateRefreshSession(t, userId, now))
  {
    var u := CreateRefreshSession(t, userId, now);
    forall f | 0 <= f < |u.families| ensures HasLive(u, f) {
      assert f < |t.families| ==> HasLive(t, f);
      if f < |t.families| {
        var token :| IsLive(t, f, token);
        assert IsLive(u, f, token);
      } else {
        assert IsLive(u, f, |t.tokens|);
      }
    }
  }

  lemma OnlyOneIsLive(t: Tables, family: nat, a: nat, b: nat)
    requires Chained(t) && IsLive(t, family, a) && IsLive(t, family, b)
    ensures a == b
  {
    assert a < b ==> Succeeds(t.tokens[a], t.tokens[b]);
    assert b < a ==> Succeeds(t.tokens[b], t.tokens[a]);
  }

  /** The other tokens of a live token's family have all been rotated. */
  lemma OthersAreRotated(t: Tables, token: nat)
    requires Chained(t) && CanRotate(t, token)
    ensures forall i :: 0 <= i < |t.tokens| && t.tokens[i].family == t.tokens[token].family && i != token ==>
      t.tokens[i].rotated.Some?
  {
    forall i | 0 <= i < |t.tokens| && t.tokens[i].family == t.tokens[token].family && i != token
      ensures t.tokens[i].rotated.Some?
    {
      assert i < token ==> Succeeds(t.tokens[i], t.tokens[token]);
      assert token < i ==> Succeeds(t.tokens[token], t.tokens[i]);
    }
  }

  lemma RotationStaysChained(t: Tables, token: nat, now: Stamp)
    requires Chained(t) && CanRotate(t, token)
    requires forall i :: 0 <= i < |t.tokens| ==> StampBefore(t.tokens[i].rotated, now.step)
    ensures Chained(RotateRefreshToken(t, token, t.tokens[token].family, now))
  {
    var family := t.tokens[token].family;
    var u := RotateRefreshToken(t, token, family, now);
    OthersAreRotated(t, token);
    forall f | 0 <= f < |u.families| ensures HasLive(u, f) {
      assert HasLive(t, f);
      if f == family {
        assert IsLive(u, f, |t.tokens|);
      } else {
        var x :| IsLive(t, f, x);
        assert IsLive(u, f, x);
      }
    }
    forall i, j | 0 <= i < j < |u.tokens| ensures Succeeds(u.tokens[i], u.tokens[j]) {
      if j < |t.tokens| {
        assert Succeeds(t.tokens[i], t.tokens[j]);
      } else {
        assert StampBefore(t.tokens[i].rotated, now.step);
      }
    }
  }

  lemma StepStaysChained(s: Service, e: Event)
    requires Inv(s)
    ensures Chained(Step(s, e).tables)
  {
    var t, u, now := s.tables, Step(s, e).tables, Now(s);
    StepGrows(s, e);
    match e {
      case Login(userId) => LoginStaysChained(t, userId, now);
      case FinishRefresh(i) =>
        if i < |s.refreshes| && s.refreshes[i].status.Looked? {
          assert RefreshSound(t, s.refreshes[i]);
          var token := s.refreshes[i].status.record.token;
          if CanRotate(t, token) {
            RotationStaysChained(t, token, now);
          } else {
            SameTokensStayChained(t, u, now);
          }
        }
      case _ => SameTokensStayChained(t, u, now);
    }
  }

  lemma FoundStaysStanding(t: Tables, u: Tables, now: Stamp, r: Refresh)
    requires Grows(t, u, now) && FoundStanding(t, r) && r.started.step < now.step
    ensures FoundStanding(u, r)
  {
    assert Set(t.families[t.tokens[r.token].family].revoked, u.families[t.tokens[r.token].family].revoked, now);
  }

  lemma SoundStaysSound(t: Tables, u: Tables, now: Stamp, r: Refresh)
    requires Grows(t, u, now) && RefreshSound(t, r) && r.started.step < now.step
    ensures RefreshSound(u, r)
  {
    if !r.status.Refused? {
      FoundStaysStanding(t, u, now, r);
      assert Set(t.tokens[r.token].rotated, u.tokens[r.token].rotated, now);
      assert Set(t.families[t.tokens[r.token].family].revoked, u.families[t.tokens[r.token].family].revoked, now);
    }
  }

  lemma FinishedIsSound(s: Service, i: nat)
    requires Inv(s) && i < |s.refreshes| && s.refreshes[i].status.Looked?
    ensures var n := Step(s, FinishRefresh(i)); RefreshSound(n.tables, n.refreshes[i])
  {
    var r := s.refreshes[i];
    assert RefreshSound(s.tables, r);
    StepGrows(s, FinishRefresh(i));
    FoundStaysStanding(s.tables, Step(s, FinishRefresh(i)).tables, Now(s), r);
  }

  lemma StepStaysSound(s: Service, e: Event)
    requires Inv(s)
    ensures RefreshesSound(Step(s, e))
  {
    var n := Step(s, e);
    StepGrows(s, e);
    forall i | 0 <= i < |n.refreshes| ensures RefreshSound(n.tables, n.refreshes[i]) {
      if i < |s.refreshes| && n.refreshes[i] == s.refreshes[i] {
        SoundStaysSound(s.tables, n.tables, Now(s), s.refreshes[i]);
      } else if i < |s.refreshes| {
        FinishedIsSound(s, i);
      } else {
        StartedIsSound(s, e.token);
      }
    }
    ExchangesStayApart(s, e);
  }

  lemma StartedIsSound(s: Service, token: nat)
    requires Inv(s)
    ensures RefreshSound(s.tables, Refresh(token, Now(s), Judged(FindRefreshToken(s.tables, token), s.clock)))
  {
  }

  lemma ExchangesStayApart(s: Service, e: Event)
    requires Inv(s)
    ensures var rs := Step(s, e).refreshes;
      forall i, j :: 0 <= i < j < |rs| && rs[i].status.Exchanged? && rs[j].status.Exchanged? ==>
        rs[i].status.at.step != rs[j].status.at.step
  {
    forall i | 0 <= i < |s.refreshes| && s.refreshes[i].status.Exchanged?
      ensures s.refreshes[i].status.at.step < s.steps
    {
      assert RefreshSound(s.tables, s.refreshes[i]);
      assert StampBefore(s.tables.tokens[s.refreshes[i].token].rotated, s.steps);
    }
  }

  lemma {:induction false} EveryRunKeepsInv(events: seq<Event>)
    ensures Inv(After(events))
    decreases |events|
  {
    if events != [] {
      var s, e := After(events[..|events| - 1]), events[|events| - 1];
      EveryRunKeepsInv(events[..|events| - 1]);
      StepStaysChained(s, e);
      GrowthKeepsPast(s, e);
      StepStaysSound(s, e);
    }
  }

  // ------------------------------------------------------------------------ theorems

  /** Every family has exactly one unrotated token, always. */
  lemma OneUnrotatedTokenPerFamily(events: seq<Event>, family: nat)
    requires family < |After(events).tables.families|
    ensures exists token :: IsLive(After(events).tables, family, token)
    ensures forall a, b :: IsLive(After(events).tables, family, a) && IsLive(After(events).tables, family, b) ==> a == b
  {
    EveryRunKeepsInv(events);
    assert HasLive(After(events).tables, family);
    forall a, b | IsLive(After(events).tables, family, a) && IsLive(After(events).tables, family, b) ensures a == b {
      OnlyOneIsLive(After(events).tables, family, a, b);
    }
  }

  /** A token is exchanged at most once. */
  lemma ExchangedAtMostOnce(events: seq<Event>, a: nat, b: nat)
    requires var rs := After(events).refreshes;
      && a < |rs| && b < |rs| && rs[a].token == rs[b].token && rs[a].status.Exchanged? && rs[b].status.Exchanged?
    ensures a == b
  {
    EveryRunKeepsInv(events);
    var s := After(events);
    assert RefreshSound(s.tables, s.refreshes[a]) && RefreshSound(s.tables, s.refreshes[b]);
  }

  /** Revocation is permanent, down to its date. */
  lemma {:induction false} RevocationIsPermanent(events: seq<Event>, n: nat, family: nat)
    requires n <= |events| && family < |After(events[..n]).tables.families|
    ensures family < |After(events).tables.families|
    ensures var x := After(events[..n]).tables.families[family].revoked;
      x.Some? ==> After(events).tables.families[family].revoked == x
    decreases |events|
  {
    if n == |events| {
      assert events[..n] == events;
    } else {
      var before := events[..|events| - 1];
      assert before[..n] == events[..n];
      RevocationIsPermanent(before, n, family);
      StepGrows(After(before), events[|events| - 1]);
      assert Set(After(before).tables.families[family].revoked, After(events).tables.families[family].revoked,
                 Now(After(before)));
    }
  }

  /** The family a refresh's token belongs to. */
  function FamilyOf(s: Service, refresh: nat): nat
    requires refresh < |s.refreshes| && s.refreshes[refresh].token < |s.tables.tokens|
  {
    s.tables.tokens[s.refreshes[refresh].token].family
  }

  /** If a token reaches rotation twice, no refresh of its family that starts later
      succeeds. */
  lemma ReuseEndsTheFamily(events: seq<Event>, a: nat, b: nat)
    requires var s := After(events);
      && a < |s.refreshes| && b < |s.refreshes|
      && s.refreshes[a].token < |s.tables.tokens| && s.refreshes[b].token < |s.tables.tokens|
      && s.refreshes[a].status.Reused? && s.refreshes[a].status.at.step <= s.refreshes[b].started.step
      && FamilyOf(s, a) == FamilyOf(s, b)
    ensures !After(events).refreshes[b].status.Exchanged?
  {
    EveryRunKeepsInv(events);
    var s := After(events);
    assert RefreshSound(s.tables, s.refreshes[a]) && RefreshSound(s.tables, s.refreshes[b]);
  }

  /** Nor does one that starts after a logout or a password reset has revoked it. */
  lemma RevocationStopsLaterRefreshes(events: seq<Event>, b: nat)
    requires var s := After(events);
      && b < |s.refreshes| && s.refreshes[b].token < |s.tables.tokens|
      && FamilyOf(s, b) < |s.tables.families|
      && (var x := s.tables.families[FamilyOf(s, b)].revoked; x.Some? && x.value.step <= s.refreshes[b].started.step)
    ensures !After(events).refreshes[b].status.Exchanged?
  {
    EveryRunKeepsInv(events);
    assert RefreshSound(After(events).tables, After(events).refreshes[b]);
  }

  /** The rotation does not look at the family again, so a refresh that found it standing
      still goes through after a logout: the code's own order of steps. */
  lemma LogoutMayBeOvertaken()
    ensures var s := After([Login(7), StartRefresh(0), StartLogout(0), FinishLogout(0), FinishRefresh(0)]);
      && |s.refreshes| == 1 && s.refreshes[0].status.Exchanged?
      && |s.tables.families| == 1 && s.tables.families[0].revoked.Some?
      && s.tables.families[0].revoked.value.step < s.refreshes[0].status.at.step
  {
    var events := [Login(7), StartRefresh(0), StartLogout(0), FinishLogout(0), FinishRefresh(0)];
    assert events[..4][..3] == events[..3] && events[..3][..2] == events[..2] && events[..2][..1] == events[..1];
    assert events[..1][..0] == [];
    assert After(events[..1]) == Step(INITIAL, Login(7));
    assert After(events[..2]) == Step(After(events[..1]), StartRefresh(0));
    assert After(events[..3]) == Step(After(events[..2]), StartLogout(0));
    assert After(events[..4]) == Step(After(events[..3]), FinishLogout(0));
    assert After(events) == Step(After(events[..4]), FinishRefresh(0));
  }

  /** Exactly when a refresh that was let through goes on to succeed: when nobody has
      rotated its token in the meantime, whatever has become of the family. */
  lemma RotationSucceedsExactly(events: seq<Event>, i: nat)
    requires var s := After(events); i < |s.refreshes| && s.refreshes[i].status.Looked?
    ensures var s, n := After(events), After(events + [FinishRefresh(i)]);
      && i < |n.refreshes| && s.refreshes[i].token < |s.tables.tokens|
      && (n.refreshes[i].status.Exchanged? <==> s.tables.tokens[s.refreshes[i].token].rotated.None?)
  {
    EveryRunKeepsInv(events);
    var s := After(events);
    assert RefreshSound(s.tables, s.refreshes[i]);
    assert (events + [FinishRefresh(i)])[..|events|] == events;
  }

  lemma OneOfTwoIsEarlier(t: Tables, i: nat, j: nat)
    requires Chained(t) && i < |t.tokens| && j < |t.tokens|
    ensures i != j ==> Succeeds(t.tokens[i], t.tokens[j]) || Succeeds(t.tokens[j], t.tokens[i])
  {
    if i < j {
      assert Succeeds(t.tokens[i], t.tokens[j]);
    }
  }

  /** And yet a revoked family is good for one more exchange at most: that of the token
      that was live when it was revoked. */
  lemma OneExchangeAfterRevocationAtMost(events: seq<Event>, a: nat, b: nat)
    requires var s := After(events);
      && a < |s.refreshes| && b < |s.refreshes|
      && s.refreshes[a].status.Exchanged? && s.refreshes[b].status.Exchanged?
      && s.refreshes[a].token < |s.tables.tokens| && s.refreshes[b].token < |s.tables.tokens|
      && FamilyOf(s, a) == FamilyOf(s, b) && FamilyOf(s, a) < |s.tables.families|
      && (var x := s.tables.families[FamilyOf(s, a)].revoked;
          x.Some? && x.value.step < s.refreshes[a].status.at.step && x.value.step < s.refreshes[b].status.at.step)
    ensures a == b
  {
    EveryRunKeepsInv(events);
    var s := After(events);
    var i, j := s.refreshes[a].token, s.refreshes[b].token;
    assert RefreshSound(s.tables, s.refreshes[a]) && RefreshSound(s.tables, s.refreshes[b]);
    OneOfTwoIsEarlier(s.tables, i, j);
    assert i == j;
    ExchangedAtMostOnce(events, a, b);
  }

  // ---------------------------------------------------------------------- the classes

  class AuthRepository {
    var families: seq<Family>
    var tokens: seq<Token>
    var codes: seq<ResetCode>
    var passwords: map<nat, string>

    ghost function View(): Tables
      reads this
    {
      Tables(families, tokens, codes, passwords)
    }

    constructor ()
      ensures View() == INITIAL.tables
    {
      families, tokens, codes, passwords := [], [], [], map[];
    }

    method CreatePasswordResetToken(userId: nat, now: Stamp)
      modifies this
      ensures View() == old(View()).(codes := old(codes) + [ResetCode(userId, now.ms + PASSWORD_RESET_CODE_TTL_MS, None)])
    {
      codes := codes + [ResetCode(userId, now.ms + PASSWORD_RESET_CODE_TTL_MS, None)];
    }

    method ConsumeResetToken(userId: nat, code: nat, now: Stamp, passwordHash: string) returns (consumed: bool)
      modifies this
      ensures consumed <==> CanConsume(old(View()), userId, code, now)
      ensures View() == ConsumePasswordResetToken(old(View()), userId, code, now, passwordHash)
    {
      if code >= |codes| || codes[code].userId != userId || codes[code].consumed.Some? || codes[code].expiresAt <= now.ms {
        return false;
      }
      codes := codes[code := codes[code].(consumed := Some(now))];
      passwords := passwords[userId := passwordHash];
      RevokeFamiliesOf(userId, now);
      return true;
    }

    method RevokeFamiliesOf(userId: nat, now: Stamp)
      modifies this`families
      ensures families == AllRevoked(old(families), userId, now)
    {
      for f := 0 to |families|
        invariant |families| == |old(families)|
        invariant forall g :: 0 <= g < f ==> families[g] == AllRevoked(old(families), userId, now)[g]
        invariant forall g :: f <= g < |families| ==> families[g] == old(families)[g]
      {
        if families[f].userId == userId {
          families := families[f := Revoked(families[f], now)];
        }
      }
    }

    method CreateSession(userId: nat, now: Stamp) returns (familyId: nat)
      modifies this
      ensures familyId == |old(families)| && View() == CreateRefreshSession(old(View()), userId, now)
    {
      familyId := |families|;
      families := families + [Family(userId, None)];
      tokens := tokens + [Token(familyId, now, now.ms + REFRESH_TOKEN_TTL_MS, None)];
    }

    method Rotate(token: nat, family: nat, now: Stamp) returns (rotated: bool)
      modifies this
      ensures rotated <==> CanRotate(old(View()), token)
      ensures View() == RotateRefreshToken(old(View()), token, family, now)
    {
      if token >= |tokens| || tokens[token].rotated.Some? {
        RevokeFamily(family, now);
        return false;
      }
      tokens := tokens[token := tokens[token].(rotated := Some(now))];
      tokens := tokens + [Token(family, now, now.ms + REFRESH_TOKEN_TTL_MS, None)];
      return true;
    }

    method RevokeFamily(family: nat, now: Stamp)
      modifies this`families
      ensures View() == RevokeRefreshFamily(old(View()), family, now)
    {
      if family < |families| && families[family].revoked.None? {
        families := families[family := families[family].(revoked := Some(now))];
      }
    }
  }

  /** The calls of the service; `refresh` and `logout` are cut between their two
      transactions. */
  class AuthService {
    const repository: AuthRepository
    var refreshes: seq<Refresh>
    var logouts: seq<Logout>
    ghost var clock: int
    ghost var steps: nat

    ghost function View(): Service
      reads this, repository
    {
      Service(repository.View(), refreshes, logouts, clock, steps)
    }

    ghost predicate Valid()
      reads this, repository
    {
      Inv(View())
    }

    constructor ()
      ensures Valid() && View() == INITIAL && fresh(repository)
    {
      repository := new AuthRepository();
      refreshes, logouts, clock, steps := [], [], 0, 0;
      new;
      EveryRunKeepsInv([]);
    }

    ghost method Tick(e: Event)
      requires Inv(View())
      modifies this`steps
      ensures View() == old(View()).(steps := old(steps) + 1)
      ensures Inv(Step(old(View()), e))
    {
      StepStaysChained(View(), e);
      GrowthKeepsPast(View(), e);
      StepStaysSound(View(), e);
      steps := steps + 1;
    }

    method LoginVerified(userId: nat, now: Stamp) returns (token: nat)
      requires Valid() && now == Now(View())
      modifies this, repository
      ensures Valid() && View() == Step(old(View()), Login(userId))
      ensures token == |old(repository.tokens)| && IsLive(repository.View(), |old(repository.families)|, token)
    {
      Tick(Login(userId));
      token := |repository.tokens|;
      var family := repository.CreateSession(userId, now);
    }

    method BeginRefresh(token: nat, now: Stamp) returns (refresh: nat)
      requires Valid() && now == Now(View())
      modifies this
      ensures Valid() && View() == Step(old(View()), StartRefresh(token)) && refresh == |old(refreshes)|
    {
      Tick(StartRefresh(token));
      refresh := |refreshes|;
      var tables := Tables(repository.families, repository.tokens, repository.codes, repository.passwords);
      var record := FindRefreshToken(tables, token);
      refreshes := refreshes + [Refresh(token, now, Judged(record, now.ms))];
    }

    method EndRefresh(refresh: nat, now: Stamp) returns (ok: bool)
      requires Valid() && now == Now(View()) && refresh < |refreshes| && refreshes[refresh].status.Looked?
      modifies this, repository
      ensures Valid() && View() == Step(old(View()), FinishRefresh(refresh))
      ensures ok <==> refreshes[refresh].status.Exchanged?
    {
      Tick(FinishRefresh(refresh));
      var record := refreshes[refresh].status.record;
      var next := |repository.tokens|;
      ok := repository.Rotate(record.token, record.family, now);
      var status := if ok then Exchanged(next, now) else Reused(now);
      refreshes := refreshes[refresh := refreshes[refresh].(status := status)];
    }

    method BeginLogout(token: nat, now: Stamp)
      requires Valid() && now == Now(View())
      modifies this
      ensures Valid() && View() == Step(old(View()), StartLogout(token))
    {
      Tick(StartLogout(token));
      var tables := Tables(repository.families, repository.tokens, repository.codes, repository.passwords);
      var record := FindRefreshToken(tables, token);
      if record.None? || record.value.revoked.Some? {
        logouts := logouts + [LoggedOut];
        return;
      }
      logouts := logouts + [Waiting(record.value)];
    }

    method EndLogout(logout: nat, now: Stamp)
      requires Valid() && now == Now(View()) && logout < |logouts| && logouts[logout].Waiting?
      modifies this, repository
      ensures Valid() && View() == Step(old(View()), FinishLogout(logout))
    {
      Tick(FinishLogout(logout));
      repository.RevokeFamily(logouts[logout].record.family, now);
      logouts := logouts[logout := LoggedOut];
    }

    method ForgotPassword(userId: nat, now: Stamp)
      requires Valid() && now == Now(View())
      modifies this, repository
      ensures Valid() && View() == Step(old(View()), IssueResetCode(userId))
    {
      Tick(IssueResetCode(userId));
      repository.CreatePasswordResetToken(userId, now);
    }

    method Reset(userId: nat, code: nat, passwordHash: string, now: Stamp) returns (ok: bool)
      requires Valid() && now == Now(View())
      modifies this, repository
      ensures Valid() && View() == Step(old(View()), ResetPassword(userId, code, passwordHash))
      ensures ok <==> CanConsume(old(repository.View()), userId, code, now)
    {
      Tick(ResetPassword(userId, code, passwordHash));
      ok := repository.ConsumeResetToken(userId, code, now, passwordHash);
    }
  }
}
