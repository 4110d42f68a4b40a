/** What one event can do to the past: requests settle once and for good, and an
    outcome never goes back to `accepted`. */
module RegistryHistory {
  import opened Prelude
  import opened CommandOutcomes
  import opened ControlFlights
  import opened RegistryState
  import opened RegistryEvents
  import opened RegistryRuns
  import opened RegistryTheorems

  /** History grows and identifiers are never reissued. */
  ghost predicate Remembers(s: State, t: State) {
    && (forall h :: h in s.flights.settled ==> h in t.flights.settled && t.flights.settled[h] == s.flights.settled[h])
    && s.flights.nextTimer <= t.flights.nextTimer
    && s.nextUid <= t.nextUid
    && (forall c :: c in t.connections ==> c in s.connections || s.nextUid <= c)
  }

  /** Every accepted outcome was already there, as it is. */
  ghost predicate AcceptsNothingNew(s: State, t: State) {
    forall e :: e in t.outcomes && e.status == Accepted ==> e in s.outcomes
  }

  /** What is settled on top of the history went with its connection. */
  ghost predicate LosesByDisconnect(s: State, t: State) {
    forall h :: h in t.flights.settled && h !in s.flights.settled ==> t.flights.settled[h].cause.ByDisconnect?
  }

  ghost predicate Extends(s: State, t: State) {
    Remembers(s, t) && LosesByDisconnect(s, t)
  }

  lemma DroppedExtends(s: State, gone: set<nat>, now: int)
    requires SettledOnce(s.flights)
    ensures Extends(s, Dropped(s, gone, now)) && AcceptsNothingNew(s, Dropped(s, gone, now))
  {
    SettledMembers(s.outcomes, CommandsOf(s.flights, gone), ResultUnknown, now);
  }

  /** Whatever else it does, a disconnect drops some set of connections. */
  lemma DisconnectedDrops(s: State, c: nat, env: Env) returns (gone: set<nat>)
    requires Inv(s)
    ensures var t, d := Disconnected(s, c, env), Dropped(s, gone, env.now);
      && t.connections == d.connections && t.flights == d.flights && t.tunnels == d.tunnels
      && t.outcomes == d.outcomes && t.nextUid == s.nextUid
  {
    if c !in s.connections {
      gone := {};
      DroppedNothing(s, env.now);
    } else if RecordOf(s, c).None? {
      gone := {c};
    } else {
      var rk := RecordOf(s, c).value;
      var k := PlaceOf(rk, s.records[rk]);
      if Owns(s, k, rk) && k in s.ownership && s.ownership[k] == rk.instanceId {
        var lost := SkippedConnections(Vacated(s, c, rk, env), k, env);
        gone := {c} + lost;
        DroppedTwice(s, {c}, lost, env.now);
      } else {
        gone := {c};
      }
    }
  }

  lemma DroppedNothing(s: State, now: int)
    ensures var d := Dropped(s, {}, now);
      d.connections == s.connections && d.flights == s.flights && d.tunnels == s.tunnels && d.outcomes == s.outcomes
  {
    DropNothing(s.flights);
    SettledElsewhere(s.outcomes, {}, ResultUnknown, now);
    assert s.connections - {} == s.connections;
    var d := Dropped(s, {}, now);
    assert d.tunnels == s.tunnels;
  }

  lemma DisconnectedExtends(s: State, c: nat, env: Env)
    requires Inv(s)
    ensures Extends(s, Disconnected(s, c, env)) && AcceptsNothingNew(s, Disconnected(s, c, env))
  {
    var gone := DisconnectedDrops(s, c, env);
    DroppedExtends(s, gone, env.now);
  }

  lemma SentExtends(s: State, c: nat, env: Env)
    requires Inv(s)
    ensures Extends(s, Sent(s, c, env)) && AcceptsNothingNew(s, Sent(s, c, env))
  {
    DisconnectedExtends(s, c, env);
  }

  lemma {:induction false} DisconnectedAllExtends(s: State, cs: seq<nat>, env: Env)
    requires Inv(s)
    ensures Extends(s, DisconnectedAll(s, cs, env)) && AcceptsNothingNew(s, DisconnectedAll(s, cs, env))
  {
    if cs != [] {
      var before := DisconnectedAll(s, cs[..|cs| - 1], env);
      DisconnectedAllKeepsInv(s, cs[..|cs| - 1], env);
      DisconnectedAllExtends(s, cs[..|cs| - 1], env);
      DisconnectedExtends(before, cs[|cs| - 1], env);
    }
  }

  lemma AskedExtends(s: State, slot: Slot, c: nat, requestId: string)
    ensures Extends(s, Asked(s, slot, c, requestId)) && AcceptsNothingNew(s, Asked(s, slot, c, requestId))
  {
  }

  lemma {:induction false} SnapshotsAskedExtends(s: State, userId: string, asks: seq<(string, string)>, env: Env)
    requires Inv(s) && AsksTargets(s, userId, asks, env)
    ensures var t := SnapshotsAsked(s, userId, asks, env); Extends(s, t) && AcceptsNothingNew(s, t)
    decreases |asks|
  {
    if asks != [] {
      var t := SnapshotAsked(s, userId, asks[0], env);
      SnapshotAskedExtends(s, userId, asks, env);
      SnapshotAskedKeepsInv(s, userId, asks, env);
      SnapshotAskedKeepsTargets(s, userId, asks, env);
      SnapshotsAskedExtends(t, userId, asks[1..], env);
      ExtendsTransitive(s, t, SnapshotsAsked(s, userId, asks, env));
    }
  }

  lemma SnapshotAskedExtends(s: State, userId: string, asks: seq<(string, string)>, env: Env)
    requires Inv(s) && AsksTargets(s, userId, asks, env) && asks != []
    ensures var t := SnapshotAsked(s, userId, asks[0], env); Extends(s, t) && AcceptsNothingNew(s, t)
  {
    var c := Route(s, userId, asks[0].0, env).value;
    AskedKeepsInv(s, SnapshotSlot(c, asks[0].1), c, asks[0].1);
    RequestExtends(s, SnapshotSlot(c, asks[0].1), c, asks[0].1, env);
  }

  lemma EnrolledExtends(s: State, c: nat, reg: Registration)
    requires c in s.connections
    ensures Extends(s, Enrolled(s, c, reg)) && AcceptsNothingNew(s, Enrolled(s, c, reg))
  {
  }

  lemma ReplacementExtends(s: State, c: nat, reg: Registration, other: nat, env: Env)
    requires Inv(s) && c in s.connections && s.connections[c].instanceId.None? && Replaced(s, c, reg) == Some(other)
    ensures var t := Disconnected(s, other, env);
      && Extends(s, t) && AcceptsNothingNew(s, t) && Inv(t) && ReadyToEnrol(t, c, reg)
  {
    DisconnectedExtends(s, other, env);
    DisconnectedKeepsInv(s, other, env);
    ReplacedConnectionIsAlreadyCleared(s, c, reg, env);
    UnregisteredSurvives(s, other, c, env);
  }

  lemma EnrolmentExtends(s: State, c: nat, reg: Registration, env: Env)
    requires Inv(s) && ReadyToEnrol(s, c, reg)
    ensures var t := Sent(Enrolled(s, c, reg), c, env); Extends(s, t) && AcceptsNothingNew(s, t)
  {
    EnrolledKeepsInv(s, c, reg);
    EnrolledExtends(s, c, reg);
    SentExtends(Enrolled(s, c, reg), c, env);
  }

  lemma ExtendsTransitive(s: State, t: State, u: State)
    requires Extends(s, t) && AcceptsNothingNew(s, t) && Extends(t, u) && AcceptsNothingNew(t, u)
    ensures Extends(s, u) && AcceptsNothingNew(s, u)
  {
  }

  lemma RegisteredExtends(s: State, c: nat, reg: Registration, resumes: bool, env: Env)
    requires Inv(s) && c in s.connections && s.connections[c].instanceId.None?
    ensures var t := Registered(s, c, reg, resumes, env); Extends(s, t) && AcceptsNothingNew(s, t)
  {
    match Replaced(s, c, reg)
    case None => EnrolmentExtends(s, c, reg, env);
    case Some(other) =>
      var t := Disconnected(s, other, env);
      ReplacementExtends(s, c, reg, other, env);
      if resumes {
        EnrolmentExtends(t, c, reg, env);
        ExtendsTransitive(s, t, Sent(Enrolled(t, c, reg), c, env));
      }
  }

  /** The one request a result or a timeout settles. */
  ghost predicate SettlesOne(s: State, t: State, cause: Cause) {
    && Remembers(s, t)
    && forall h :: h in t.flights.settled && h !in s.flights.settled ==>
         h in s.flights.timers && t.flights.settled[h].cause == cause
  }

  lemma ClosedSettlesOne(s: State, slot: Slot, cause: Cause)
    requires Inv(s) && slot in s.flights.open
    ensures SettlesOne(s, s.(flights := Close(s.flights, slot, cause)), cause)
  {
  }

  lemma CommandAnsweredSettlesOne(s: State, kind: Kind, c: nat, instanceId: string, commandId: string,
                                  status: Status, env: Env)
    requires Inv(s)
    ensures SettlesOne(s, CommandAnswered(s, kind, c, instanceId, commandId, status, env), ByResult(c))
  {
    var slot, t := CommandSlot(kind, c, commandId), CommandAnswered(s, kind, c, instanceId, commandId, status, env);
    CommandAnsweredCloses(s, kind, c, instanceId, commandId, status, env);
    if t.flights != s.flights {
      ClosedSettlesOne(s, slot, ByResult(c));
    }
  }

  lemma CommandAnsweredCloses(s: State, kind: Kind, c: nat, instanceId: string, commandId: string,
                              status: Status, env: Env)
    ensures var t := CommandAnswered(s, kind, c, instanceId, commandId, status, env);
      && t.connections == s.connections && t.nextUid == s.nextUid
      && (t.flights == s.flights
          || (CommandSlot(kind, c, commandId) in s.flights.open
              && t.flights == Close(s.flights, CommandSlot(kind, c, commandId), ByResult(c))))
  {
  }

  lemma CommandAnsweredAcceptsNothing(s: State, kind: Kind, c: nat, instanceId: string, commandId: string,
                                      status: Status, env: Env)
    requires status != Accepted
    ensures AcceptsNothingNew(s, CommandAnswered(s, kind, c, instanceId, commandId, status, env))
  {
    SettledMembers(s.outcomes, {commandId}, status, env.now);
  }

  lemma OtherAnswersSettleOne(s: State, c: nat, instanceId: string, id: string, xs: seq<Pending>)
    requires Inv(s)
    ensures SettlesOne(s, CatalogAnswered(s, c, instanceId, id), ByResult(c))
    ensures SettlesOne(s, SnapshotAnswered(s, c, instanceId, id, xs), ByResult(c))
    ensures SettlesOne(s, PromptAnswered(s, c, instanceId, id), ByResult(c))
  {
    if CatalogSlot(id) in s.flights.open { ClosedSettlesOne(s, CatalogSlot(id), ByResult(c)); }
    SnapshotAnsweredSettlesOne(s, c, instanceId, id, xs);
    if PromptSlot(c, id) in s.flights.open { ClosedSettlesOne(s, PromptSlot(c, id), ByResult(c)); }
  }

  lemma SnapshotAnsweredSettlesOne(s: State, c: nat, instanceId: string, id: string, xs: seq<Pending>)
    requires Inv(s)
    ensures SettlesOne(s, SnapshotAnswered(s, c, instanceId, id, xs), ByResult(c))
  {
    if SnapshotSlot(c, id) in s.flights.open { ClosedSettlesOne(s, SnapshotSlot(c, id), ByResult(c)); }
  }

  lemma TimedOutSettlesOne(s: State, handle: nat, env: Env)
    requires Inv(s)
    ensures var t := TimedOut(s, handle, env);
      && SettlesOne(s, t, ByTimer) && AcceptsNothingNew(s, t)
      && (forall h :: h in t.flights.settled && h !in s.flights.settled ==> h == handle)
  {
    if handle in s.flights.timers {
      var slot := s.flights.timers[handle];
      ClosedSettlesOne(s, slot, ByTimer);
      if slot.AnswerSlot? || slot.DecideSlot? {
        SettledMembers(s.outcomes, {slot.commandId}, ResultUnknown, env.now);
      }
    }
  }

  lemma RequestExtends(s: State, slot: Slot, c: nat, requestId: string, env: Env)
    requires Inv(Asked(s, slot, c, requestId))
    ensures var t := Sent(Asked(s, slot, c, requestId), c, env); Extends(s, t) && AcceptsNothingNew(s, t)
  {
    AskedExtends(s, slot, c, requestId);
    SentExtends(Asked(s, slot, c, requestId), c, env);
  }

  lemma CatalogCollectedExtends(s: State, userId: string, instanceId: string, requestId: string, env: Env)
    requires Inv(s) && CatalogSlot(requestId) !in s.flights.open
    ensures var t := CatalogCollected(s, userId, instanceId, requestId, env); Extends(s, t) && AcceptsNothingNew(s, t)
  {
    if Route(s, userId, instanceId, env).Some? {
      var c := Route(s, userId, instanceId, env).value;
      AskedKeepsInv(s, CatalogSlot(requestId), c, requestId);
      RequestExtends(s, CatalogSlot(requestId), c, requestId, env);
    }
  }

  lemma PromptedExtends(s: State, userId: string, instanceId: string, commandId: string, env: Env)
    requires Inv(s)
    ensures var t := Prompted(s, userId, instanceId, commandId, env); Extends(s, t) && AcceptsNothingNew(s, t)
  {
    if Route(s, userId, instanceId, env).Some? {
      var c := Route(s, userId, instanceId, env).value;
      if PromptSlot(c, commandId) !in s.flights.open {
        AskedKeepsInv(s, PromptSlot(c, commandId), c, commandId);
        RequestExtends(s, PromptSlot(c, commandId), c, commandId, env);
      }
    }
  }

  lemma TunnelClosedExtends(s: State, tunnelId: string, env: Env)
    requires Inv(s)
    ensures var t := TunnelClosed(s, tunnelId, env); Extends(s, t) && AcceptsNothingNew(s, t)
  {
    if tunnelId in s.tunnels {
      var t := s.(tunnels := s.tunnels - {tunnelId});
      assert Inv(t);
      SentExtends(t, s.tunnels[tunnelId], env);
    }
  }

  lemma CommandIssuedExtends(s: State, kind: Kind, userId: string, instanceId: string, requestId: string,
                             commandId: string, c: nat, env: Env)
    ensures var t := CommandIssued(s, kind, userId, instanceId, requestId, commandId, c, env);
      && Extends(s, t)
      && forall e :: e in t.outcomes && e !in s.outcomes ==>
           (e == NewOutcome(s, kind, userId, instanceId, requestId, commandId, env)
            && !Has(Live(s.outcomes, env.now), e.commandId))
  {
    LiveMembers(s.outcomes, env.now);
  }

  lemma CommandedExtends(s: State, kind: Kind, userId: string, instanceId: string, requestId: string,
                         commandId: string, sessionId: string, env: Env)
    requires Inv(s)
    ensures var t := Commanded(s, kind, userId, instanceId, requestId, commandId, sessionId, env);
      && Extends(s, t)
      && forall e :: e in t.outcomes && e.status == Accepted && e !in s.outcomes ==>
           (e == NewOutcome(s, kind, userId, instanceId, requestId, commandId, env)
            && !Has(Live(s.outcomes, env.now), e.commandId))
  {
    var gate := CommandGate(s, kind, userId, instanceId, requestId, commandId, sessionId, env);
    if gate.Go? {
      var c := gate.connection;
      GateLetsThrough(s, kind, userId, instanceId, requestId, commandId, sessionId, env);
      var a := CommandIssued(s, kind, userId, instanceId, requestId, commandId, c, env);
      CommandIssuedKeepsInv(s, kind, userId, instanceId, requestId, commandId, c, env);
      CommandIssuedExtends(s, kind, userId, instanceId, requestId, commandId, c, env);
      SentExtends(a, c, env);
    }
  }

  lemma ResultRemembers(s: State, ev: Event, env: Env)
    requires Inv(s) && Enabled(s, ev, env) && ResultFrom(ev).Some?
    ensures SettlesOne(s, Step(s, ev, env), ByResult(ResultFrom(ev).value))
    ensures AcceptsNothingNew(s, Step(s, ev, env))
  {
    match ev {
      case CatalogResponse(c, i, q) => OtherAnswersSettleOne(s, c, i, q, []);
      case SnapshotResponse(c, i, q, xs) => OtherAnswersSettleOne(s, c, i, q, xs);
      case CommandResult(kind, c, i, m, status) =>
        CommandAnsweredSettlesOne(s, kind, c, i, m, status, env);
        CommandAnsweredAcceptsNothing(s, kind, c, i, m, status, env);
      case PromptResult(c, i, m) => OtherAnswersSettleOne(s, c, i, m, []);
    }
  }

  lemma RequestsExtend(s: State, ev: Event, env: Env)
    requires Inv(s) && Enabled(s, ev, env) && IsRequest(ev)
    ensures Extends(s, Step(s, ev, env))
    ensures !ev.Command? ==> AcceptsNothingNew(s, Step(s, ev, env))
  {
    match ev {
      case CollectSessions(u, i, q) => CatalogCollectedExtends(s, u, i, q, env);
      case CollectPending(u, asks) => SnapshotsAskedExtends(s, u, asks, env);
      case Command(kind, u, i, q, m, x) => CommandedExtends(s, kind, u, i, q, m, x, env);
      case Prompt(u, i, m) => PromptedExtends(s, u, i, m, env);
    }
  }

  lemma ConnectionsExtend(s: State, ev: Event, env: Env)
    requires Inv(s) && Enabled(s, ev, env) && IsOfConnections(ev)
    ensures Extends(s, Step(s, ev, env)) && AcceptsNothingNew(s, Step(s, ev, env))
  {
    match ev {
      case Add(u, k) =>
      case Register(c, reg, resumes) => RegisteredExtends(s, c, reg, resumes, env);
      case Disconnect(c) => DisconnectedExtends(s, c, env);
      case RevokeKey(k) => DisconnectedAllExtends(s, UidsBelow(s.nextUid, ConnectionsOfKey(s, k)), env);
      case CloseAll => DisconnectedAllExtends(s, UidsBelow(s.nextUid, s.connections.Keys), env);
    }
  }

  lemma OthersExtend(s: State, ev: Event, env: Env)
    requires Inv(s) && IsOther(ev) && !ev.TimerFires?
    ensures Extends(s, Step(s, ev, env)) && AcceptsNothingNew(s, Step(s, ev, env))
  {
    match ev {
      case ForgetOffline(u, i) =>
      case QueryOutcome => LiveMembers(s.outcomes, env.now);
      case OpenTunnel(u, i, t) =>
      case CloseTunnel(t) => TunnelClosedExtends(s, t, env);
    }
  }

  /** Every event only adds to the history of settled requests, reissues neither a
      connection id nor a timer handle, and never brings a connection back. */
  lemma StepRemembers(s: State, ev: Event, env: Env)
    requires Inv(s) && Enabled(s, ev, env)
    ensures Remembers(s, Step(s, ev, env))
    ensures !ev.Command? ==> AcceptsNothingNew(s, Step(s, ev, env))
    ensures ResultFrom(ev).None? && !ev.TimerFires? ==> LosesByDisconnect(s, Step(s, ev, env))
    ensures ResultFrom(ev).Some? ==> SettlesOne(s, Step(s, ev, env), ByResult(ResultFrom(ev).value))
    ensures ev.TimerFires? ==> forall h :: h in Step(s, ev, env).flights.settled && h !in s.flights.settled ==>
              h == ev.handle
  {
    if ResultFrom(ev).Some? {
      ResultRemembers(s, ev, env);
    } else if ev.TimerFires? {
      TimedOutSettlesOne(s, ev.handle, env);
    } else if IsRequest(ev) {
      RequestsExtend(s, ev, env);
    } else if IsOfConnections(ev) {
      ConnectionsExtend(s, ev, env);
    } else {
      OthersExtend(s, ev, env);
    }
  }

  /** A request in flight is settled only by a result from its own connection, by the
      firing of its own timer, or with the connection itself. */
  lemma RequestEndsByResultTimerOrDisconnect(s: State, ev: Event, env: Env, h: nat)
    requires Inv(s) && Enabled(s, ev, env)
    requires h in s.flights.timers && h !in Step(s, ev, env).flights.timers
    ensures var t := Step(s, ev, env);
      && h in t.flights.settled
      && (ResultFrom(ev) == Some(t.flights.settled[h].flight.connection)
          || ev == TimerFires(h)
          || t.flights.settled[h].flight.connection !in t.connections)
  {
    StepKeepsInv(s, ev, env);
    StepRemembers(s, ev, env);
    SettledWithItsConnection(Step(s, ev, env), h);
  }

  lemma SettledWithItsConnection(t: State, h: nat)
    requires Inv(t) && h !in t.flights.timers && h < t.flights.nextTimer
    ensures h in t.flights.settled
    ensures t.flights.settled[h].cause.ByDisconnect? ==> t.flights.settled[h].flight.connection !in t.connections
    ensures t.flights.settled[h].cause.ByResult? ==>
              t.flights.settled[h].cause.connection == t.flights.settled[h].flight.connection
  {
  }

  /** A settled outcome that is still live never reads `accepted` again. */
  lemma SettledOutcomeNeverReopens(s: State, ev: Event, env: Env, e: Outcome, later: Outcome)
    requires Inv(s) && Enabled(s, ev, env)
    requires e in s.outcomes && e.status != Accepted && !Expired(e, env.now)
    requires later in Step(s, ev, env).outcomes && later.commandId == e.commandId
    ensures later.status != Accepted
  {
    StepRemembers(s, ev, env);
    LiveMembers(s.outcomes, env.now);
    if ev.Command? {
      CommandedExtends(s, ev.kind, ev.userId, ev.instanceId, ev.requestId, ev.commandId, ev.sessionId, env);
    }
    assert e in Live(s.outcomes, env.now);
    assert Has(Live(s.outcomes, env.now), e.commandId);
  }

  /** In every reachable state, each request ever sent is either in flight, held by
      one entry with one armed timer and a connection that still exists, or was
      settled once: by a result from the connection it went to, by its timer, or
      because that connection is gone. */
  lemma EveryRequestIsInFlightOrSettledOnce(limits: Limits, run: seq<(Event, Env)>, h: nat)
    requires Feasible(limits, run) && h < Run(limits, run).flights.nextTimer
    ensures var s := Run(limits, run); var f := s.flights;
      && ((h in f.timers) != (h in f.settled))
      && (h in f.timers ==>
            && f.timers[h] in f.open && f.open[f.timers[h]].timer == h
            && f.open[f.timers[h]].connection in s.connections
            && forall x :: x in f.open && f.open[x].timer == h ==> x == f.timers[h])
      && (h in f.settled ==>
            match f.settled[h].cause
            case ByResult(d) => d == f.settled[h].flight.connection
            case ByTimer => true
            case ByDisconnect => f.settled[h].flight.connection !in s.connections)
  {
    ReachableStatesAreConsistent(limits, run);
  }

  /** At any time at most one answer, and one decision, is in flight for a request
      of a connection. */
  lemma OneCommandInFlightPerRequest(limits: Limits, run: seq<(Event, Env)>, x: Slot, y: Slot)
    requires Feasible(limits, run)
    requires var open := Run(limits, run).flights.open;
      x in open && y in open && SameCommandKind(x, y) && SameRequest(open[x], open[y])
    ensures x == y
  {
    ReachableStatesAreConsistent(limits, run);
  }
}
