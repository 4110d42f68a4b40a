/** What holds in every state the registry can reach. */
module RegistryRuns {
  import opened Prelude
  import opened CommandOutcomes
  import opened ControlFlights
  import opened RegistryState
  import opened RegistryEvents

  // ------------------------------------------------- each event keeps the invariant

  lemma SentKeepsInv(s: State, c: nat, env: Env)
    requires Inv(s)
    ensures Inv(Sent(s, c, env))
  {
    DisconnectedKeepsInv(s, c, env);
  }

  lemma AskedKeepsInv(s: State, slot: Slot, c: nat, requestId: string)
    requires Inv(s) && c in s.connections && slot !in s.flights.open
    requires slot.CatalogSlot? || slot.uid == c
    requires forall t :: t in s.flights.open && SameCommandKind(slot, t) && s.flights.open[t].connection == c ==>
               s.flights.open[t].requestId != requestId
    ensures Inv(Asked(s, slot, c, requestId))
  {
    IssueKeepsValid(s.flights, slot, c, requestId);
    AskedKeepsAccepted(s, slot, c, requestId);
  }

  lemma AskedKeepsAccepted(s: State, slot: Slot, c: nat, requestId: string)
    requires AcceptedInFlight(s) && slot !in s.flights.open
    ensures AcceptedInFlight(Asked(s, slot, c, requestId))
  {
    var t := Asked(s, slot, c, requestId);
    forall e | e in t.outcomes && e.status == Accepted ensures HasOwnFlight(t.flights, t.connections, e) {
      var x :| CarriedBy(s.flights, s.connections, x, e);
      assert CarriedBy(t.flights, t.connections, x, e);
    }
  }

  /** The registrant of a connection that has not registered loses nothing when
      another connection is dropped. */
  lemma UnregisteredSurvives(s: State, other: nat, c: nat, env: Env)
    requires Inv(s) && c in s.connections && c != other && s.connections[c].instanceId.None?
    ensures var t := Disconnected(s, other, env); c in t.connections && t.connections[c] == s.connections[c]
  {
    if other in s.connections && RecordOf(s, other).Some? {
      var rk := RecordOf(s, other).value;
      var k := PlaceOf(rk, s.records[rk]);
      var t := Vacated(s, other, rk, env);
      VacatedLinked(s, other, rk, env);
      UnregisteredIsNotSkipped(t, k, c, env);
    }
  }

  lemma UnregisteredIsNotSkipped(t: State, k: Place, c: nat, env: Env)
    requires Linked(t) && c in t.connections && t.connections[c].instanceId.None?
    ensures c !in SkippedConnections(t, k, env)
  {
    forall o | o in t.records && Skipped(t, k, o, env) ensures t.records[o].connection.value != c {
      assert t.connections[t.records[o].connection.value].instanceId.Some?;
    }
  }

  lemma DisconnectedKeepsRecords(s: State, c: nat, env: Env)
    ensures Disconnected(s, c, env).records.Keys == s.records.Keys
    ensures c in s.connections ==> forall rk :: rk in s.records && s.records[rk].connection == Some(c) && Linked(s) ==>
              Disconnected(s, c, env).records[rk].connection == None
  {
    if c in s.connections {
      forall rk | rk in s.records && s.records[rk].connection == Some(c) && Linked(s)
        ensures Disconnected(s, c, env).records[rk].connection == None
      {
        DisconnectedClears(s, c, rk, env);
      }
    }
  }

  lemma DisconnectedClears(s: State, c: nat, rk: Key, env: Env)
    requires rk in s.records && s.records[rk].connection == Some(c) && Linked(s)
    ensures rk in Disconnected(s, c, env).records && Disconnected(s, c, env).records[rk].connection == None
  {
    assert RecordOf(s, c) == Some(rk);
    assert Vacated(s, c, rk, env).records[rk] == Offlined(s.records[rk]);
  }

  ghost predicate ReadyToEnrol(s: State, c: nat, reg: Registration) {
    && c in s.connections && s.connections[c].instanceId.None?
    && Replaced(s, c, reg).None?
  }

  lemma EnrolledLinked(s: State, c: nat, reg: Registration)
    requires Inv(s) && ReadyToEnrol(s, c, reg)
    ensures Linked(Enrolled(s, c, reg)) && OfflineExact(Enrolled(s, c, reg))
  {
    var t := Enrolled(s, c, reg);
    var rk := Key(s.connections[c].userId, reg.instanceId);
    forall o | o in t.records && o != rk && t.records[o].connection.Some?
      ensures t.records[o].connection.value != c
    {
      assert s.connections[s.records[o].connection.value].instanceId.Some?;
    }
  }

  lemma EnrolleeIsOffline(s: State, c: nat, reg: Registration)
    requires Inv(s) && ReadyToEnrol(s, c, reg)
    ensures var rk := Key(s.connections[c].userId, reg.instanceId);
      rk in s.records ==> s.records[rk].state == Offline
  {
    var rk := Key(s.connections[c].userId, reg.instanceId);
    assert rk in s.records ==> s.records[rk].connection != Some(c);
  }

  /** The place's owner is never the instance that is just enrolling. */
  lemma OwnerIsSomebodyElse(s: State, c: nat, reg: Registration)
    requires Inv(s) && ReadyToEnrol(s, c, reg)
    ensures var k := Place(s.connections[c].userId, reg.path);
      k in s.ownership ==> s.ownership[k] != reg.instanceId
  {
    EnrolleeIsOffline(s, c, reg);
    var k := Place(s.connections[c].userId, reg.path);
    if k in s.ownership {
      assert Owns(s, k, Key(k.userId, s.ownership[k]));
    }
  }

  lemma EnrolledOwners(s: State, c: nat, reg: Registration, p: Place)
    requires OwnershipExact(s) && ReadyToEnrol(s, c, reg) && p in Enrolled(s, c, reg).ownership
    requires var k := Place(s.connections[c].userId, reg.path); k in s.ownership ==> s.ownership[k] != reg.instanceId
    requires var rk := Key(s.connections[c].userId, reg.instanceId); rk in s.records ==> s.records[rk].state == Offline
    ensures var t := Enrolled(s, c, reg); Owns(t, p, Key(p.userId, t.ownership[p]))
  {
    if p in s.ownership {
      assert Owns(s, p, Key(p.userId, s.ownership[p]));
    }
  }

  lemma EnrolledControllable(s: State, c: nat, reg: Registration, rk: Key)
    requires Inv(s) && ReadyToEnrol(s, c, reg)
    requires rk in Enrolled(s, c, reg).records && Enrolled(s, c, reg).records[rk].state == Controllable
    ensures var t := Enrolled(s, c, reg); var p := PlaceOf(rk, t.records[rk]);
      p in t.ownership && t.ownership[p] == rk.instanceId
  {
  }

  lemma EnrolledStrandsNone(s: State, c: nat, reg: Registration)
    requires Inv(s) && ReadyToEnrol(s, c, reg)
    ensures NoneStranded(Enrolled(s, c, reg))
  {
  }

  lemma EnrolledOwnership(s: State, c: nat, reg: Registration)
    requires Inv(s) && ReadyToEnrol(s, c, reg)
    ensures OwnershipExact(Enrolled(s, c, reg))
  {
    var t := Enrolled(s, c, reg);
    EnrolleeIsOffline(s, c, reg);
    OwnerIsSomebodyElse(s, c, reg);
    forall p | p in t.ownership ensures Owns(t, p, Key(p.userId, t.ownership[p])) {
      EnrolledOwners(s, c, reg, p);
    }
    forall rk | rk in t.records && t.records[rk].state == Controllable
      ensures var p := PlaceOf(rk, t.records[rk]); p in t.ownership && t.ownership[p] == rk.instanceId
    {
      EnrolledControllable(s, c, reg, rk);
    }
  }

  lemma EnrolledRecords(s: State, c: nat, reg: Registration)
    requires Inv(s) && ReadyToEnrol(s, c, reg)
    ensures var t := Enrolled(s, c, reg); Sequenced(t) && UidsIssued(t) && Compatible(t) && StaleBounded(t)
  {
  }

  lemma EnrolledKeepsInv(s: State, c: nat, reg: Registration)
    requires Inv(s) && ReadyToEnrol(s, c, reg)
    ensures Inv(Enrolled(s, c, reg))
  {
    EnrolledLinked(s, c, reg);
    EnrolledOwnership(s, c, reg);
    EnrolledStrandsNone(s, c, reg);
    EnrolledRecords(s, c, reg);
    EnrolledKeepsAccepted(s, c, reg);
  }

  /** Nothing is in flight yet on the connection that registers. */
  lemma EnrolledKeepsAccepted(s: State, c: nat, reg: Registration)
    requires AcceptedInFlight(s) && c in s.connections && s.connections[c].instanceId.None?
    ensures AcceptedInFlight(Enrolled(s, c, reg))
  {
    var t := Enrolled(s, c, reg);
    forall e | e in t.outcomes && e.status == Accepted ensures HasOwnFlight(t.flights, t.connections, e) {
      var x :| CarriedBy(s.flights, s.connections, x, e);
      assert CarriedBy(t.flights, t.connections, x, e);
    }
  }

  lemma RegisteredKeepsInv(s: State, c: nat, reg: Registration, resumes: bool, env: Env)
    requires Inv(s) && c in s.connections && s.connections[c].instanceId.None?
    ensures Inv(Registered(s, c, reg, resumes, env))
  {
    match Replaced(s, c, reg)
    case None =>
      EnrolledKeepsInv(s, c, reg);
      SentKeepsInv(Enrolled(s, c, reg), c, env);
    case Some(other) =>
      var rk := Key(s.connections[c].userId, reg.instanceId);
      var t := Disconnected(s, other, env);
      DisconnectedKeepsInv(s, other, env);
      DisconnectedKeepsRecords(s, other, env);
      UnregisteredSurvives(s, other, c, env);
      if resumes {
        EnrolledKeepsInv(t, c, reg);
        SentKeepsInv(Enrolled(t, c, reg), c, env);
      }
  }

  /** Line 1145 of the registry reads the socket of `existing.connection` just after
      `disconnect` cleared that very field: whenever it is reached, it is empty. */
  lemma ReplacedConnectionIsAlreadyCleared(s: State, c: nat, reg: Registration, env: Env)
    requires Inv(s) && c in s.connections && s.connections[c].instanceId.None?
    requires Replaced(s, c, reg).Some?
    ensures var rk := Key(s.connections[c].userId, reg.instanceId);
      var t := Disconnected(s, Replaced(s, c, reg).value, env);
      && rk in t.records && t.records[rk].connection.None? && t.records[rk].state == Offline
      && c in t.connections && t.connections[c].instanceId.None?
      && Replaced(s, c, reg).value !in t.connections
  {
    var other := Replaced(s, c, reg).value;
    DisconnectedKeepsInv(s, other, env);
    DisconnectedKeepsRecords(s, other, env);
    UnregisteredSurvives(s, other, c, env);
  }

  /** What a routed connection is, in a consistent state. */
  lemma RouteLeadsHome(s: State, userId: string, instanceId: string, env: Env)
    requires Linked(s) && Route(s, userId, instanceId, env).Some?
    ensures var c := Route(s, userId, instanceId, env).value;
      c in s.connections && s.connections[c].userId == userId && s.connections[c].instanceId == Some(instanceId)
  {
  }

  /** What a command that passes the gate may rely on. */
  lemma GateLetsThrough(s: State, kind: Kind, userId: string, instanceId: string, requestId: string, commandId: string,
                        sessionId: string, env: Env)
    requires Linked(s) && CommandGate(s, kind, userId, instanceId, requestId, commandId, sessionId, env).Go?
    ensures var c := CommandGate(s, kind, userId, instanceId, requestId, commandId, sessionId, env).connection;
      && c in s.connections && s.connections[c].userId == userId && s.connections[c].instanceId == Some(instanceId)
      && !Busy(s.flights, kind, c, requestId, commandId)
  {
    RouteLeadsHome(s, userId, instanceId, env);
  }

  lemma CommandIssuedKeepsInv(s: State, kind: Kind, userId: string, instanceId: string, requestId: string,
                              commandId: string, c: nat, env: Env)
    requires Inv(s) && c in s.connections && !Busy(s.flights, kind, c, requestId, commandId)
    requires s.connections[c].userId == userId && s.connections[c].instanceId == Some(instanceId)
    ensures Inv(CommandIssued(s, kind, userId, instanceId, requestId, commandId, c, env))
  {
    var slot := CommandSlot(kind, c, commandId);
    assert slot !in s.flights.open;
    AskedKeepsInv(s, slot, c, requestId);
    RecordingKeepsAccepted(s, kind, userId, instanceId, requestId, commandId, c, env);
  }

  lemma RecordingKeepsAccepted(s: State, kind: Kind, userId: string, instanceId: string, requestId: string,
                               commandId: string, c: nat, env: Env)
    requires c in s.connections && AcceptedInFlight(Asked(s, CommandSlot(kind, c, commandId), c, requestId))
    requires s.connections[c].userId == userId && s.connections[c].instanceId == Some(instanceId)
    ensures AcceptedInFlight(CommandIssued(s, kind, userId, instanceId, requestId, commandId, c, env))
  {
    var slot := CommandSlot(kind, c, commandId);
    var e := NewOutcome(s, kind, userId, instanceId, requestId, commandId, env);
    var a := Asked(s, slot, c, requestId);
    var t := CommandIssued(s, kind, userId, instanceId, requestId, commandId, c, env);
    DistinctAfterRecording(s.outcomes, e, env.now, s.limits.capacity);
    forall o | o in t.outcomes && o.status == Accepted ensures HasOwnFlight(t.flights, t.connections, o) {
      if o == e {
        assert CarriedBy(t.flights, t.connections, slot, o);
      } else {
        assert o in a.outcomes;
        var x :| CarriedBy(a.flights, a.connections, x, o);
        assert CarriedBy(t.flights, t.connections, x, o);
      }
    }
  }

  lemma ClosedKeepsAccepted(s: State, slot: Slot, cause: Cause, status: Status, now: int)
    requires AcceptedInFlight(s) && slot in s.flights.open && status != Accepted
    requires slot.AnswerSlot? || slot.DecideSlot?
    ensures AcceptedInFlight(s.(flights := Close(s.flights, slot, cause),
                                outcomes := Settled(s.outcomes, {slot.commandId}, status, now)))
  {
    var ids := {slot.commandId};
    var outcomes, flights := Settled(s.outcomes, ids, status, now), Close(s.flights, slot, cause);
    DistinctAfterSettling(s.outcomes, ids, status, now);
    SettledMembers(s.outcomes, ids, status, now);
    forall e | e in outcomes && e.status == Accepted ensures HasOwnFlight(flights, s.connections, e) {
      var o :| o in s.outcomes && Origin(o) == Origin(e)
        && (if o.commandId in ids then !Expired(o, now) && e.status == status else e == o);
      var x :| CarriedBy(s.flights, s.connections, x, e);
      assert CarriedBy(flights, s.connections, x, e);
    }
  }

  lemma ClosedElsewhereKeepsAccepted(s: State, slot: Slot, cause: Cause)
    requires AcceptedInFlight(s) && slot in s.flights.open && !slot.AnswerSlot? && !slot.DecideSlot?
    ensures AcceptedInFlight(s.(flights := Close(s.flights, slot, cause)))
  {
    var flights := Close(s.flights, slot, cause);
    forall e | e in s.outcomes && e.status == Accepted ensures HasOwnFlight(flights, s.connections, e) {
      var x :| CarriedBy(s.flights, s.connections, x, e);
      assert CarriedBy(flights, s.connections, x, e);
    }
  }

  lemma {:induction false} OutdatedBounded(stale: seq<string>, before: seq<Pending>, incoming: seq<Pending>)
    requires |stale| <= MAX_STALE_REQUEST_IDS
    ensures |Outdated(stale, before, incoming)| <= MAX_STALE_REQUEST_IDS
    decreases |before|
  {
    if before != [] {
      var rest := if Projection(incoming, before[0].requestId).None? then RememberStale(stale, before[0].requestId)
                  else stale;
      OutdatedBounded(rest, before[1..], incoming);
    }
  }

  predicate SameButProjection(a: Record, b: Record) {
    && a.registration == b.registration && a.sequence == b.sequence
    && a.state == b.state && a.connection == b.connection
  }

  lemma ProjectionChangeKeepsOwnership(s: State, rk: Key, r: Record)
    requires OwnershipExact(s) && NoneStranded(s) && rk in s.records && SameButProjection(r, s.records[rk])
    ensures var t := s.(records := s.records[rk := r]); OwnershipExact(t) && NoneStranded(t)
  {
    var t := s.(records := s.records[rk := r]);
    forall p | p in t.ownership ensures Owns(t, p, Key(p.userId, t.ownership[p])) {
      assert Owns(s, p, Key(p.userId, s.ownership[p]));
    }
  }

  lemma ProjectionChangeKeepsRecords(s: State, rk: Key, r: Record)
    requires Linked(s) && OfflineExact(s) && Sequenced(s) && Compatible(s)
    requires rk in s.records && SameButProjection(r, s.records[rk])
    ensures var t := s.(records := s.records[rk := r]); Linked(t) && OfflineExact(t) && Sequenced(t) && Compatible(t)
  {
  }

  /** Rewriting what a record knows about its requests touches no other invariant. */
  lemma ProjectionChangeKeepsInv(s: State, rk: Key, r: Record)
    requires Inv(s) && rk in s.records && SameButProjection(r, s.records[rk])
    requires |r.stale| <= MAX_STALE_REQUEST_IDS
    ensures Inv(s.(records := s.records[rk := r]))
  {
    ProjectionChangeKeepsOwnership(s, rk, r);
    ProjectionChangeKeepsRecords(s, rk, r);
  }

  /** A request that carries no outcome leaves the map. */
  lemma OtherClosedKeepsInv(s: State, slot: Slot, cause: Cause)
    requires Inv(s) && slot in s.flights.open && !slot.AnswerSlot? && !slot.DecideSlot?
    requires !cause.ByDisconnect? && (cause.ByResult? ==> cause.connection == s.flights.open[slot].connection)
    ensures Inv(s.(flights := Close(s.flights, slot, cause)))
  {
    CloseKeepsValid(s.flights, slot, cause);
    ClosedElsewhereKeepsAccepted(s, slot, cause);
  }

  lemma SnapshotAnsweredKeepsInv(s: State, c: nat, instanceId: string, requestId: string, interactions: seq<Pending>)
    requires Inv(s)
    ensures Inv(SnapshotAnswered(s, c, instanceId, requestId, interactions))
  {
    var slot := SnapshotSlot(c, requestId);
    if Registrant(s, c, instanceId) && slot in s.flights.open {
      OtherClosedKeepsInv(s, slot, ByResult(c));
      var t := s.(flights := Close(s.flights, slot, ByResult(c)));
      if RecordOf(s, c).Some? {
        var rk := RecordOf(s, c).value;
        OutdatedBounded(s.records[rk].stale, s.records[rk].projected, Incoming(interactions));
        ProjectionChangeKeepsInv(t, rk, Projected(s.records[rk], interactions));
      }
    }
  }

  function CommandClosed(s: State, slot: Slot, cause: Cause, commandId: string, status: Status, now: int): State
    requires slot in s.flights.open
  {
    s.(flights := Close(s.flights, slot, cause), outcomes := Settled(s.outcomes, {commandId}, status, now))
  }

  lemma CommandClosedKeepsInv(s: State, slot: Slot, cause: Cause, status: Status, now: int)
    requires Inv(s) && slot in s.flights.open && (slot.AnswerSlot? || slot.DecideSlot?) && status != Accepted
    requires !cause.ByDisconnect? && (cause.ByResult? ==> cause.connection == s.flights.open[slot].connection)
    ensures Inv(CommandClosed(s, slot, cause, slot.commandId, status, now))
  {
    CloseKeepsValid(s.flights, slot, cause);
    ClosedKeepsAccepted(s, slot, cause, status, now);
  }

  /** A result that is not from its command's connection changes nothing; one that is
      closes the flight, and a confirmation resolves the request. */
  lemma CommandAnsweredIs(s: State, kind: Kind, c: nat, instanceId: string, commandId: string, status: Status, env: Env)
    ensures var t := CommandAnswered(s, kind, c, instanceId, commandId, status, env);
      var slot := CommandSlot(kind, c, commandId);
      || t == s
      || (slot in s.flights.open
          && var u := CommandClosed(s, slot, ByResult(c), slot.commandId, status, env.now);
             t == u || exists rk ::
               rk in u.records && t == WithResolved(u, rk, s.flights.open[slot].requestId))
  {
    var slot := CommandSlot(kind, c, commandId);
    if Registrant(s, c, instanceId) && slot in s.flights.open && RecordOf(s, c).Some? && status == Confirmed {
      var u := CommandClosed(s, slot, ByResult(c), slot.commandId, status, env.now);
      var rk := RecordOf(s, c).value;
      assert rk in u.records && CommandAnswered(s, kind, c, instanceId, commandId, status, env)
        == WithResolved(u, rk, s.flights.open[slot].requestId);
    }
  }

  function WithResolved(t: State, rk: Key, requestId: string): State
    requires rk in t.records
  {
    t.(records := t.records[rk := Resolved(t.records[rk], requestId)])
  }

  lemma CommandAnsweredKeepsInv(s: State, kind: Kind, c: nat, instanceId: string, commandId: string, status: Status,
                                env: Env)
    requires Inv(s) && status != Accepted
    ensures Inv(CommandAnswered(s, kind, c, instanceId, commandId, status, env))
  {
    var t, slot := CommandAnswered(s, kind, c, instanceId, commandId, status, env), CommandSlot(kind, c, commandId);
    CommandAnsweredIs(s, kind, c, instanceId, commandId, status, env);
    if t != s {
      SlotIsOfConnection(s, slot);
      AnswerKeepsInv(s, t, slot, c, status, env.now);
    }
  }

  lemma SlotIsOfConnection(s: State, slot: Slot)
    requires Anchored(s) && slot in s.flights.open && !slot.CatalogSlot?
    ensures s.flights.open[slot].connection == slot.uid
  {
  }

  lemma AnswerKeepsInv(s: State, t: State, slot: Slot, c: nat, status: Status, now: int)
    requires Inv(s) && status != Accepted && slot in s.flights.open && (slot.AnswerSlot? || slot.DecideSlot?)
    requires s.flights.open[slot].connection == c
    requires var u := CommandClosed(s, slot, ByResult(c), slot.commandId, status, now);
      t == u || exists rk :: rk in u.records && t == WithResolved(u, rk, s.flights.open[slot].requestId)
    ensures Inv(t)
  {
    var u := CommandClosed(s, slot, ByResult(c), slot.commandId, status, now);
    CommandClosedKeepsInv(s, slot, ByResult(c), status, now);
    if t != u {
      var rk :| rk in u.records && t == WithResolved(u, rk, s.flights.open[slot].requestId);
      ResolvedKeepsInv(u, rk, s.flights.open[slot].requestId);
    }
  }

  lemma ResolvedKeepsInv(t: State, rk: Key, requestId: string)
    requires Inv(t) && rk in t.records
    ensures Inv(WithResolved(t, rk, requestId))
  {
    ProjectionChangeKeepsInv(t, rk, Resolved(t.records[rk], requestId));
  }

  lemma TimedOutKeepsInv(s: State, handle: nat, env: Env)
    requires Inv(s)
    ensures Inv(TimedOut(s, handle, env))
  {
    if handle in s.flights.timers {
      var slot := s.flights.timers[handle];
      if slot.AnswerSlot? || slot.DecideSlot? {
        CommandClosedKeepsInv(s, slot, ByTimer, ResultUnknown, env.now);
      } else {
        OtherClosedKeepsInv(s, slot, ByTimer);
      }
    }
  }

  lemma CatalogAnsweredKeepsInv(s: State, c: nat, instanceId: string, requestId: string)
    requires Inv(s)
    ensures Inv(CatalogAnswered(s, c, instanceId, requestId))
  {
    var slot := CatalogSlot(requestId);
    if slot in s.flights.open && s.flights.open[slot].connection == c {
      OtherClosedKeepsInv(s, slot, ByResult(c));
    }
  }

  lemma PromptAnsweredKeepsInv(s: State, c: nat, instanceId: string, commandId: string)
    requires Inv(s)
    ensures Inv(PromptAnswered(s, c, instanceId, commandId))
  {
    var slot := PromptSlot(c, commandId);
    if slot in s.flights.open {
      OtherClosedKeepsInv(s, slot, ByResult(c));
    }
  }

  lemma ForgottenKeepsInv(s: State, userId: string, instanceId: string)
    requires Inv(s)
    ensures Inv(Forgotten(s, userId, instanceId))
  {
    ForgottenOwners(s, userId, instanceId);
    ForgottenRecords(s, userId, instanceId);
  }

  lemma ForgottenOwners(s: State, userId: string, instanceId: string)
    requires OwnershipExact(s) && NoneStranded(s)
    ensures OwnershipExact(Forgotten(s, userId, instanceId)) && NoneStranded(Forgotten(s, userId, instanceId))
  {
    var t := Forgotten(s, userId, instanceId);
    forall p | p in t.ownership ensures Owns(t, p, Key(p.userId, t.ownership[p])) {
      assert Owns(s, p, Key(p.userId, s.ownership[p]));
    }
  }

  lemma ForgottenRecords(s: State, userId: string, instanceId: string)
    requires Linked(s) && OfflineExact(s) && Sequenced(s) && Compatible(s) && StaleBounded(s)
    ensures var t := Forgotten(s, userId, instanceId);
      Linked(t) && OfflineExact(t) && Sequenced(t) && Compatible(t) && StaleBounded(t)
  {
  }

  lemma {:induction false} DisconnectedAllKeepsInv(s: State, cs: seq<nat>, env: Env)
    requires Inv(s)
    ensures var t := DisconnectedAll(s, cs, env);
      Inv(t) && t.connections.Keys <= s.connections.Keys && (forall c :: c in cs ==> c !in t.connections)
  {
    if cs != [] {
      var before, last := cs[..|cs| - 1], cs[|cs| - 1];
      DisconnectedAllKeepsInv(s, before, env);
      DisconnectedKeepsInv(DisconnectedAll(s, before, env), last, env);
      assert forall c :: c in cs ==> c in before || c == last;
    }
  }

  lemma PrunedOutcomesKeepInv(s: State, now: int)
    requires Inv(s)
    ensures Inv(s.(outcomes := Live(s.outcomes, now)))
  {
    DistinctAfterPruning(s.outcomes, now);
    LiveMembers(s.outcomes, now);
  }
}

