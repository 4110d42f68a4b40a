/** What a registration comes to, and who loses what when connections go. */
module RegistryAdmission {
  import opened Prelude
  import opened ControlFlights
  import opened RegistryState
  import opened RegistryEvents
  import opened RegistryRuns
  import opened RegistryTheorems

  /** The offline record of another instance at the same place. */
  predicate GivesWay(rk: Key, r: Record, userId: string, reg: Registration) {
    rk.userId == userId && rk.instanceId != reg.instanceId && r.state == Offline && r.registration.path == reg.path
  }

  /** The instance is recorded on its connection, afresh: barred if it speaks another
      protocol, waiting if the place has an owner, and the owner otherwise. Of the other
      records only offline ones of the place are forgotten. */
  ghost predicate TookHold(s: State, t: State, c: nat, reg: Registration)
    requires c in s.connections
  {
    var userId := s.connections[c].userId;
    var rk, k := Key(userId, reg.instanceId), Place(userId, reg.path);
    && t.connections == s.connections[c := s.connections[c].(instanceId := Some(reg.instanceId))]
    && t.flights == s.flights && t.outcomes == s.outcomes && t.tunnels == s.tunnels
    && rk in t.records
    && (var r := t.records[rk];
        && r.registration == reg && r.connection == Some(c) && r.projected == [] && r.stale == []
        && r.state == if reg.protocolVersion != 2 then Incompatible
                      else if k in s.ownership then Conflicting else Controllable)
    && (reg.protocolVersion == 2 && k !in s.ownership ==> k in t.ownership && t.ownership[k] == reg.instanceId)
    && (forall p :: p in s.ownership ==> p in t.ownership && t.ownership[p] == s.ownership[p])
    && (forall o :: o != rk ==>
          && (o in t.records <==> o in s.records && !GivesWay(o, s.records[o], userId, reg))
          && (o in t.records ==> t.records[o] == s.records[o]))
  }

  lemma EnrolledTookHold(s: State, c: nat, reg: Registration)
    requires Inv(s) && ReadyToEnrol(s, c, reg)
    ensures TookHold(s, Enrolled(s, c, reg), c, reg)
  {
    OwnerIsSomebodyElse(s, c, reg);
    AdmittedTookHold(s, c, reg);
  }

  lemma AdmittedTookHold(s: State, c: nat, reg: Registration)
    requires c in s.connections
    requires var k := Place(s.connections[c].userId, reg.path); k in s.ownership ==> s.ownership[k] != reg.instanceId
    ensures TookHold(s, Enrolled(s, c, reg), c, reg)
  {
    EnrolledOthers(s, c, reg);
  }

  lemma EnrolledOthers(s: State, c: nat, reg: Registration)
    requires c in s.connections
    ensures var userId, t := s.connections[c].userId, Enrolled(s, c, reg);
      forall o :: o != Key(userId, reg.instanceId) ==>
        && (o in t.records <==> o in s.records && !GivesWay(o, s.records[o], userId, reg))
        && (o in t.records ==> t.records[o] == s.records[o])
  {
    forall o | o in s.records
      ensures Superseded(Place(s.connections[c].userId, reg.path), reg.instanceId, o, s.records[o])
        <==> GivesWay(o, s.records[o], s.connections[c].userId, reg)
    {
    }
  }

  /** A registration that can be answered takes hold; one that replaces a connection, if
      it goes on, takes hold in the registry that the lost connection leaves. */
  lemma RegistrationTakesHold(s: State, c: nat, reg: Registration, env: Env)
    requires Inv(s) && Enabled(s, Register(c, reg, true), env) && env.Delivers(c)
    ensures var rk := Key(s.connections[c].userId, reg.instanceId);
      var other := if rk in s.records then s.records[rk].connection else None;
      var u := if other.Some? then Disconnected(s, other.value, env) else s;
      c in u.connections && TookHold(u, Step(s, Register(c, reg, true), env), c, reg)
  {
    var rk := Key(s.connections[c].userId, reg.instanceId);
    assert rk in s.records ==> s.records[rk].connection != Some(c);
    match Replaced(s, c, reg)
    case None => EnrolledTookHold(s, c, reg);
    case Some(other) =>
      var u := Disconnected(s, other, env);
      ReplacedConnectionIsAlreadyCleared(s, c, reg, env);
      DisconnectedKeepsInv(s, other, env);
      UnregisteredSurvives(s, other, c, env);
      EnrolledTookHold(u, c, reg);
  }

  /** One that cannot be answered ends with the connection gone and the record offline. */
  lemma UnansweredRegistrationIsUndone(s: State, c: nat, reg: Registration, env: Env)
    requires Inv(s) && ReadyToEnrol(s, c, reg) && !env.Delivers(c)
    ensures var t, rk := Step(s, Register(c, reg, true), env), Key(s.connections[c].userId, reg.instanceId);
      && c !in t.connections && rk in t.records
      && t.records[rk].state == Offline && t.records[rk].connection.None? && t.records[rk].registration == reg
  {
    var u, rk := Enrolled(s, c, reg), Key(s.connections[c].userId, reg.instanceId);
    EnrolledKeepsInv(s, c, reg);
    DisconnectedKeepsInv(u, c, env);
    DisconnectedKeepsRecords(u, c, env);
    LostRecordKeepsItsRegistration(u, c, rk, env);
    assert u.records[rk].connection == Some(c);
  }

  lemma LostRecordKeepsItsRegistration(s: State, c: nat, rk: Key, env: Env)
    requires rk in s.records
    ensures rk in Disconnected(s, c, env).records
    ensures Disconnected(s, c, env).records[rk].registration == s.records[rk].registration
  {
    if c in s.connections && RecordOf(s, c).Some? {
      var o := RecordOf(s, c).value;
      var k, v := PlaceOf(o, s.records[o]), Vacated(s, c, o, env);
      assert v.records[rk].registration == s.records[rk].registration;
      PromotedRecordShape(v, k, rk, env);
    }
  }

  // ------------------------------------------------------------- who else is lost

  /** A waiter that cannot be told. */
  ghost predicate WaitsInVain(s: State, c: nat, env: Env) {
    !env.Delivers(c)
    && exists rk :: rk in s.records && s.records[rk].state == Conflicting && s.records[rk].connection == Some(c)
  }

  /** Of the connections that were there, only these and waiters that could not be told
      have gone. */
  ghost predicate LosesOnly(s: State, t: State, env: Env, asked: set<nat>) {
    && (forall d :: d in s.connections && d !in t.connections ==> d in asked || WaitsInVain(s, d, env))
    && (forall d: nat :: WaitsInVain(t, d, env) ==> WaitsInVain(s, d, env))
    && (forall d :: d in t.connections ==> d in s.connections && t.connections[d] == s.connections[d])
  }

  lemma DisconnectLosesOnly(s: State, c: nat, env: Env)
    ensures LosesOnly(s, Disconnected(s, c, env), env, {c})
  {
    if c in s.connections {
      if RecordOf(s, c).None? {
        DroppedLosesOnly(s, c, env);
      } else {
        HandingOutLosesOnly(s, c, RecordOf(s, c).value, env);
      }
    }
  }

  lemma DroppedLosesOnly(s: State, c: nat, env: Env)
    ensures LosesOnly(s, Dropped(s, {c}, env.now), env, {c})
  {
    assert Dropped(s, {c}, env.now).connections == s.connections - {c};
  }

  lemma HandingOutLosesOnly(s: State, c: nat, rk: Key, env: Env)
    requires rk in s.records
    ensures var k, v := PlaceOf(rk, s.records[rk]), Vacated(s, c, rk, env);
      LosesOnly(s, v, env, {c}) && LosesOnly(s, Promoted(v, k, env), env, {c})
  {
    var k, v := PlaceOf(rk, s.records[rk]), Vacated(s, c, rk, env);
    VacatedLosesOnly(s, c, rk, env);
    PromotedLosesOnly(v, k, env);
    LossesThenNone(s, v, Promoted(v, k, env), env, c);
  }

  lemma VacatedLosesOnly(s: State, c: nat, rk: Key, env: Env)
    requires rk in s.records
    ensures LosesOnly(s, Vacated(s, c, rk, env), env, {c})
  {
    var v := Vacated(s, c, rk, env);
    forall d: nat | WaitsInVain(v, d, env) ensures WaitsInVain(s, d, env) {
      WaitedBefore(s, v, rk, env, d);
    }
    assert v.connections == s.connections - {c};
  }

  lemma WaitedBefore(s: State, v: State, rk: Key, env: Env, d: nat)
    requires rk in s.records && v.records == s.records[rk := Offlined(s.records[rk])] && WaitsInVain(v, d, env)
    ensures WaitsInVain(s, d, env)
  {
    var o :| o in v.records && v.records[o].state == Conflicting && v.records[o].connection == Some(d);
    assert o != rk && s.records[o] == v.records[o];
  }

  lemma PromotedLosesOnly(v: State, k: Place, env: Env)
    ensures LosesOnly(v, Promoted(v, k, env), env, {})
  {
    var t := Promoted(v, k, env);
    forall d | d in v.connections && d !in t.connections ensures WaitsInVain(v, d, env) {
      var rk :| rk in v.records && Skipped(v, k, rk, env) && v.records[rk].connection.value == d;
      assert !Reachable(v, k, rk, env);
    }
    forall d: nat | WaitsInVain(t, d, env) ensures WaitsInVain(v, d, env) {
      var o :| o in t.records && t.records[o].state == Conflicting && t.records[o].connection == Some(d);
      assert t.records[o] == PromotedRecord(v, k, o, env);
    }
  }

  lemma LossesChain(s: State, t: State, u: State, env: Env, a: set<nat>, b: set<nat>)
    requires LosesOnly(s, t, env, a) && LosesOnly(t, u, env, b)
    ensures LosesOnly(s, u, env, a + b)
  {
  }

  lemma LossesThenNone(s: State, t: State, u: State, env: Env, c: nat)
    requires LosesOnly(s, t, env, {c}) && LosesOnly(t, u, env, {})
    ensures LosesOnly(s, u, env, {c})
  {
  }

  lemma {:induction false} DisconnectAllLosesOnly(s: State, cs: seq<nat>, env: Env)
    ensures LosesOnly(s, DisconnectedAll(s, cs, env), env, set c | c in cs)
  {
    if cs != [] {
      var before, last := cs[..|cs| - 1], cs[|cs| - 1];
      var t := DisconnectedAll(s, before, env);
      DisconnectAllLosesOnly(s, before, env);
      DisconnectLosesOnly(t, last, env);
      LossesChain(s, t, DisconnectedAll(s, cs, env), env, set c | c in before, {last});
      assert (set c | c in cs) == (set c | c in before) + {last};
    }
  }

  /** Revoking a key costs the connections under it, and of the others only those of
      waiters that could not be told. */
  lemma RevokedKeySparesOthers(s: State, keyId: string, env: Env, c: nat)
    requires UidsIssued(s) && c in s.connections && s.connections[c].keyId != keyId && !WaitsInVain(s, c, env)
    ensures var t := Step(s, RevokeKey(keyId), env); c in t.connections && t.connections[c] == s.connections[c]
  {
    var cs := UidsBelow(s.nextUid, ConnectionsOfKey(s, keyId));
    UidsBelowMembers(s.nextUid, ConnectionsOfKey(s, keyId));
    DisconnectAllLosesOnly(s, cs, env);
  }
}
