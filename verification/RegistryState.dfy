/** The gateway's instance registry as a state machine: what every event makes of
    the linked maps of records, owners, connections, requests in flight and
    command outcomes. Everything between two awaits is one event. */
module RegistryState {
  import opened Prelude
  import opened CommandOutcomes
  import opened ControlFlights

  const SUPPORTED_PROTOCOL_VERSION := 2
  const MAX_STALE_REQUEST_IDS := 256

  datatype Presence = Controllable | Conflicting | Incompatible | Offline

  /** `path` is the normalised machine and directory of the registration. */
  datatype Registration = Registration(
    instanceId: string, path: string, protocolVersion: int, webUiAvailable: bool)

  datatype Pending = Pending(requestId: string, kind: Kind, sessionId: string)

  datatype Record = Record(
    registration: Registration,
    sequence: nat,
    state: Presence,
    connection: Option<nat>,
    projected: seq<Pending>,
    stale: seq<string>)

  datatype Conn = Conn(userId: string, keyId: string, instanceId: Option<string>)

  datatype Key = Key(userId: string, instanceId: string)

  /** The scope of one ownership: a user's machine and directory. */
  datatype Place = Place(userId: string, path: string)

  datatype Limits = Limits(ttl: nat, capacity: nat)

  /** What the event loop sees of the world while it handles one event: the clock,
      the sockets that are open, and the open ones a send would fail on. */
  datatype Env = Env(now: int, open: set<nat>, jammed: set<nat>) {
    predicate Delivers(c: nat) {
      c in open && c !in jammed
    }
  }

  datatype State = State(
    limits: Limits,
    records: map<Key, Record>,
    ownership: map<Place, string>,
    connections: map<nat, Conn>,
    nextSequence: nat,
    nextUid: nat,
    flights: Flights,
    tunnels: map<string, nat>,
    outcomes: seq<Outcome>)

  function Initial(limits: Limits): State {
    State(limits, map[], map[], map[], 0, 0, EMPTY, map[], [])
  }

  function PlaceOf(rk: Key, r: Record): Place {
    Place(rk.userId, r.registration.path)
  }

  // ------------------------------------------------------------------ invariants

  /** A record's connection is open, belongs to the record's user and registered
      as the record's instance. */
  ghost predicate Linked(s: State) {
    forall rk :: rk in s.records ==>
      var r := s.records[rk];
      && r.registration.instanceId == rk.instanceId
      && (r.connection.Some? ==>
            && r.connection.value in s.connections
            && s.connections[r.connection.value].userId == rk.userId
            && s.connections[r.connection.value].instanceId == Some(rk.instanceId))
  }

  ghost predicate OfflineExact(s: State) {
    forall rk :: rk in s.records ==> (s.records[rk].state == Offline <==> s.records[rk].connection == None)
  }

  predicate Owns(s: State, k: Place, rk: Key) {
    && rk in s.records
    && s.records[rk].state == Controllable
    && PlaceOf(rk, s.records[rk]) == k
  }

  /** The owner of a place is exactly the controllable record registered there. */
  ghost predicate OwnershipExact(s: State) {
    && (forall k :: k in s.ownership ==> Owns(s, k, Key(k.userId, s.ownership[k])))
    && (forall rk :: rk in s.records && s.records[rk].state == Controllable ==>
          var k := PlaceOf(rk, s.records[rk]);
          k in s.ownership && s.ownership[k] == rk.instanceId)
  }

  /** Every waiter waits for somebody. */
  ghost predicate NoneStranded(s: State) {
    forall rk :: rk in s.records && s.records[rk].state == Conflicting ==>
      PlaceOf(rk, s.records[rk]) in s.ownership
  }

  ghost predicate NoneStrandedExcept(s: State, k: Place) {
    forall rk :: rk in s.records && s.records[rk].state == Conflicting && PlaceOf(rk, s.records[rk]) != k ==>
      PlaceOf(rk, s.records[rk]) in s.ownership
  }

  ghost predicate Sequenced(s: State) {
    && (forall rk :: rk in s.records ==> s.records[rk].sequence < s.nextSequence)
    && (forall a, b :: a in s.records && b in s.records && a != b ==>
          s.records[a].sequence != s.records[b].sequence)
  }

  ghost predicate UidsIssued(s: State) {
    forall c :: c in s.connections ==> c < s.nextUid
  }

  predicate Supported(registration: Registration) {
    registration.protocolVersion == SUPPORTED_PROTOCOL_VERSION
  }

  ghost predicate Compatible(s: State) {
    forall rk :: rk in s.records && s.records[rk].state != Offline ==>
      (s.records[rk].state == Incompatible <==> !Supported(s.records[rk].registration))
  }

  /** Whatever is in flight is in flight to a connection that still exists. */
  ghost predicate Anchored(s: State) {
    && Valid(s.flights)
    && (forall x :: x in s.flights.open ==> s.flights.open[x].connection in s.connections)
    && (forall t :: t in s.tunnels ==> s.tunnels[t] in s.connections)
  }

  /** The history is of connections that existed, and what was settled by a
      disconnect went with a connection that is gone for good. */
  ghost predicate Chronicled(s: State) {
    forall h :: h in s.flights.settled ==>
      var x := s.flights.settled[h];
      x.flight.connection < s.nextUid && (x.cause.ByDisconnect? ==> x.flight.connection !in s.connections)
  }

  /** The slot holds the very command the outcome is of: of its kind, about its request,
      on a connection of its user and instance. */
  ghost predicate CarriedBy(f: Flights, conns: map<nat, Conn>, x: Slot, e: Outcome) {
    && x in f.open && x == CommandSlot(e.kind, f.open[x].connection, e.commandId)
    && f.open[x].requestId == e.requestId
    && f.open[x].connection in conns
    && conns[f.open[x].connection].userId == e.userId
    && conns[f.open[x].connection].instanceId == Some(e.instanceId)
  }

  ghost predicate HasOwnFlight(f: Flights, conns: map<nat, Conn>, e: Outcome) {
    exists x :: CarriedBy(f, conns, x, e)
  }

  /** An outcome that still says `accepted` has its own command in flight. */
  ghost predicate AcceptedInFlight(s: State) {
    && DistinctIds(s.outcomes)
    && forall e :: e in s.outcomes && e.status == Accepted ==> HasOwnFlight(s.flights, s.connections, e)
  }

  ghost predicate StaleBounded(s: State) {
    forall rk :: rk in s.records ==> |s.records[rk].stale| <= MAX_STALE_REQUEST_IDS
  }

  ghost predicate Settling(s: State, k: Place) {
    && Linked(s) && OfflineExact(s) && OwnershipExact(s) && Sequenced(s) && UidsIssued(s) && Compatible(s)
    && Anchored(s) && Chronicled(s) && AcceptedInFlight(s) && StaleBounded(s)
    && NoneStrandedExcept(s, k)
  }

  ghost predicate Inv(s: State) {
    && Linked(s) && OfflineExact(s) && OwnershipExact(s) && Sequenced(s) && UidsIssued(s) && Compatible(s)
    && Anchored(s) && Chronicled(s) && AcceptedInFlight(s) && StaleBounded(s)
    && NoneStranded(s)
  }

  // ---------------------------------------------------- losing a connection

  function TunnelsWithout(tunnels: map<string, nat>, gone: set<nat>): map<string, nat> {
    map t | t in tunnels && tunnels[t] !in gone :: tunnels[t]
  }

  /** The connections in `gone` with everything that was in flight on them. */
  function Dropped(s: State, gone: set<nat>, now: int): State {
    s.(connections := s.connections - gone,
       flights := Drop(s.flights, gone),
       tunnels := TunnelsWithout(s.tunnels, gone),
       outcomes := Settled(s.outcomes, CommandsOf(s.flights, gone), ResultUnknown, now))
  }

  function Offlined(r: Record): Record {
    r.(state := Offline, connection := None)
  }

  /** A record waiting for the place, on a connection. */
  predicate Waits(s: State, k: Place, rk: Key) {
    && rk in s.records
    && s.records[rk].state == Conflicting
    && s.records[rk].connection.Some?
    && PlaceOf(rk, s.records[rk]) == k
  }

  /** A waiter that its registration frame can be delivered to. */
  predicate Reachable(s: State, k: Place, rk: Key, env: Env) {
    Waits(s, k, rk) && env.Delivers(s.records[rk].connection.value)
  }

  /** The waiter control passes to: the reachable one that registered first. */
  predicate Wins(s: State, k: Place, rk: Key, env: Env) {
    && Reachable(s, k, rk, env)
    && forall o :: o in s.records && Reachable(s, k, o, env) ==> s.records[rk].sequence <= s.records[o].sequence
  }

  /** A waiter that was asked before any reachable one, and so lost its connection. */
  predicate Skipped(s: State, k: Place, rk: Key, env: Env) {
    && Waits(s, k, rk)
    && forall o :: o in s.records && Reachable(s, k, o, env) ==> s.records[rk].sequence < s.records[o].sequence
  }

  function SkippedConnections(s: State, k: Place, env: Env): set<nat> {
    set rk | rk in s.records && Skipped(s, k, rk, env) :: s.records[rk].connection.value
  }

  function PromotedRecord(s: State, k: Place, rk: Key, env: Env): Record
    requires rk in s.records
  {
    if Skipped(s, k, rk, env) then Offlined(s.records[rk])
    else if Wins(s, k, rk, env) then s.records[rk].(state := Controllable)
    else s.records[rk]
  }

  ghost predicate Won(s: State, k: Place, env: Env) {
    exists rk :: rk in s.records && Wins(s, k, rk, env)
  }

  ghost function Winner(s: State, k: Place, env: Env): (w: Key)
    requires Won(s, k, env)
    ensures w in s.records && Wins(s, k, w, env)
  {
    var w :| w in s.records && Wins(s, k, w, env);
    w
  }

  /** What handing out a place that lost its owner comes to. */
  ghost function Promoted(s: State, k: Place, env: Env): State {
    Dropped(s, SkippedConnections(s, k, env), env.now).(
      records := map rk | rk in s.records :: PromotedRecord(s, k, rk, env),
      ownership := if Won(s, k, env) then s.ownership[k := Winner(s, k, env).instanceId] else s.ownership)
  }

  function RecordOf(s: State, c: nat): Option<Key>
    requires c in s.connections
  {
    var conn := s.connections[c];
    if conn.instanceId.Some?
       && Key(conn.userId, conn.instanceId.value) in s.records
       && s.records[Key(conn.userId, conn.instanceId.value)].connection == Some(c)
    then Some(Key(conn.userId, conn.instanceId.value))
    else None
  }

  /** The state before the vacated place is handed out. */
  function Vacated(s: State, c: nat, rk: Key, env: Env): State
    requires rk in s.records
  {
    var k := PlaceOf(rk, s.records[rk]);
    var t := Dropped(s, {c}, env.now);
    t.(records := s.records[rk := Offlined(s.records[rk])],
       ownership := if Owns(s, k, rk) && k in s.ownership && s.ownership[k] == rk.instanceId
                    then s.ownership - {k} else s.ownership)
  }

  /** `disconnect`: a connection disappears, and with it whatever depended on it. */
  ghost function Disconnected(s: State, c: nat, env: Env): State {
    if c !in s.connections then s
    else
      match RecordOf(s, c)
      case None => Dropped(s, {c}, env.now)
      case Some(rk) =>
        var k := PlaceOf(rk, s.records[rk]);
        var t := Vacated(s, c, rk, env);
        if Owns(s, k, rk) && k in s.ownership && s.ownership[k] == rk.instanceId
        then Promoted(t, k, env) else t
  }

  /** `send`: a frame that cannot be written costs the connection. */
  ghost function Sent(s: State, c: nat, env: Env): State {
    if env.Delivers(c) then s else Disconnected(s, c, env)
  }

  // ----------------------------------------------- losing a connection: proofs

  lemma TunnelsTwice(tunnels: map<string, nat>, a: set<nat>, b: set<nat>)
    ensures TunnelsWithout(TunnelsWithout(tunnels, a), b) == TunnelsWithout(tunnels, a + b)
  {
  }

  lemma WithoutTwice(connections: map<nat, Conn>, a: set<nat>, b: set<nat>)
    ensures connections - a - b == connections - (a + b)
  {
  }

  lemma DroppedTwice(s: State, a: set<nat>, b: set<nat>, now: int)
    requires TimersExact(s.flights)
    ensures Dropped(Dropped(s, a, now), b, now) == Dropped(s, a + b, now)
  {
    DropTwice(s.flights, a, b);
    CommandsTwice(s.flights, a, b);
    SettledTwice(s.outcomes, CommandsOf(s.flights, a), CommandsOf(Drop(s.flights, a), b), ResultUnknown, now);
    WithoutTwice(s.connections, a, b);
    TunnelsTwice(s.tunnels, a, b);
  }

  lemma {:induction false} DroppedAccepted(s: State, gone: set<nat>, now: int)
    requires AcceptedInFlight(s)
    ensures AcceptedInFlight(Dropped(s, gone, now))
  {
    var ids := CommandsOf(s.flights, gone);
    var t := Dropped(s, gone, now);
    DistinctAfterSettling(s.outcomes, ids, ResultUnknown, now);
    SettledMembers(s.outcomes, ids, ResultUnknown, now);
    forall e | e in t.outcomes && e.status == Accepted ensures HasOwnFlight(t.flights, t.connections, e) {
      var o :| o in s.outcomes && Origin(o) == Origin(e)
        && (if o.commandId in ids then !Expired(o, now) && e.status == ResultUnknown else e == o);
      var x :| CarriedBy(s.flights, s.connections, x, e);
      assert x.commandId !in ids && CarriedBy(t.flights, t.connections, x, e);
    }
  }

  lemma DroppedAnchored(s: State, gone: set<nat>, now: int)
    requires Anchored(s) && Chronicled(s) && UidsIssued(s)
    ensures Anchored(Dropped(s, gone, now)) && Chronicled(Dropped(s, gone, now))
  {
    DropKeepsValid(s.flights, gone);
  }

  lemma OneRecordPerConnection(s: State, a: Key, b: Key)
    requires Linked(s) && a in s.records && b in s.records
    requires s.records[a].connection.Some? && s.records[a].connection == s.records[b].connection
    ensures a == b
  {
  }

  lemma VacatedLinked(s: State, c: nat, rk: Key, env: Env)
    requires Linked(s) && OfflineExact(s) && rk in s.records && s.records[rk].connection == Some(c)
    ensures Linked(Vacated(s, c, rk, env)) && OfflineExact(Vacated(s, c, rk, env))
  {
    var t := Vacated(s, c, rk, env);
    forall o | o in t.records && t.records[o].connection.Some? ensures t.records[o].connection.value in t.connections {
      if o != rk && s.records[o].connection == Some(c) {
        OneRecordPerConnection(s, o, rk);
      }
    }
  }

  lemma VacatedRecords(s: State, c: nat, rk: Key, env: Env)
    requires Sequenced(s) && UidsIssued(s) && Compatible(s) && StaleBounded(s) && rk in s.records
    ensures var t := Vacated(s, c, rk, env); Sequenced(t) && UidsIssued(t) && Compatible(t) && StaleBounded(t)
  {
  }

  lemma VacatedInFlight(s: State, c: nat, rk: Key, env: Env)
    requires Anchored(s) && Chronicled(s) && UidsIssued(s) && AcceptedInFlight(s) && rk in s.records
    ensures var t := Vacated(s, c, rk, env); Anchored(t) && Chronicled(t) && AcceptedInFlight(t)
  {
    DroppedAccepted(s, {c}, env.now);
    DroppedAnchored(s, {c}, env.now);
  }

  lemma VacatedOwnership(s: State, c: nat, rk: Key, env: Env)
    requires OwnershipExact(s) && NoneStranded(s) && Linked(s) && rk in s.records
    ensures var k, t := PlaceOf(rk, s.records[rk]), Vacated(s, c, rk, env);
      && OwnershipExact(t)
      && NoneStrandedExcept(t, k)
      && (Owns(s, k, rk) ==> k !in t.ownership)
      && (!Owns(s, k, rk) ==> NoneStranded(t))
  {
    VacatedOwners(s, c, rk, env);
    VacatedStrands(s, c, rk, env);
  }

  lemma VacatedStrands(s: State, c: nat, rk: Key, env: Env)
    requires NoneStranded(s) && rk in s.records
    ensures var k, t := PlaceOf(rk, s.records[rk]), Vacated(s, c, rk, env);
      && NoneStrandedExcept(t, k)
      && (!Owns(s, k, rk) ==> NoneStranded(t))
  {
  }

  lemma VacatedOwners(s: State, c: nat, rk: Key, env: Env)
    requires OwnershipExact(s) && rk in s.records
    ensures OwnershipExact(Vacated(s, c, rk, env))
  {
    var k, t := PlaceOf(rk, s.records[rk]), Vacated(s, c, rk, env);
    forall p | p in t.ownership ensures Owns(t, p, Key(p.userId, t.ownership[p])) {
      assert Owns(s, p, Key(p.userId, s.ownership[p]));
    }
  }

  lemma VacatedSettling(s: State, c: nat, rk: Key, env: Env)
    requires Inv(s) && rk in s.records && s.records[rk].connection == Some(c)
    ensures var k, t := PlaceOf(rk, s.records[rk]), Vacated(s, c, rk, env);
      && Settling(t, k)
      && (Owns(s, k, rk) ==> k !in t.ownership)
      && (!Owns(s, k, rk) ==> Inv(t))
  {
    VacatedInFlight(s, c, rk, env);
    VacatedRecords(s, c, rk, env);
    VacatedLinked(s, c, rk, env);
    VacatedOwnership(s, c, rk, env);
  }

  lemma SkippedElsewhere(s: State, k: Place, env: Env, rk: Key)
    requires Linked(s) && rk in s.records && s.records[rk].connection.Some?
    requires s.records[rk].connection.value in SkippedConnections(s, k, env)
    ensures Skipped(s, k, rk, env)
  {
    var o :| o in s.records && Skipped(s, k, o, env) && s.records[o].connection.value == s.records[rk].connection.value;
    OneRecordPerConnection(s, o, rk);
  }

  lemma UniqueWinner(s: State, k: Place, env: Env, a: Key, b: Key)
    requires Sequenced(s) && Wins(s, k, a, env) && Wins(s, k, b, env)
    ensures a == b
  {
    assert s.records[a].sequence <= s.records[b].sequence <= s.records[a].sequence;
  }

  lemma PromotedControllable(s: State, k: Place, env: Env, rk: Key)
    requires OwnershipExact(s) && Sequenced(s) && rk in s.records
    requires PromotedRecord(s, k, rk, env).state == Controllable
    ensures var t, p := Promoted(s, k, env), PlaceOf(rk, s.records[rk]);
      p in t.ownership && (k !in s.ownership ==> t.ownership[p] == rk.instanceId)
  {
    if Wins(s, k, rk, env) {
      UniqueWinner(s, k, env, rk, Winner(s, k, env));
    }
  }

  lemma PromotedOwns(s: State, k: Place, env: Env, p: Place)
    requires OwnershipExact(s) && p in Promoted(s, k, env).ownership && k !in s.ownership
    ensures var t := Promoted(s, k, env); Owns(t, p, Key(p.userId, t.ownership[p]))
  {
    var t := Promoted(s, k, env);
    if p == k {
      assert Winner(s, k, env) == Key(k.userId, t.ownership[k]);
    } else {
      assert Owns(s, p, Key(p.userId, s.ownership[p]));
    }
  }

  lemma PromotedOwners(s: State, k: Place, env: Env)
    requires OwnershipExact(s) && Sequenced(s) && k !in s.ownership
    ensures OwnershipExact(Promoted(s, k, env))
  {
    var t := Promoted(s, k, env);
    forall rk | rk in t.records && t.records[rk].state == Controllable
      ensures var p := PlaceOf(rk, t.records[rk]); p in t.ownership && t.ownership[p] == rk.instanceId
    {
      PromotedControllable(s, k, env, rk);
    }
    forall p | p in t.ownership ensures Owns(t, p, Key(p.userId, t.ownership[p])) {
      PromotedOwns(s, k, env, p);
    }
  }

  lemma PromotedStrandsNone(s: State, k: Place, env: Env)
    requires NoneStrandedExcept(s, k) && OfflineExact(s)
    ensures NoneStranded(Promoted(s, k, env))
  {
    var t := Promoted(s, k, env);
    forall rk | rk in t.records && t.records[rk].state == Conflicting
      ensures PlaceOf(rk, t.records[rk]) in t.ownership
    {
      StillWaiting(s, k, env, rk);
    }
  }

  /** Who still waits for the place waits for its new owner. */
  lemma StillWaiting(s: State, k: Place, env: Env, rk: Key)
    requires NoneStrandedExcept(s, k) && OfflineExact(s)
    requires rk in s.records && PromotedRecord(s, k, rk, env).state == Conflicting
    ensures PlaceOf(rk, s.records[rk]) in Promoted(s, k, env).ownership
  {
    if PlaceOf(rk, s.records[rk]) == k {
      assert Waits(s, k, rk);
      FirstReachableWins(s, k, env, rk);
    }
  }

  /** A waiter that was not skipped was preceded by a reachable one. */
  lemma FirstReachableWins(s: State, k: Place, env: Env, rk: Key)
    requires Waits(s, k, rk) && !Skipped(s, k, rk, env)
    ensures Won(s, k, env)
  {
    var o :| o in s.records && Reachable(s, k, o, env);
    var w := LowestReachable(s, k, env, o);
  }

  lemma LowestReachable(s: State, k: Place, env: Env, o: Key) returns (w: Key)
    requires Reachable(s, k, o, env)
    ensures Wins(s, k, w, env)
    decreases s.records[o].sequence
  {
    if lower :| lower in s.records && Reachable(s, k, lower, env) && s.records[lower].sequence < s.records[o].sequence {
      w := LowestReachable(s, k, env, lower);
    } else {
      w := o;
    }
  }

  lemma PromotedConnection(s: State, k: Place, env: Env, rk: Key)
    requires OfflineExact(s) && rk in s.records
    ensures var r, q := s.records[rk], PromotedRecord(s, k, rk, env);
      && q.registration == r.registration
      && (q.state == Offline <==> q.connection == None)
      && (q.connection.Some? ==> q.connection == r.connection && !Skipped(s, k, rk, env))
  {
  }

  lemma PromotedLinked(s: State, k: Place, env: Env)
    requires Linked(s) && OfflineExact(s)
    ensures Linked(Promoted(s, k, env)) && OfflineExact(Promoted(s, k, env))
  {
    var t := Promoted(s, k, env);
    forall rk | rk in s.records
      ensures var r, q := s.records[rk], t.records[rk];
        && q.registration == r.registration
        && (q.state == Offline <==> q.connection == None)
        && (q.connection.Some? ==> q.connection == r.connection && !Skipped(s, k, rk, env))
    {
      PromotedConnection(s, k, env, rk);
    }
    forall rk | rk in t.records && t.records[rk].connection.Some?
      ensures t.records[rk].connection.value in t.connections
    {
      if s.records[rk].connection.value in SkippedConnections(s, k, env) {
        SkippedElsewhere(s, k, env, rk);
      }
    }
  }

  /** What promoting does to a record at most. */
  predicate Reshaped(r: Record, q: Record) {
    && q.sequence == r.sequence && q.registration == r.registration && q.stale == r.stale
    && (q.state == r.state || q.state == Offline || (r.state == Conflicting && q.state == Controllable))
  }

  lemma PromotedRecordShape(s: State, k: Place, rk: Key, env: Env)
    requires rk in s.records
    ensures Reshaped(s.records[rk], PromotedRecord(s, k, rk, env))
  {
  }

  ghost predicate AllReshaped(rs: map<Key, Record>, qs: map<Key, Record>) {
    rs.Keys == qs.Keys && forall rk :: rk in rs ==> Reshaped(rs[rk], qs[rk])
  }

  lemma ReshapedStaySequenced(s: State, t: State)
    requires Sequenced(s) && AllReshaped(s.records, t.records) && t.nextSequence == s.nextSequence
    ensures Sequenced(t)
  {
  }

  lemma ReshapedStayCompatible(s: State, t: State)
    requires Compatible(s) && StaleBounded(s) && AllReshaped(s.records, t.records)
    ensures Compatible(t) && StaleBounded(t)
  {
    forall rk | rk in t.records && t.records[rk].state != Offline
      ensures t.records[rk].state == Incompatible <==> !Supported(t.records[rk].registration)
    {
      assert Reshaped(s.records[rk], t.records[rk]);
    }
  }

  lemma PromotedRecords(s: State, k: Place, env: Env)
    requires Sequenced(s) && UidsIssued(s) && Compatible(s) && StaleBounded(s)
    ensures var t := Promoted(s, k, env); Sequenced(t) && UidsIssued(t) && Compatible(t) && StaleBounded(t)
  {
    var t := Promoted(s, k, env);
    forall rk | rk in s.records ensures Reshaped(s.records[rk], t.records[rk]) {
      PromotedRecordShape(s, k, rk, env);
    }
    assert t.records.Keys == s.records.Keys;
    ReshapedStaySequenced(s, t);
    ReshapedStayCompatible(s, t);
  }

  lemma PromotedInFlight(s: State, k: Place, env: Env)
    requires Anchored(s) && Chronicled(s) && UidsIssued(s) && AcceptedInFlight(s)
    ensures var t := Promoted(s, k, env); Anchored(t) && Chronicled(t) && AcceptedInFlight(t)
  {
    var gone := SkippedConnections(s, k, env);
    DroppedAccepted(s, gone, env.now);
    DroppedAnchored(s, gone, env.now);
  }

  lemma PromotedKeepsInv(s: State, k: Place, env: Env)
    requires Settling(s, k) && k !in s.ownership
    ensures Inv(Promoted(s, k, env))
  {
    PromotedInFlight(s, k, env);
    PromotedRecords(s, k, env);
    PromotedLinked(s, k, env);
    PromotedOwners(s, k, env);
    PromotedStrandsNone(s, k, env);
  }

  lemma UnrecordedKeepsInv(s: State, c: nat, now: int)
    requires Inv(s) && c in s.connections && RecordOf(s, c).None?
    ensures Inv(Dropped(s, {c}, now))
  {
    DroppedAccepted(s, {c}, now);
    DroppedAnchored(s, {c}, now);
    UnrecordedIsNobodys(s, c);
    UnrecordedLinked(s, c, now);
  }

  lemma UnrecordedIsNobodys(s: State, c: nat)
    requires Linked(s) && c in s.connections && RecordOf(s, c).None?
    ensures forall rk :: rk in s.records && s.records[rk].connection.Some? ==> s.records[rk].connection.value != c
  {
  }

  lemma UnrecordedLinked(s: State, c: nat, now: int)
    requires Inv(s)
    requires forall rk :: rk in s.records && s.records[rk].connection.Some? ==> s.records[rk].connection.value != c
    ensures var t := Dropped(s, {c}, now); Linked(t) && OwnershipExact(t) && NoneStranded(t)
  {
  }

  lemma DisconnectedKeepsInv(s: State, c: nat, env: Env)
    requires Inv(s)
    ensures Inv(Disconnected(s, c, env))
    ensures Disconnected(s, c, env).connections.Keys <= s.connections.Keys - {c}
  {
    if c in s.connections {
      if RecordOf(s, c).None? {
        UnrecordedKeepsInv(s, c, env.now);
      } else {
        var rk := RecordOf(s, c).value;
        var k := PlaceOf(rk, s.records[rk]);
        VacatedSettling(s, c, rk, env);
        if Owns(s, k, rk) {
          PromotedKeepsInv(Vacated(s, c, rk, env), k, env);
        }
      }
    }
  }
}
