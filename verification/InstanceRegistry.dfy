/** The gateway's registry of plugin instances, as the object it is: maps that its
    methods update in place, and a disconnect that promotes, sends and so may
    disconnect again. */
module InstanceRegistry {
  import opened Prelude
  import opened CommandOutcomes
  import opened ControlFlights
  import opened RegistryState
  import opened RegistryEvents
  import opened RegistryRuns
  import opened RegistryTheorems
  import opened RegistryPromotion

  class InstanceRegistry {
    const limits: Limits
    const outcomes: OutcomeCache
    var records: map<Key, Record>
    var ownership: map<Place, string>
    var connections: map<nat, Conn>
    var nextSequence: nat
    var nextUid: nat
    var inFlight: map<Slot, Flight>
    var timers: map<nat, Slot>
    var nextTimer: nat
    var tunnels: map<string, nat>
    ghost var settled: map<nat, Settlement>

    ghost function Requests(): Flights
      reads this
    {
      Flights(inFlight, timers, settled, nextTimer)
    }

    ghost function View(): State
      reads this, outcomes
    {
      State(limits, records, ownership, connections, nextSequence, nextUid, Requests(), tunnels, outcomes.entries)
    }

    ghost predicate Configured()
      reads this
    {
      outcomes.ttl == limits.ttl && outcomes.capacity == limits.capacity
    }

    ghost predicate Sound()
      reads this, outcomes
    {
      Configured() && Inv(View())
    }

    constructor (limits: Limits)
      ensures Sound() && View() == Initial(limits) && fresh(outcomes)
    {
      this.limits := limits;
      outcomes := new OutcomeCache(limits.ttl, limits.capacity);
      records, ownership, connections := map[], map[], map[];
      nextSequence, nextUid, nextTimer := 0, 0, 0;
      inFlight, timers, tunnels, settled := map[], map[], map[], map[];
    }

    // -------------------------------------------------------- losing a connection

    /** The part of `disconnect` that settles what was in flight on the connection. */
    method SettleRequests(c: nat, now: int)
      requires TimersExact(Requests()) && DistinctIds(outcomes.entries)
      modifies this`inFlight, this`timers, this`settled, outcomes
      ensures Requests() == Drop(old(Requests()), {c})
      ensures outcomes.entries
        == Settled(old(outcomes.entries), CommandsOf(old(Requests()), {c}), ResultUnknown, now)
    {
      var mine := set x | x in inFlight && inFlight[x].connection == c;
      while mine != {}
        invariant forall x :: x in mine <==> x in inFlight && inFlight[x].connection == c
        invariant TimersExact(Requests()) && DistinctIds(outcomes.entries)
        invariant Drop(Requests(), {c}) == Drop(old(Requests()), {c})
        invariant Settled(outcomes.entries, CommandsOf(Requests(), {c}), ResultUnknown, now)
          == Settled(old(outcomes.entries), CommandsOf(old(Requests()), {c}), ResultUnknown, now)
        decreases mine
      {
        var x :| x in mine;
        ghost var before := Requests();
        ghost var entries := outcomes.entries;
        CloseThenDrop(before, x, c);
        CloseRequest(x, ByDisconnect);
        if x.AnswerSlot? || x.DecideSlot? {
          outcomes.Settle(x.commandId, ResultUnknown, now);
          DistinctAfterSettling(entries, {x.commandId}, ResultUnknown, now);
          SettledTwice(entries, {x.commandId}, CommandsOf(Requests(), {c}), ResultUnknown, now);
          assert {x.commandId} + CommandsOf(Requests(), {c}) == CommandsOf(before, {c});
        } else {
          assert CommandsOf(Requests(), {c}) == CommandsOf(before, {c});
        }
        mine := mine - {x};
      }
      DropAbsent(Requests(), c);
      SettledElsewhere(outcomes.entries, {}, ResultUnknown, now);
    }

    /** Delete an entry and clear its timeout. */
    method CloseRequest(x: Slot, ghost cause: Cause)
      requires x in inFlight
      modifies this`inFlight, this`timers, this`settled
      ensures Requests() == Close(old(Requests()), x, cause)
    {
      settled := settled[inFlight[x].timer := Settlement(inFlight[x], cause)];
      timers := timers - {inFlight[x].timer};
      inFlight := inFlight - {x};
    }

    method CloseTunnelsOf(c: nat)
      modifies this`tunnels
      ensures tunnels == TunnelsWithout(old(tunnels), {c})
    {
      var mine := set t | t in tunnels && tunnels[t] == c;
      while mine != {}
        invariant forall t :: t in mine <==> t in tunnels && tunnels[t] == c
        invariant TunnelsWithout(tunnels, {c}) == TunnelsWithout(old(tunnels), {c})
        decreases mine
      {
        var t :| t in mine;
        ghost var before := tunnels;
        tunnels := tunnels - {t};
        assert TunnelsWithout(tunnels, {c}) == TunnelsWithout(before, {c});
        mine := mine - {t};
      }
      assert TunnelsWithout(tunnels, {c}) == tunnels;
    }

    /** The part of `disconnect` before the connection's record is looked at. */
    method RemoveConnection(c: nat, now: int)
      requires TimersExact(Requests()) && DistinctIds(outcomes.entries)
      modifies this`connections, this`inFlight, this`timers, this`settled, this`tunnels, outcomes
      ensures View() == Dropped(old(View()), {c}, now)
    {
      connections := connections - {c};
      SettleRequests(c, now);
      CloseTunnelsOf(c);
    }

    /** The part of `disconnect` that takes the record offline; tells the place that
        lost its owner, if one did. */
    method Vacate(c: nat, rk: Key, ghost s: State, env: Env) returns (vacant: Option<Place>)
      requires rk in s.records && s.records[rk].connection == Some(c)
      requires View() == Dropped(s, {c}, env.now)
      modifies this`records, this`ownership
      ensures View() == Vacated(s, c, rk, env)
      ensures var k := PlaceOf(rk, s.records[rk]);
        vacant == if Owns(s, k, rk) && k in s.ownership && s.ownership[k] == rk.instanceId then Some(k) else None
    {
      var r := records[rk];
      records := records[rk := Offlined(r)];
      vacant := None;
      if r.state == Controllable {
        var k := PlaceOf(rk, r);
        if k in ownership && ownership[k] == rk.instanceId {
          ownership := ownership - {k};
          vacant := Some(k);
        }
      }
    }

    /** What `Vacate` leaves is settled but for the place it vacated. */
    static lemma VacatedIsSettling(s: State, c: nat, rk: Key, env: Env, vacant: Option<Place>)
      requires Inv(s) && rk in s.records && s.records[rk].connection == Some(c)
      requires var k := PlaceOf(rk, s.records[rk]);
        vacant == if Owns(s, k, rk) && k in s.ownership && s.ownership[k] == rk.instanceId then Some(k) else None
      ensures var t := Vacated(s, c, rk, env);
        && (vacant.Some? ==> Settling(t, vacant.value) && vacant.value !in t.ownership)
        && (vacant.None? ==> Inv(t))
    {
      VacatedSettling(s, c, rk, env);
      OwnerIsListed(s, rk);
    }

    static lemma OwnerIsListed(s: State, rk: Key)
      requires OwnershipExact(s) && rk in s.records
      ensures var k := PlaceOf(rk, s.records[rk]);
        Owns(s, k, rk) ==> k in s.ownership && s.ownership[k] == rk.instanceId
    {
    }

    method Disconnect(c: nat, env: Env)
      requires Sound()
      modifies this, outcomes
      ensures View() == Disconnected(old(View()), c, env) && Sound()
      decreases |connections|, 0
    {
      ghost var s := View();
      if c !in connections {
        return;
      }
      var conn := connections[c];
      RemoveConnection(c, env.now);
      assert connections.Keys < s.connections.Keys && connections == s.connections - {c};
      if conn.instanceId.None?
         || Key(conn.userId, conn.instanceId.value) !in records
         || records[Key(conn.userId, conn.instanceId.value)].connection != Some(c) {
        UnrecordedKeepsInv(s, c, env.now);
        return;
      }
      var rk := Key(conn.userId, conn.instanceId.value);
      var vacant := Vacate(c, rk, s, env);
      VacatedIsSettling(s, c, rk, env, vacant);
      if vacant.Some? {
        FewerConnections(s.connections, c);
        Promote(vacant.value, env);
      }
    }

    static lemma FewerConnections(before: map<nat, Conn>, c: nat)
      requires c in before
      ensures |before - {c}| < |before|
    {
      var after := before - {c};
      assert after.Keys == before.Keys - {c};
      assert |after.Keys| < |before.Keys|;
    }

    method Appoint(k: Place, rk: Key)
      requires Configured() && Settling(View(), k) && k !in ownership && Waits(View(), k, rk)
      modifies this`records, this`ownership
      ensures View() == Appointed(old(View()), k, rk) && Sound()
    {
      AppointedKeepsInv(View(), k, rk);
      records := records[rk := records[rk].(state := Controllable)];
      ownership := ownership[k := rk.instanceId];
    }

    method Promote(k: Place, env: Env)
      requires Configured() && Settling(View(), k) && k !in ownership
      modifies this, outcomes
      ensures View() == Promoted(old(View()), k, env) && Sound()
      decreases |connections|, 2
    {
      ghost var s := View();
      PromotedKeepsInv(s, k, env);
      var candidate := FindFirstInLine(k);
      if candidate.None? {
        NobodyWaits(s, k, env);
        return;
      }
      var rk := candidate.value;
      var c := records[rk].connection.value;
      Appoint(k, rk);
      if env.Delivers(c) {
        AppointeeIsTold(s, k, rk, env);
      } else {
        StartingOverIsPromoting(s, k, rk, env);
      }
      Send(c, env);
    }

    /** The waiter that registered first. */
    method FindFirstInLine(k: Place) returns (candidate: Option<Key>)
      ensures candidate.None? ==> forall o :: o in records ==> !Waits(View(), k, o)
      ensures candidate.Some? ==> FirstInLine(View(), k, candidate.value)
    {
      candidate := None;
      var todo := records.Keys;
      while todo != {}
        invariant todo <= records.Keys
        invariant candidate.None? ==> forall o :: o in records && o !in todo ==> !Waits(View(), k, o)
        invariant candidate.Some? ==>
          (Waits(View(), k, candidate.value)
           && forall o :: o in records && o !in todo && Waits(View(), k, o) ==>
                records[candidate.value].sequence <= records[o].sequence)
        decreases todo
      {
        var o :| o in todo;
        var r := records[o];
        if r.state == Conflicting && r.connection.Some? && PlaceOf(o, r) == k
           && (candidate.None? || r.sequence < records[candidate.value].sequence) {
          candidate := Some(o);
        }
        todo := todo - {o};
      }
    }

    /** Write one frame; failing to costs the connection. */
    method Send(c: nat, env: Env)
      requires Sound()
      modifies this, outcomes
      ensures View() == Sent(old(View()), c, env) && Sound()
      decreases |connections|, 1
    {
      if c !in env.open || c in env.jammed {
        Disconnect(c, env);
      }
    }

    // -------------------------------------------------------------- registration

    method Add(userId: string, keyId: string) returns (uid: nat)
      requires Sound()
      modifies this
      ensures View() == Added(old(View()), userId, keyId) && Sound()
      ensures uid == old(nextUid)
    {
      AddedKeepsInv(View(), userId, keyId);
      uid := nextUid;
      connections := connections[uid := Conn(userId, keyId, None)];
      nextUid := nextUid + 1;
    }

    method PruneOffline(k: Place, instanceId: string)
      modifies this`records
      ensures records == Pruned(old(View()), k, instanceId)
    {
      var doomed := set rk | rk in records && Superseded(k, instanceId, rk, records[rk]);
      while doomed != {}
        invariant forall rk :: rk in doomed <==> rk in records && Superseded(k, instanceId, rk, records[rk])
        invariant Pruned(View(), k, instanceId) == Pruned(old(View()), k, instanceId)
        decreases doomed
      {
        var rk :| rk in doomed;
        ghost var before := View();
        records := records - {rk};
        assert Pruned(View(), k, instanceId) == Pruned(before, k, instanceId);
        doomed := doomed - {rk};
      }
      assert Pruned(View(), k, instanceId) == records;
    }

    /** `register` from the connection's identity on. */
    method Enrol(c: nat, reg: Registration)
      requires c in connections
      modifies this
      ensures View() == Enrolled(old(View()), c, reg)
    {
      ghost var s := View();
      var userId := connections[c].userId;
      var rk, k := Key(userId, reg.instanceId), Place(userId, reg.path);
      connections := connections[c := connections[c].(instanceId := Some(reg.instanceId))];
      PruneOffline(k, reg.instanceId);
      assert records == Pruned(s, k, reg.instanceId);
      var state := TakePlace(k, reg);
      var sequence := nextSequence;
      if rk in records {
        sequence := records[rk].sequence;
      } else {
        nextSequence := nextSequence + 1;
      }
      records := records[rk := Record(reg, sequence, state, Some(c), [], [])];
    }

    /** The state a registration is admitted in; a free place is taken. */
    method TakePlace(k: Place, reg: Registration) returns (state: Presence)
      modifies this`ownership
      ensures state == AdmittedAs(old(View()), k, reg)
      ensures ownership == if state == Controllable then old(ownership)[k := reg.instanceId] else old(ownership)
    {
      if !Supported(reg) {
        return Incompatible;
      }
      if k in ownership && ownership[k] != reg.instanceId {
        return Conflicting;
      }
      ownership := ownership[k := reg.instanceId];
      return Controllable;
    }

    method Register(c: nat, reg: Registration, resumes: bool, env: Env)
      requires Sound() && c in connections && connections[c].instanceId.None?
      modifies this, outcomes
      ensures View() == Registered(old(View()), c, reg, resumes, env) && Sound()
    {
      RegisteredKeepsInv(View(), c, reg, resumes, env);
      var rk := Key(connections[c].userId, reg.instanceId);
      if rk in records && records[rk].connection.Some? && records[rk].connection != Some(c) {
        ReplacedConnectionIsAlreadyCleared(View(), c, reg, env);
        UnregisteredSurvives(View(), records[rk].connection.value, c, env);
        Disconnect(records[rk].connection.value, env);
        if !resumes {
          return;
        }
      }
      EnrolledKeepsInv(View(), c, reg);
      Enrol(c, reg);
      Send(c, env);
    }

    // --------------------------------------------------------- requests to plugins

    /** Add an entry under a timeout of its own, then write the request. */
    method Ask(x: Slot, c: nat, requestId: string, env: Env)
      requires Sound() && Inv(Asked(View(), x, c, requestId))
      modifies this, outcomes
      ensures View() == Sent(Asked(old(View()), x, c, requestId), c, env) && Sound()
    {
      OpenRequest(x, c, requestId);
      Send(c, env);
    }

    method OpenRequest(x: Slot, c: nat, requestId: string)
      modifies this`inFlight, this`timers, this`nextTimer
      ensures View() == Asked(old(View()), x, c, requestId)
    {
      inFlight := inFlight[x := Flight(c, requestId, nextTimer)];
      timers := timers[nextTimer := x];
      nextTimer := nextTimer + 1;
    }

    method CollectSessions(userId: string, instanceId: string, requestId: string, env: Env) returns (asked: bool)
      requires Sound() && CatalogSlot(requestId) !in inFlight
      modifies this, outcomes
      ensures View() == CatalogCollected(old(View()), userId, instanceId, requestId, env) && Sound()
      ensures asked <==> Route(old(View()), userId, instanceId, env).Some?
    {
      CatalogCollectedKeepsInv(View(), userId, instanceId, requestId, env);
      var route := FindRoute(userId, instanceId, env);
      if route.None? {
        return false;
      }
      AskedKeepsInv(View(), CatalogSlot(requestId), route.value, requestId);
      Ask(CatalogSlot(requestId), route.value, requestId, env);
      return true;
    }

    method FindRoute(userId: string, instanceId: string, env: Env) returns (route: Option<nat>)
      ensures route == Route(View(), userId, instanceId, env)
    {
      var rk := Key(userId, instanceId);
      if rk !in records || records[rk].state != Controllable || records[rk].connection.None?
         || records[rk].connection.value !in env.open {
        return None;
      }
      return records[rk].connection;
    }

    /** Ask the chosen targets one after the other. */
    method CollectPending(userId: string, asks: seq<(string, string)>, env: Env)
      requires Sound() && AsksTargets(View(), userId, asks, env)
      modifies this, outcomes
      ensures View() == SnapshotsAsked(old(View()), userId, asks, env) && Sound()
    {
      ghost var s := View();
      SnapshotsAskedKeepsInv(s, userId, asks, env);
      var i := 0;
      while i < |asks|
        invariant 0 <= i <= |asks|
        invariant Sound() && AsksTargets(View(), userId, asks[i..], env)
        invariant SnapshotsAsked(View(), userId, asks[i..], env) == SnapshotsAsked(s, userId, asks, env)
      {
        NextTarget(View(), userId, asks, i, env);
        AskSnapshot(userId, asks[i], env);
        i := i + 1;
      }
    }

    static lemma NextTarget(s: State, userId: string, asks: seq<(string, string)>, i: nat, env: Env)
      requires i < |asks| && Inv(s) && AsksTargets(s, userId, asks[i..], env)
      ensures var t := SnapshotAsked(s, userId, asks[i], env);
        && AsksTargets(t, userId, asks[i + 1..], env)
        && SnapshotsAsked(s, userId, asks[i..], env) == SnapshotsAsked(t, userId, asks[i + 1..], env)
        && Route(s, userId, asks[i].0, env).Some?
        && SnapshotSlot(Route(s, userId, asks[i].0, env).value, asks[i].1) !in s.flights.open
    {
      assert asks[i..][1..] == asks[i + 1..] && asks[i..][0] == asks[i];
      SnapshotAskedKeepsTargets(s, userId, asks[i..], env);
    }

    method AskSnapshot(userId: string, ask: (string, string), env: Env)
      requires Sound() && Route(View(), userId, ask.0, env).Some?
      requires SnapshotSlot(Route(View(), userId, ask.0, env).value, ask.1) !in inFlight
      modifies this, outcomes
      ensures View() == SnapshotAsked(old(View()), userId, ask, env) && Sound()
    {
      var c := records[Key(userId, ask.0)].connection.value;
      AskedKeepsInv(View(), SnapshotSlot(c, ask.1), c, ask.1);
      Ask(SnapshotSlot(c, ask.1), c, ask.1, env);
    }

    method FindBusy(kind: Kind, c: nat, requestId: string, commandId: string) returns (busy: bool)
      ensures busy <==> Busy(Requests(), kind, c, requestId, commandId)
    {
      var todo := inFlight.Keys;
      while todo != {}
        invariant todo <= inFlight.Keys
        invariant forall x :: x in inFlight && x !in todo && IsKind(kind, x) && inFlight[x].connection == c ==>
                    inFlight[x].requestId != requestId && x.commandId != commandId
        decreases todo
      {
        var x :| x in todo;
        if IsKind(kind, x) && inFlight[x].connection == c
           && (inFlight[x].requestId == requestId || x.commandId == commandId) {
          return true;
        }
        todo := todo - {x};
      }
      return false;
    }

    /** The gates of `answerQuestion` and `decidePermission`. */
    method CheckCommand(kind: Kind, userId: string, instanceId: string, requestId: string, commandId: string,
                        sessionId: string, env: Env) returns (gate: Gate)
      ensures gate == CommandGate(View(), kind, userId, instanceId, requestId, commandId, sessionId, env)
    {
      var route := FindRoute(userId, instanceId, env);
      if route.None? {
        return NotFound;
      }
      var r := records[Key(userId, instanceId)];
      var projected := Projection(r.projected, requestId);
      if projected.None? {
        return if requestId in r.stale then Conflict else NotFound;
      }
      if projected.value.kind != kind || projected.value.sessionId != sessionId {
        return Conflict;
      }
      var busy := FindBusy(kind, route.value, requestId, commandId);
      return if busy then Conflict else Go(route.value);
    }

    /** `answerQuestion` and `decidePermission`. */
    method RouteCommand(kind: Kind, userId: string, instanceId: string, requestId: string, commandId: string,
                        sessionId: string, env: Env) returns (gate: Gate)
      requires Sound()
      modifies this, outcomes
      ensures View() == Commanded(old(View()), kind, userId, instanceId, requestId, commandId, sessionId, env) && Sound()
      ensures gate == CommandGate(old(View()), kind, userId, instanceId, requestId, commandId, sessionId, env)
    {
      gate := CheckCommand(kind, userId, instanceId, requestId, commandId, sessionId, env);
      if gate.Go? {
        var c := gate.connection;
        GateLetsThrough(View(), kind, userId, instanceId, requestId, commandId, sessionId, env);
        CommandIssuedKeepsInv(View(), kind, userId, instanceId, requestId, commandId, c, env);
        SendCommand(kind, userId, instanceId, requestId, commandId, c, env);
      }
    }

    method SendCommand(kind: Kind, userId: string, instanceId: string, requestId: string, commandId: string,
                       c: nat, env: Env)
      requires Configured() && Inv(CommandIssued(View(), kind, userId, instanceId, requestId, commandId, c, env))
      modifies this, outcomes
      ensures View() == Sent(CommandIssued(old(View()), kind, userId, instanceId, requestId, commandId, c, env), c, env)
      ensures Sound()
    {
      IssueCommand(kind, userId, instanceId, requestId, commandId, c, env);
      Send(c, env);
    }

    /** Record the outcome as accepted and put the command in flight. */
    method IssueCommand(kind: Kind, userId: string, instanceId: string, requestId: string, commandId: string,
                        c: nat, env: Env)
      requires Configured()
      modifies this`inFlight, this`timers, this`nextTimer, outcomes
      ensures View() == CommandIssued(old(View()), kind, userId, instanceId, requestId, commandId, c, env)
    {
      outcomes.Record(userId, commandId, requestId, instanceId, kind, env.now);
      OpenRequest(CommandSlot(kind, c, commandId), c, requestId);
    }

    method SendPrompt(userId: string, instanceId: string, commandId: string, env: Env) returns (gate: Gate)
      requires Sound()
      modifies this, outcomes
      ensures View() == Prompted(old(View()), userId, instanceId, commandId, env) && Sound()
      ensures gate == match Route(old(View()), userId, instanceId, env)
                      case None => NotFound
                      case Some(c) => if PromptSlot(c, commandId) in old(inFlight) then Conflict else Go(c)
    {
      var route := FindRoute(userId, instanceId, env);
      if route.None? {
        return NotFound;
      }
      var c := route.value;
      if PromptSlot(c, commandId) in inFlight {
        return Conflict;
      }
      RouteLeadsHome(View(), userId, instanceId, env);
      AskedKeepsInv(View(), PromptSlot(c, commandId), c, commandId);
      Ask(PromptSlot(c, commandId), c, commandId, env);
      return Go(c);
    }

    // -------------------------------------------------------------------- results

    method HandleCatalog(c: nat, instanceId: string, requestId: string)
      requires Sound() && c in connections
      modifies this
      ensures View() == CatalogAnswered(old(View()), c, instanceId, requestId) && Sound()
    {
      CatalogAnsweredKeepsInv(View(), c, instanceId, requestId);
      var x := CatalogSlot(requestId);
      if x in inFlight && inFlight[x].connection == c && connections[c].instanceId == Some(instanceId) {
        CloseRequest(x, ByResult(c));
      }
    }

    method HandleSnapshot(c: nat, instanceId: string, requestId: string, interactions: seq<Pending>)
      requires Sound() && c in connections
      modifies this
      ensures View() == SnapshotAnswered(old(View()), c, instanceId, requestId, interactions) && Sound()
    {
      SnapshotAnsweredKeepsInv(View(), c, instanceId, requestId, interactions);
      TakeSnapshot(c, instanceId, requestId, interactions);
    }

    method TakeSnapshot(c: nat, instanceId: string, requestId: string, interactions: seq<Pending>)
      requires c in connections
      modifies this`inFlight, this`timers, this`settled, this`records
      ensures View() == SnapshotAnswered(old(View()), c, instanceId, requestId, interactions)
    {
      var x := SnapshotSlot(c, requestId);
      if connections[c].instanceId != Some(instanceId) || x !in inFlight {
        return;
      }
      CloseRequest(x, ByResult(c));
      var rk := Key(connections[c].userId, instanceId);
      if rk in records && records[rk].connection == Some(c) {
        records := records[rk := Projected(records[rk], interactions)];
      }
    }

    method HandleCommandResult(kind: Kind, c: nat, instanceId: string, commandId: string, status: Status, env: Env)
      requires Sound() && c in connections && status != Accepted
      modifies this, outcomes
      ensures View() == CommandAnswered(old(View()), kind, c, instanceId, commandId, status, env) && Sound()
    {
      CommandAnsweredKeepsInv(View(), kind, c, instanceId, commandId, status, env);
      TakeCommandResult(kind, c, instanceId, commandId, status, env);
    }

    method TakeCommandResult(kind: Kind, c: nat, instanceId: string, commandId: string, status: Status, env: Env)
      requires c in connections && status != Accepted && Configured() && DistinctIds(outcomes.entries)
      modifies this`inFlight, this`timers, this`settled, this`records, outcomes
      ensures View() == CommandAnswered(old(View()), kind, c, instanceId, commandId, status, env)
    {
      var x := CommandSlot(kind, c, commandId);
      if connections[c].instanceId != Some(instanceId) || x !in inFlight {
        return;
      }
      var requestId := inFlight[x].requestId;
      CloseRequest(x, ByResult(c));
      if status == Confirmed {
        MarkResolved(c, instanceId, requestId);
      }
      outcomes.Settle(commandId, status, env.now);
    }

    /** The request of a confirmed command leaves the projection and turns stale. */
    method MarkResolved(c: nat, instanceId: string, requestId: string)
      requires c in connections && connections[c].instanceId == Some(instanceId)
      modifies this`records
      ensures records == match RecordOf(old(View()), c)
                         case None => old(records)
                         case Some(rk) => old(records)[rk := Resolved(old(records)[rk], requestId)]
    {
      var rk := Key(connections[c].userId, instanceId);
      if rk in records && records[rk].connection == Some(c) {
        records := records[rk := Resolved(records[rk], requestId)];
      }
    }

    method HandlePromptResult(c: nat, instanceId: string, commandId: string)
      requires Sound() && c in connections
      modifies this
      ensures View() == PromptAnswered(old(View()), c, instanceId, commandId) && Sound()
    {
      PromptAnsweredKeepsInv(View(), c, instanceId, commandId);
      var x := PromptSlot(c, commandId);
      if connections[c].instanceId == Some(instanceId) && x in inFlight {
        CloseRequest(x, ByResult(c));
      }
    }

    /** An armed timeout fires. */
    method Timeout(handle: nat, env: Env)
      requires Sound() && handle in timers
      modifies this, outcomes
      ensures View() == TimedOut(old(View()), handle, env) && Sound()
    {
      TimedOutKeepsInv(View(), handle, env);
      var x := timers[handle];
      CloseRequest(x, ByTimer);
      if x.AnswerSlot? || x.DecideSlot? {
        outcomes.Settle(x.commandId, ResultUnknown, env.now);
      }
    }

    // --------------------------------------------------------------- administration

    method ForgetOffline(userId: string, instanceId: string) returns (forgotten: bool)
      requires Sound()
      modifies this
      ensures View() == Forgotten(old(View()), userId, instanceId) && Sound()
      ensures forgotten <==> Key(userId, instanceId) in old(records) && Key(userId, instanceId) !in records
    {
      ForgottenKeepsInv(View(), userId, instanceId);
      var rk := Key(userId, instanceId);
      if rk !in records || records[rk].state != Offline || records[rk].connection.Some? {
        return false;
      }
      records := records - {rk};
      return true;
    }

    /** Disconnect the chosen connections in the order they were accepted. */
    method DisconnectEach(chosen: set<nat>, env: Env)
      requires Sound()
      modifies this, outcomes
      ensures View() == DisconnectedAll(old(View()), UidsBelow(old(nextUid), chosen), env) && Sound()
    {
      ghost var s := View();
      ghost var cs := [];
      for n := 0 to nextUid
        invariant cs == UidsBelow(n, chosen)
        invariant Sound() && View() == DisconnectedAll(s, cs, env)
      {
        DisconnectedAllSnoc(s, cs, n, env);
        cs := cs + (if n in chosen then [n] else []);
        if n in chosen {
          Disconnect(n, env);
        }
      }
    }

    static lemma DisconnectedAllSnoc(s: State, cs: seq<nat>, c: nat, env: Env)
      ensures DisconnectedAll(s, cs + [c], env) == Disconnected(DisconnectedAll(s, cs, env), c, env)
      ensures cs + [] == cs
    {
      assert (cs + [c])[..|cs|] == cs;
    }

    method RevokeKey(keyId: string, env: Env)
      requires Sound()
      modifies this, outcomes
      ensures View() == KeyRevoked(old(View()), keyId, env) && Sound()
    {
      var held := set c | c in connections && connections[c].keyId == keyId;
      DisconnectEach(held, env);
    }

    method CloseAll(env: Env)
      requires Sound()
      modifies this, outcomes
      ensures View() == AllClosed(old(View()), env) && Sound()
      ensures connections == map[] && ownership == map[] && inFlight == map[] && timers == map[] && tunnels == map[]
    {
      CloseAllEmptiesTheRegistry(View(), env);
      DisconnectEach(connections.Keys, env);
    }

    method OutcomeFor(userId: string, commandId: string, env: Env) returns (found: Option<Outcome>)
      requires Sound()
      modifies outcomes
      ensures View() == old(View()).(outcomes := Live(old(outcomes.entries), env.now)) && Sound()
      ensures found.Some? <==> exists e :: e in Live(old(outcomes.entries), env.now)
                                 && e.commandId == commandId && e.userId == userId
      ensures found.Some? ==> (found.value in Live(old(outcomes.entries), env.now)
        && found.value.commandId == commandId && found.value.userId == userId)
    {
      PrunedOutcomesKeepInv(View(), env.now);
      found := outcomes.OutcomeFor(userId, commandId, env.now);
    }

    method OpenTunnel(userId: string, instanceId: string, tunnelId: string, env: Env) returns (ready: bool)
      requires Sound() && tunnelId !in tunnels
      modifies this
      ensures View() == TunnelOpened(old(View()), userId, instanceId, tunnelId, env) && Sound()
      ensures ready <==> tunnelId in tunnels
    {
      TunnelOpenedKeepsInv(View(), userId, instanceId, tunnelId, env);
      var route := FindRoute(userId, instanceId, env);
      if route.None? || !records[Key(userId, instanceId)].registration.webUiAvailable {
        return false;
      }
      tunnels := tunnels[tunnelId := route.value];
      return true;
    }

    method CloseTunnel(tunnelId: string, env: Env)
      requires Sound()
      modifies this, outcomes
      ensures View() == TunnelClosed(old(View()), tunnelId, env) && Sound()
    {
      TunnelClosedKeepsInv(View(), tunnelId, env);
      if tunnelId in tunnels {
        var c := tunnels[tunnelId];
        DroppingATunnelKeepsInv(View(), tunnelId);
        tunnels := tunnels - {tunnelId};
        if c in env.open {
          Send(c, env);
        }
      }
    }
  }
}
