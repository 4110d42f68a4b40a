/** What the registry promises over whole runs. */
module RegistryTheorems {
  import opened Prelude
  import opened CommandOutcomes
  import opened ControlFlights
  import opened RegistryState
  import opened RegistryEvents
  import opened RegistryRuns

  // --------------------------------------------------- every reachable state

  /** Losing a connection never costs another controllable instance its control. */
  lemma DisconnectSparesOtherOwners(s: State, c: nat, env: Env, rk: Key)
    requires rk in s.records && s.records[rk].state == Controllable && s.records[rk].connection != Some(c)
    ensures rk in Disconnected(s, c, env).records && Disconnected(s, c, env).records[rk] == s.records[rk]
  {
  }

  /** While one target of a collection is asked, every other target keeps its
      record and its connection, whatever sends fail on the way. */
  lemma CollectTargetsStayLive(s: State, userId: string, asks: seq<(string, string)>, i: nat, env: Env)
    requires Inv(s) && AsksTargets(s, userId, asks, env) && 0 < i < |asks|
    ensures var t := SnapshotAsked(s, userId, asks[0], env);
      Route(t, userId, asks[i].0, env) == Route(s, userId, asks[i].0, env)
  {
    var c := Route(s, userId, asks[0].0, env).value;
    var a := Asked(s, SnapshotSlot(c, asks[0].1), c, asks[0].1);
    var rk := Key(userId, asks[i].0);
    if s.records[rk].connection == Some(c) {
      OneRecordPerConnection(s, rk, Key(userId, asks[0].0));
    }
    DisconnectSparesOtherOwners(a, c, env, rk);
  }

  lemma SnapshotAskedKeepsInv(s: State, userId: string, asks: seq<(string, string)>, env: Env)
    requires Inv(s) && AsksTargets(s, userId, asks, env) && asks != []
    ensures Inv(SnapshotAsked(s, userId, asks[0], env))
  {
    var c := Route(s, userId, asks[0].0, env).value;
    AskedKeepsInv(s, SnapshotSlot(c, asks[0].1), c, asks[0].1);
    SentKeepsInv(Asked(s, SnapshotSlot(c, asks[0].1), c, asks[0].1), c, env);
  }

  lemma SnapshotAskedOpens(s: State, userId: string, ask: (string, string), env: Env, x: Slot)
    requires x in SnapshotAsked(s, userId, ask, env).flights.open && x.SnapshotSlot?
    ensures x in s.flights.open || x.requestId == ask.1
  {
    if Route(s, userId, ask.0, env).Some? {
      var c := Route(s, userId, ask.0, env).value;
      DisconnectedOpens(Asked(s, SnapshotSlot(c, ask.1), c, ask.1), c, env);
    }
  }

  lemma SnapshotAskedKeepsTargets(s: State, userId: string, asks: seq<(string, string)>, env: Env)
    requires Inv(s) && AsksTargets(s, userId, asks, env) && asks != []
    ensures AsksTargets(SnapshotAsked(s, userId, asks[0], env), userId, asks[1..], env)
  {
    var t := SnapshotAsked(s, userId, asks[0], env);
    forall x | x in t.flights.open && x.SnapshotSlot? ensures x in s.flights.open || x.requestId == asks[0].1 {
      SnapshotAskedOpens(s, userId, asks[0], env, x);
    }
    forall i | 0 < i < |asks| ensures Route(t, userId, asks[i].0, env).Some? {
      CollectTargetsStayLive(s, userId, asks, i, env);
    }
    TargetsButTheFirst(s, t, userId, asks, env);
  }

  lemma TargetsButTheFirst(s: State, t: State, userId: string, asks: seq<(string, string)>, env: Env)
    requires AsksTargets(s, userId, asks, env) && asks != []
    requires forall i :: 0 < i < |asks| ==> Route(t, userId, asks[i].0, env).Some?
    requires forall x :: x in t.flights.open && x.SnapshotSlot? ==> x in s.flights.open || x.requestId == asks[0].1
    ensures AsksTargets(t, userId, asks[1..], env)
  {
    var rest := asks[1..];
    assert forall i :: 0 <= i < |rest| ==> rest[i] == asks[i + 1];
  }

  lemma DisconnectedOpens(s: State, c: nat, env: Env)
    ensures forall x :: x in Disconnected(s, c, env).flights.open ==> x in s.flights.open
  {
  }

  lemma {:induction false} SnapshotsAskedKeepsInv(s: State, userId: string, asks: seq<(string, string)>, env: Env)
    requires Inv(s) && AsksTargets(s, userId, asks, env)
    ensures Inv(SnapshotsAsked(s, userId, asks, env))
    decreases |asks|
  {
    if asks != [] {
      SnapshotAskedKeepsInv(s, userId, asks, env);
      SnapshotAskedKeepsTargets(s, userId, asks, env);
      SnapshotsAskedKeepsInv(SnapshotAsked(s, userId, asks[0], env), userId, asks[1..], env);
    }
  }

  lemma RequestSentKeepsInv(s: State, slot: Slot, c: nat, requestId: string, env: Env)
    requires Inv(s) && c in s.connections && slot !in s.flights.open
    requires slot.CatalogSlot? || (slot.PromptSlot? && slot.uid == c)
    ensures Inv(Sent(Asked(s, slot, c, requestId), c, env))
  {
    AskedKeepsInv(s, slot, c, requestId);
    SentKeepsInv(Asked(s, slot, c, requestId), c, env);
  }

  lemma CatalogCollectedKeepsInv(s: State, userId: string, instanceId: string, requestId: string, env: Env)
    requires Inv(s) && CatalogSlot(requestId) !in s.flights.open
    ensures Inv(CatalogCollected(s, userId, instanceId, requestId, env))
  {
    if Route(s, userId, instanceId, env).Some? {
      RequestSentKeepsInv(s, CatalogSlot(requestId), Route(s, userId, instanceId, env).value, requestId, env);
    }
  }

  lemma CommandedKeepsInv(s: State, kind: Kind, userId: string, instanceId: string, requestId: string,
                          commandId: string, sessionId: string, env: Env)
    requires Inv(s)
    ensures Inv(Commanded(s, kind, userId, instanceId, requestId, commandId, sessionId, env))
  {
    var gate := CommandGate(s, kind, userId, instanceId, requestId, commandId, sessionId, env);
    if gate.Go? {
      var c := gate.connection;
      GateLetsThrough(s, kind, userId, instanceId, requestId, commandId, sessionId, env);
      CommandIssuedKeepsInv(s, kind, userId, instanceId, requestId, commandId, c, env);
      SentKeepsInv(CommandIssued(s, kind, userId, instanceId, requestId, commandId, c, env), c, env);
    }
  }

  lemma PromptedKeepsInv(s: State, userId: string, instanceId: string, commandId: string, env: Env)
    requires Inv(s)
    ensures Inv(Prompted(s, userId, instanceId, commandId, env))
  {
    if Route(s, userId, instanceId, env).Some? {
      var c := Route(s, userId, instanceId, env).value;
      if PromptSlot(c, commandId) !in s.flights.open {
        RequestSentKeepsInv(s, PromptSlot(c, commandId), c, commandId, env);
      }
    }
  }

  lemma TunnelClosedKeepsInv(s: State, tunnelId: string, env: Env)
    requires Inv(s)
    ensures Inv(TunnelClosed(s, tunnelId, env))
  {
    if tunnelId in s.tunnels {
      DroppingATunnelKeepsInv(s, tunnelId);
      SentKeepsInv(s.(tunnels := s.tunnels - {tunnelId}), s.tunnels[tunnelId], env);
    }
  }

  lemma DroppingATunnelKeepsInv(s: State, tunnelId: string)
    requires Inv(s)
    ensures Inv(s.(tunnels := s.tunnels - {tunnelId}))
  {
  }

  lemma TunnelOpenedKeepsInv(s: State, userId: string, instanceId: string, tunnelId: string, env: Env)
    requires Inv(s)
    ensures Inv(TunnelOpened(s, userId, instanceId, tunnelId, env))
  {
    if Route(s, userId, instanceId, env).Some? {
      RouteLeadsHome(s, userId, instanceId, env);
      ATunnelKeepsInv(s, tunnelId, Route(s, userId, instanceId, env).value);
    }
  }

  lemma ATunnelKeepsInv(s: State, tunnelId: string, c: nat)
    requires Inv(s) && c in s.connections
    ensures Inv(s.(tunnels := s.tunnels[tunnelId := c]))
  {
  }

  lemma AddedKeepsInv(s: State, userId: string, keyId: string)
    requires Inv(s)
    ensures Inv(Added(s, userId, keyId))
  {
    AddedKeepsAccepted(s, userId, keyId);
  }

  lemma AddedKeepsAccepted(s: State, userId: string, keyId: string)
    requires AcceptedInFlight(s) && UidsIssued(s)
    ensures AcceptedInFlight(Added(s, userId, keyId))
  {
    var t := Added(s, userId, keyId);
    forall e | e in t.outcomes && e.status == Accepted ensures HasOwnFlight(t.flights, t.connections, e) {
      var x :| CarriedBy(s.flights, s.connections, x, e);
      assert CarriedBy(t.flights, t.connections, x, e);
    }
  }

  /** Who an event's result comes from, if it is a result. */
  function ResultFrom(ev: Event): Option<nat> {
    match ev
    case CatalogResponse(c, _, _) => Some(c)
    case SnapshotResponse(c, _, _, _) => Some(c)
    case CommandResult(_, c, _, _, _) => Some(c)
    case PromptResult(c, _, _) => Some(c)
    case _ => None
  }

  lemma ResultKeepsInv(s: State, ev: Event, env: Env)
    requires Inv(s) && Enabled(s, ev, env) && ResultFrom(ev).Some?
    ensures Inv(Step(s, ev, env))
  {
    match ev {
      case CatalogResponse(c, i, q) => CatalogAnsweredKeepsInv(s, c, i, q);
      case SnapshotResponse(c, i, q, xs) => SnapshotAnsweredKeepsInv(s, c, i, q, xs);
      case CommandResult(kind, c, i, m, status) => CommandAnsweredKeepsInv(s, kind, c, i, m, status, env);
      case PromptResult(c, i, m) => PromptAnsweredKeepsInv(s, c, i, m);
    }
  }

  /** The events that send a request to a plugin. */
  predicate IsRequest(ev: Event) {
    ev.CollectSessions? || ev.CollectPending? || ev.Command? || ev.Prompt?
  }

  lemma RequestKeepsInv(s: State, ev: Event, env: Env)
    requires Inv(s) && Enabled(s, ev, env) && IsRequest(ev)
    ensures Inv(Step(s, ev, env))
  {
    match ev {
      case CollectSessions(u, i, q) => CatalogCollectedKeepsInv(s, u, i, q, env);
      case CollectPending(u, asks) => SnapshotsAskedKeepsInv(s, u, asks, env);
      case Command(kind, u, i, q, m, x) => CommandedKeepsInv(s, kind, u, i, q, m, x, env);
      case Prompt(u, i, m) => PromptedKeepsInv(s, u, i, m, env);
    }
  }

  /** The events by which connections come and go. */
  predicate IsOfConnections(ev: Event) {
    ev.Add? || ev.Register? || ev.Disconnect? || ev.RevokeKey? || ev.CloseAll?
  }

  lemma ConnectionsKeepInv(s: State, ev: Event, env: Env)
    requires Inv(s) && Enabled(s, ev, env) && IsOfConnections(ev)
    ensures Inv(Step(s, ev, env))
  {
    match ev {
      case Add(u, k) => AddedKeepsInv(s, u, k);
      case Register(c, reg, resumes) => RegisteredKeepsInv(s, c, reg, resumes, env);
      case Disconnect(c) => DisconnectedKeepsInv(s, c, env);
      case RevokeKey(k) => DisconnectedAllKeepsInv(s, UidsBelow(s.nextUid, ConnectionsOfKey(s, k)), env);
      case CloseAll => DisconnectedAllKeepsInv(s, UidsBelow(s.nextUid, s.connections.Keys), env);
    }
  }

  /** What is left: time, forgetting, queries and tunnels. */
  predicate IsOther(ev: Event) {
    ResultFrom(ev).None? && !IsRequest(ev) && !IsOfConnections(ev)
  }

  lemma OtherKeepsInv(s: State, ev: Event, env: Env)
    requires Inv(s) && IsOther(ev)
    ensures Inv(Step(s, ev, env))
  {
    match ev {
      case TimerFires(h) => TimedOutKeepsInv(s, h, env);
      case ForgetOffline(u, i) => ForgottenKeepsInv(s, u, i);
      case QueryOutcome => PrunedOutcomesKeepInv(s, env.now);
      case OpenTunnel(u, i, t) => TunnelOpenedKeepsInv(s, u, i, t, env);
      case CloseTunnel(t) => TunnelClosedKeepsInv(s, t, env);
    }
  }

  lemma StepKeepsInv(s: State, ev: Event, env: Env)
    requires Inv(s) && Enabled(s, ev, env)
    ensures Inv(Step(s, ev, env))
  {
    if ResultFrom(ev).Some? {
      ResultKeepsInv(s, ev, env);
    } else if IsRequest(ev) {
      RequestKeepsInv(s, ev, env);
    } else if IsOfConnections(ev) {
      ConnectionsKeepInv(s, ev, env);
    } else {
      OtherKeepsInv(s, ev, env);
    }
  }

  /** In every reachable state ownership, records, connections and the requests in
      flight agree, no waiter is stranded, and accepted outcomes are in flight. */
  lemma {:induction false} ReachableStatesAreConsistent(limits: Limits, run: seq<(Event, Env)>)
    requires Feasible(limits, run)
    ensures Inv(Run(limits, run))
  {
    if run != [] {
      var before := run[..|run| - 1];
      forall i | 0 <= i < |before| ensures Enabled(Run(limits, before[..i]), before[i].0, before[i].1) {
        assert before[..i] == run[..i];
      }
      ReachableStatesAreConsistent(limits, before);
      StepKeepsInv(Run(limits, before), run[|run| - 1].0, run[|run| - 1].1);
    }
  }

  // --------------------------------------------------------- handing control on

  lemma VacatedWaiters(s: State, c: nat, rk: Key, env: Env, k: Place, w: Key)
    requires rk in s.records && s.records[rk].state == Controllable
    ensures Waits(Vacated(s, c, rk, env), k, w) <==> Waits(s, k, w)
    ensures Reachable(Vacated(s, c, rk, env), k, w, env) <==> Reachable(s, k, w, env)
  {
  }

  lemma VacatedChoice(s: State, c: nat, rk: Key, env: Env, k: Place, w: Key)
    requires rk in s.records && s.records[rk].state == Controllable
    ensures Wins(Vacated(s, c, rk, env), k, w, env) <==> Wins(s, k, w, env)
    ensures Skipped(Vacated(s, c, rk, env), k, w, env) <==> Skipped(s, k, w, env)
  {
    var t := Vacated(s, c, rk, env);
    forall o ensures Waits(t, k, o) <==> Waits(s, k, o)
             ensures Reachable(t, k, o, env) <==> Reachable(s, k, o, env) {
      VacatedWaiters(s, c, rk, env, k, o);
    }
  }

  /** The choice as the owner's departure leaves it is the choice as it was before. */
  lemma VacatedChoices(s: State, c: nat, rk: Key, env: Env, k: Place)
    requires rk in s.records && s.records[rk].state == Controllable
    ensures var v := Vacated(s, c, rk, env);
      && (forall w :: Wins(v, k, w, env) <==> Wins(s, k, w, env))
      && (forall w :: Skipped(v, k, w, env) <==> Skipped(s, k, w, env))
      && (forall w :: Reachable(v, k, w, env) <==> Reachable(s, k, w, env))
  {
    var v := Vacated(s, c, rk, env);
    forall w ensures Wins(v, k, w, env) <==> Wins(s, k, w, env)
             ensures Skipped(v, k, w, env) <==> Skipped(s, k, w, env)
             ensures Reachable(v, k, w, env) <==> Reachable(s, k, w, env) {
      VacatedChoice(s, c, rk, env, k, w);
      VacatedWaiters(s, c, rk, env, k, w);
    }
  }

  predicate OwnerLeaves(s: State, c: nat, rk: Key) {
    c in s.connections && RecordOf(s, c) == Some(rk) && s.records[rk].state == Controllable
  }

  lemma LeavingHandsThePlaceOut(s: State, c: nat, rk: Key, env: Env)
    requires Inv(s) && OwnerLeaves(s, c, rk)
    ensures var k, v := PlaceOf(rk, s.records[rk]), Vacated(s, c, rk, env);
      Disconnected(s, c, env) == Promoted(v, k, env) && Sequenced(v) && k !in v.ownership
  {
    VacatedSettling(s, c, rk, env);
  }

  lemma PromotedChoice(v: State, k: Place, env: Env)
    requires Sequenced(v) && k !in v.ownership
    ensures var t := Promoted(v, k, env);
      && (k in t.ownership <==> exists w :: w in v.records && Reachable(v, k, w, env))
      && (forall w :: w in v.records && Wins(v, k, w, env) ==>
            k in t.ownership && t.ownership[k] == w.instanceId
            && t.records[w] == v.records[w].(state := Controllable))
  {
    if w :| w in v.records && Reachable(v, k, w, env) {
      var first := LowestReachable(v, k, env, w);
    }
    forall w | w in v.records && Wins(v, k, w, env) ensures w == Winner(v, k, env) && !Skipped(v, k, w, env) {
      UniqueWinner(v, k, env, w, Winner(v, k, env));
    }
  }

  /** When the owner of a place loses its connection, control passes to the waiter
      that registered first among those that can be told ... */
  lemma ControlPassesToFirstReachableWaiter(s: State, c: nat, rk: Key, env: Env, w: Key)
    requires Inv(s) && OwnerLeaves(s, c, rk)
    requires w in s.records && Wins(s, PlaceOf(rk, s.records[rk]), w, env)
    ensures var k, t := PlaceOf(rk, s.records[rk]), Disconnected(s, c, env);
      && k in t.ownership && t.ownership[k] == w.instanceId
      && t.records[w] == s.records[w].(state := Controllable)
  {
    LeavingHandsThePlaceOut(s, c, rk, env);
    WinnerTakesThePlace(s, c, rk, env, w);
  }

  lemma WinnerTakesThePlace(s: State, c: nat, rk: Key, env: Env, w: Key)
    requires rk in s.records && s.records[rk].state == Controllable
    requires w in s.records && Wins(s, PlaceOf(rk, s.records[rk]), w, env)
    requires var k, v := PlaceOf(rk, s.records[rk]), Vacated(s, c, rk, env); Sequenced(v) && k !in v.ownership
    ensures var k := PlaceOf(rk, s.records[rk]);
      var t := Promoted(Vacated(s, c, rk, env), k, env);
      && k in t.ownership && t.ownership[k] == w.instanceId
      && w in t.records && t.records[w] == s.records[w].(state := Controllable)
  {
    var k := PlaceOf(rk, s.records[rk]);
    VacatedChoice(s, c, rk, env, k, w);
    VacatedRecord(s, c, rk, env, w);
    PromotedChoice(Vacated(s, c, rk, env), k, env);
  }

  /** ... and the place stays without an owner exactly when no waiter can be told. */
  lemma PlaceIsTakenIfAnybodyIsReachable(s: State, c: nat, rk: Key, env: Env)
    requires Inv(s) && OwnerLeaves(s, c, rk)
    ensures var k, t := PlaceOf(rk, s.records[rk]), Disconnected(s, c, env);
      k in t.ownership <==> exists w :: w in s.records && Reachable(s, k, w, env)
  {
    var k, v := PlaceOf(rk, s.records[rk]), Vacated(s, c, rk, env);
    LeavingHandsThePlaceOut(s, c, rk, env);
    VacatedChoices(s, c, rk, env, k);
    PromotedChoice(v, k, env);
    assert forall w :: w in v.records <==> w in s.records;
  }

  lemma VacatedRecord(s: State, c: nat, rk: Key, env: Env, o: Key)
    requires rk in s.records && o in s.records
    ensures Vacated(s, c, rk, env).records[o] == if o == rk then Offlined(s.records[rk]) else s.records[o]
    ensures Vacated(s, c, rk, env).records.Keys == s.records.Keys
  {
  }

  /** Every waiter asked before the new owner ends offline, the old owner too, and no
      record but these and the new owner's changes. */
  lemma WaitersAskedInVainGoOffline(s: State, c: nat, rk: Key, env: Env, o: Key)
    requires Inv(s) && OwnerLeaves(s, c, rk) && o in s.records
    ensures var k, t := PlaceOf(rk, s.records[rk]), Disconnected(s, c, env);
      && t.records.Keys == s.records.Keys
      && (o == rk || Skipped(s, k, o, env) ==> t.records[o] == Offlined(s.records[o]))
      && (o != rk && !Wins(s, k, o, env) && !Skipped(s, k, o, env) ==> t.records[o] == s.records[o])
  {
    LeavingHandsThePlaceOut(s, c, rk, env);
    AskedInVain(s, c, rk, env, o);
  }

  lemma AskedInVain(s: State, c: nat, rk: Key, env: Env, o: Key)
    requires rk in s.records && s.records[rk].state == Controllable && o in s.records
    ensures var k := PlaceOf(rk, s.records[rk]);
      var t := Promoted(Vacated(s, c, rk, env), k, env);
      && t.records.Keys == s.records.Keys
      && (o == rk || Skipped(s, k, o, env) ==> t.records[o] == Offlined(s.records[o]))
      && (o != rk && !Wins(s, k, o, env) && !Skipped(s, k, o, env) ==> t.records[o] == s.records[o])
  {
    var k, v := PlaceOf(rk, s.records[rk]), Vacated(s, c, rk, env);
    VacatedChoice(s, c, rk, env, k, o);
    VacatedRecord(s, c, rk, env, o);
    PromotedRecordIs(v, k, env, o);
    assert !Waits(v, k, rk);
  }

  lemma PromotedRecordIs(v: State, k: Place, env: Env, o: Key)
    requires o in v.records
    ensures Promoted(v, k, env).records.Keys == v.records.Keys
    ensures Promoted(v, k, env).records[o] == PromotedRecord(v, k, o, env)
  {
  }

  /** The connections lost are the owner's and those of the waiters asked in vain,
      and what was in flight is lost exactly on them. */
  lemma OnlyAskedConnectionsAreLost(s: State, c: nat, rk: Key, env: Env)
    requires Inv(s) && OwnerLeaves(s, c, rk)
    ensures var gone, t := {c} + SkippedConnections(s, PlaceOf(rk, s.records[rk]), env), Disconnected(s, c, env);
      && t.connections == s.connections - gone
      && t.flights == Drop(s.flights, gone)
  {
    var k := PlaceOf(rk, s.records[rk]);
    LeavingHandsThePlaceOut(s, c, rk, env);
    SameLosses(s, c, rk, env, k);
    LossesAddUp(s, c, SkippedConnections(s, k, env), env.now);
  }

  lemma LossesAddUp(s: State, c: nat, lost: set<nat>, now: int)
    requires TimersExact(s.flights)
    ensures var t := Dropped(Dropped(s, {c}, now), lost, now);
      t.connections == s.connections - ({c} + lost) && t.flights == Drop(s.flights, {c} + lost)
  {
    DropTwice(s.flights, {c}, lost);
    WithoutTwice(s.connections, {c}, lost);
  }

  lemma SameLosses(s: State, c: nat, rk: Key, env: Env, k: Place)
    requires rk in s.records && s.records[rk].state == Controllable
    ensures SkippedConnections(Vacated(s, c, rk, env), k, env) == SkippedConnections(s, k, env)
  {
    VacatedChoices(s, c, rk, env, k);
  }

  // ------------------------------------------------------------------ shutdown

  lemma {:induction false} UidsBelowMembers(n: nat, chosen: set<nat>)
    ensures forall c :: c in UidsBelow(n, chosen) <==> c < n && c in chosen
  {
    if n > 0 {
      UidsBelowMembers(n - 1, chosen);
    }
  }

  /** `closeAll` leaves no connection, no owner, nothing in flight, no armed timeout
      and no tunnel; every record is offline. */
  lemma CloseAllEmptiesTheRegistry(s: State, env: Env)
    requires Inv(s)
    ensures var t := AllClosed(s, env);
      && t.connections == map[] && t.ownership == map[] && t.flights.open == map[] && t.flights.timers == map[]
      && t.tunnels == map[]
      && forall rk :: rk in t.records ==> t.records[rk].state == Offline
  {
    var t := AllClosed(s, env);
    UidsBelowMembers(s.nextUid, s.connections.Keys);
    DisconnectedAllKeepsInv(s, UidsBelow(s.nextUid, s.connections.Keys), env);
    assert t.connections.Keys == {};
    assert forall p :: p !in t.ownership;
    forall rk | rk in t.records ensures t.records[rk].state == Offline {
      assert t.records[rk].connection.None?;
    }
    assert forall x :: x !in t.flights.open;
    assert forall h :: h !in t.flights.timers;
    assert forall x :: x !in t.tunnels;
  }

  lemma DisconnectedKeepsIdentities(s: State, c: nat, env: Env)
    ensures forall d :: d in Disconnected(s, c, env).connections ==>
      d in s.connections && Disconnected(s, c, env).connections[d] == s.connections[d]
  {
  }

  lemma {:induction false} DisconnectedAllKeepsIdentities(s: State, cs: seq<nat>, env: Env)
    ensures forall d :: d in DisconnectedAll(s, cs, env).connections ==>
      d in s.connections && DisconnectedAll(s, cs, env).connections[d] == s.connections[d]
  {
    if cs != [] {
      DisconnectedAllKeepsIdentities(s, cs[..|cs| - 1], env);
      DisconnectedKeepsIdentities(DisconnectedAll(s, cs[..|cs| - 1], env), cs[|cs| - 1], env);
    }
  }

  /** After `revokeKey` nothing is connected, and nothing in flight, under the key. */
  lemma RevokedKeyHasNoConnection(s: State, keyId: string, env: Env)
    requires Inv(s)
    ensures var t := KeyRevoked(s, keyId, env);
      && (forall c :: c in t.connections ==> t.connections[c].keyId != keyId)
      && (forall x :: x in t.flights.open ==>
            var c := t.flights.open[x].connection; c in t.connections && t.connections[c].keyId != keyId)
  {
    var cs := UidsBelow(s.nextUid, ConnectionsOfKey(s, keyId));
    UidsBelowMembers(s.nextUid, ConnectionsOfKey(s, keyId));
    DisconnectedAllKeepsInv(s, cs, env);
    DisconnectedAllKeepsIdentities(s, cs, env);
  }
}
