/** The registry's events, and the proof that every run keeps its invariant. */
module RegistryEvents {
  import opened Prelude
  import opened CommandOutcomes
  import opened ControlFlights
  import opened RegistryState

  // ------------------------------------------------------------- registration

  function Added(s: State, userId: string, keyId: string): State {
    s.(connections := s.connections[s.nextUid := Conn(userId, keyId, None)], nextUid := s.nextUid + 1)
  }

  /** An offline record of the same place under another instance id is forgotten. */
  predicate Superseded(k: Place, instanceId: string, rk: Key, r: Record) {
    rk.instanceId != instanceId && r.state == Offline && PlaceOf(rk, r) == k
  }

  function Pruned(s: State, k: Place, instanceId: string): map<Key, Record> {
    map rk | rk in s.records && !Superseded(k, instanceId, rk, s.records[rk]) :: s.records[rk]
  }

  function AdmittedAs(s: State, k: Place, reg: Registration): Presence {
    if !Supported(reg) then Incompatible
    else if k !in s.ownership || s.ownership[k] == reg.instanceId then Controllable
    else Conflicting
  }

  /** The registry with the new record in place, before the plugin is told. */
  function Enrolled(s: State, c: nat, reg: Registration): State
    requires c in s.connections
  {
    var rk := Key(s.connections[c].userId, reg.instanceId);
    var k := Place(s.connections[c].userId, reg.path);
    var state := AdmittedAs(s, k, reg);
    var known := rk in s.records;
    var sequence := if known then s.records[rk].sequence else s.nextSequence;
    s.(connections := s.connections[c := s.connections[c].(instanceId := Some(reg.instanceId))],
       records := Pruned(s, k, reg.instanceId)[rk := Record(reg, sequence, state, Some(c), [], [])],
       ownership := if state == Controllable then s.ownership[k := reg.instanceId] else s.ownership,
       nextSequence := if known then s.nextSequence else s.nextSequence + 1)
  }

  function Replaced(s: State, c: nat, reg: Registration): Option<nat>
    requires c in s.connections
  {
    var rk := Key(s.connections[c].userId, reg.instanceId);
    if rk in s.records && s.records[rk].connection.Some? && s.records[rk].connection != Some(c)
    then s.records[rk].connection else None
  }

  /** `register`. When the instance was connected elsewhere the old connection goes
      first; `resumes` says whether the handler gets past closing its socket. */
  ghost function Registered(s: State, c: nat, reg: Registration, resumes: bool, env: Env): State
    requires c in s.connections
  {
    match Replaced(s, c, reg)
    case None => Sent(Enrolled(s, c, reg), c, env)
    case Some(other) =>
      var t := Disconnected(s, other, env);
      if resumes && c in t.connections then Sent(Enrolled(t, c, reg), c, env) else t
  }

  // ------------------------------------------------------- requests to plugins

  /** The open connection of a controllable record. */
  function Route(s: State, userId: string, instanceId: string, env: Env): Option<nat> {
    var rk := Key(userId, instanceId);
    if rk in s.records && s.records[rk].state == Controllable && s.records[rk].connection.Some?
       && s.records[rk].connection.value in env.open
    then s.records[rk].connection else None
  }

  function Asked(s: State, slot: Slot, c: nat, requestId: string): State {
    s.(flights := Issue(s.flights, slot, c, requestId))
  }

  ghost function CatalogCollected(s: State, userId: string, instanceId: string, requestId: string, env: Env): State {
    match Route(s, userId, instanceId, env)
    case None => s
    case Some(c) => Sent(Asked(s, CatalogSlot(requestId), c, requestId), c, env)
  }

  /** One snapshot request of a collection. */
  ghost function SnapshotAsked(s: State, userId: string, ask: (string, string), env: Env): State {
    match Route(s, userId, ask.0, env)
    case None => s
    case Some(c) => Sent(Asked(s, SnapshotSlot(c, ask.1), c, ask.1), c, env)
  }

  /** `collectPendingInteractions`: the targets are chosen first, then asked in turn. */
  ghost function SnapshotsAsked(s: State, userId: string, asks: seq<(string, string)>, env: Env): State
    decreases |asks|
  {
    if asks == [] then s else SnapshotsAsked(SnapshotAsked(s, userId, asks[0], env), userId, asks[1..], env)
  }

  predicate IsKind(kind: Kind, x: Slot) {
    match kind
    case Question => x.AnswerSlot?
    case Permission => x.DecideSlot?
  }

  /** A command of this kind for this request or under this id is already in flight. */
  ghost predicate Busy(f: Flights, kind: Kind, c: nat, requestId: string, commandId: string) {
    exists x :: x in f.open && IsKind(kind, x) && f.open[x].connection == c
      && (f.open[x].requestId == requestId || x.commandId == commandId)
  }

  datatype Gate = NotFound | Conflict | Go(connection: nat)

  function Projection(ps: seq<Pending>, requestId: string): (p: Option<Pending>)
    ensures p.Some? ==> p.value.requestId == requestId
  {
    if ps == [] then None
    else if ps[0].requestId == requestId then Some(ps[0])
    else Projection(ps[1..], requestId)
  }

  ghost function CommandGate(s: State, kind: Kind, userId: string, instanceId: string, requestId: string,
                             commandId: string, sessionId: string, env: Env): Gate {
    match Route(s, userId, instanceId, env)
    case None => NotFound
    case Some(c) =>
      var r := s.records[Key(userId, instanceId)];
      match Projection(r.projected, requestId)
      case None => if requestId in r.stale then Conflict else NotFound
      case Some(p) =>
        if p.kind != kind || p.sessionId != sessionId then Conflict
        else if Busy(s.flights, kind, c, requestId, commandId) then Conflict
        else Go(c)
  }

  function NewOutcome(s: State, kind: Kind, userId: string, instanceId: string, requestId: string,
                      commandId: string, env: Env): Outcome {
    Outcome(userId, commandId, requestId, instanceId, kind, Accepted, env.now, env.now + s.limits.ttl)
  }

  ghost function CommandIssued(s: State, kind: Kind, userId: string, instanceId: string, requestId: string,
                               commandId: string, c: nat, env: Env): State {
    var e := NewOutcome(s, kind, userId, instanceId, requestId, commandId, env);
    Asked(s, CommandSlot(kind, c, commandId), c, requestId).(
      outcomes := Recorded(s.outcomes, e, env.now, s.limits.capacity))
  }

  /** `answerQuestion` and `decidePermission`. */
  ghost function Commanded(s: State, kind: Kind, userId: string, instanceId: string, requestId: string,
                           commandId: string, sessionId: string, env: Env): State {
    match CommandGate(s, kind, userId, instanceId, requestId, commandId, sessionId, env)
    case Go(c) => Sent(CommandIssued(s, kind, userId, instanceId, requestId, commandId, c, env), c, env)
    case _ => s
  }

  /** `sendSessionPrompt`. */
  ghost function Prompted(s: State, userId: string, instanceId: string, commandId: string, env: Env): State {
    match Route(s, userId, instanceId, env)
    case None => s
    case Some(c) =>
      if PromptSlot(c, commandId) in s.flights.open then s
      else Sent(Asked(s, PromptSlot(c, commandId), c, commandId), c, env)
  }

  // ---------------------------------------------------------------- results

  predicate Registrant(s: State, c: nat, instanceId: string) {
    c in s.connections && s.connections[c].instanceId == Some(instanceId)
  }

  /** Remember an id that stopped being pending; the oldest make room. A known id
      keeps its old position. */
  function RememberStale(stale: seq<string>, requestId: string): seq<string> {
    if requestId in stale then stale else Newest(stale + [requestId], MAX_STALE_REQUEST_IDS)
  }

  function Without(ps: seq<Pending>, requestId: string): seq<Pending> {
    if ps == [] then []
    else (if ps[0].requestId == requestId then [] else [ps[0]]) + Without(ps[1..], requestId)
  }

  function Resolved(r: Record, requestId: string): Record {
    r.(projected := Without(r.projected, requestId), stale := RememberStale(r.stale, requestId))
  }

  function Put(ps: seq<Pending>, p: Pending): seq<Pending> {
    if ps == [] then [p]
    else if ps[0].requestId == p.requestId then [p] + ps[1..]
    else [ps[0]] + Put(ps[1..], p)
  }

  function IncomingUpTo(interactions: seq<Pending>, n: nat): seq<Pending>
    requires n <= |interactions|
  {
    if n == 0 then [] else Put(IncomingUpTo(interactions, n - 1), interactions[n - 1])
  }

  /** The request ids of one snapshot, the last mention of each deciding. */
  function Incoming(interactions: seq<Pending>): seq<Pending> {
    IncomingUpTo(interactions, |interactions|)
  }

  function Outdated(stale: seq<string>, before: seq<Pending>, incoming: seq<Pending>): seq<string>
    decreases |before|
  {
    if before == [] then stale
    else
      var rest := if Projection(incoming, before[0].requestId).None? then RememberStale(stale, before[0].requestId)
                  else stale;
      Outdated(rest, before[1..], incoming)
  }

  /** `applyProjection`. */
  function Projected(r: Record, interactions: seq<Pending>): Record {
    var incoming := Incoming(interactions);
    r.(projected := incoming, stale := Outdated(r.stale, r.projected, incoming))
  }

  function CatalogAnswered(s: State, c: nat, instanceId: string, requestId: string): State {
    var slot := CatalogSlot(requestId);
    if Registrant(s, c, instanceId) && slot in s.flights.open && s.flights.open[slot].connection == c
    then s.(flights := Close(s.flights, slot, ByResult(c))) else s
  }

  function SnapshotAnswered(s: State, c: nat, instanceId: string, requestId: string, interactions: seq<Pending>): State {
    var slot := SnapshotSlot(c, requestId);
    if !Registrant(s, c, instanceId) || slot !in s.flights.open then s
    else
      var t := s.(flights := Close(s.flights, slot, ByResult(c)));
      match RecordOf(s, c)
      case None => t
      case Some(rk) => t.(records := s.records[rk := Projected(s.records[rk], interactions)])
  }

  function CommandAnswered(s: State, kind: Kind, c: nat, instanceId: string, commandId: string, status: Status,
                           env: Env): State {
    var slot := CommandSlot(kind, c, commandId);
    if !Registrant(s, c, instanceId) || slot !in s.flights.open then s
    else
      var t := s.(flights := Close(s.flights, slot, ByResult(c)),
                  outcomes := Settled(s.outcomes, {commandId}, status, env.now));
      match RecordOf(s, c)
      case None => t
      case Some(rk) =>
        if status == Confirmed
        then t.(records := s.records[rk := Resolved(s.records[rk], s.flights.open[slot].requestId)])
        else t
  }

  function PromptAnswered(s: State, c: nat, instanceId: string, commandId: string): State {
    var slot := PromptSlot(c, commandId);
    if Registrant(s, c, instanceId) && slot in s.flights.open
    then s.(flights := Close(s.flights, slot, ByResult(c))) else s
  }

  /** An armed timeout fires. */
  function TimedOut(s: State, handle: nat, env: Env): State {
    if handle !in s.flights.timers || s.flights.timers[handle] !in s.flights.open then s
    else
      var slot := s.flights.timers[handle];
      var t := s.(flights := Close(s.flights, slot, ByTimer));
      if slot.AnswerSlot? || slot.DecideSlot?
      then t.(outcomes := Settled(s.outcomes, {slot.commandId}, ResultUnknown, env.now)) else t
  }

  // ------------------------------------------------------------ administration

  function Forgotten(s: State, userId: string, instanceId: string): State {
    var rk := Key(userId, instanceId);
    if rk in s.records && s.records[rk].state == Offline && s.records[rk].connection.None?
    then s.(records := s.records - {rk}) else s
  }

  function UidsBelow(n: nat, chosen: set<nat>): seq<nat> {
    if n == 0 then [] else UidsBelow(n - 1, chosen) + (if n - 1 in chosen then [n - 1] else [])
  }

  ghost function DisconnectedAll(s: State, cs: seq<nat>, env: Env): State {
    if cs == [] then s else Disconnected(DisconnectedAll(s, cs[..|cs| - 1], env), cs[|cs| - 1], env)
  }

  function ConnectionsOfKey(s: State, keyId: string): set<nat> {
    set c | c in s.connections && s.connections[c].keyId == keyId
  }

  ghost function KeyRevoked(s: State, keyId: string, env: Env): State {
    DisconnectedAll(s, UidsBelow(s.nextUid, ConnectionsOfKey(s, keyId)), env)
  }

  ghost function AllClosed(s: State, env: Env): State {
    DisconnectedAll(s, UidsBelow(s.nextUid, s.connections.Keys), env)
  }

  function TunnelOpened(s: State, userId: string, instanceId: string, tunnelId: string, env: Env): State {
    match Route(s, userId, instanceId, env)
    case None => s
    case Some(c) =>
      if s.records[Key(userId, instanceId)].registration.webUiAvailable
      then s.(tunnels := s.tunnels[tunnelId := c]) else s
  }

  ghost function TunnelClosed(s: State, tunnelId: string, env: Env): State {
    if tunnelId !in s.tunnels then s
    else
      var c := s.tunnels[tunnelId];
      var t := s.(tunnels := s.tunnels - {tunnelId});
      if c in env.open then Sent(t, c, env) else t
  }

  // ------------------------------------------------------------------- the runs

  datatype Event =
    | Add(userId: string, keyId: string)
    | Register(c: nat, registration: Registration, resumes: bool)
    | Disconnect(c: nat)
    | CollectSessions(userId: string, instanceId: string, requestId: string)
    | CollectPending(userId: string, asks: seq<(string, string)>)
    | Command(kind: Kind, userId: string, instanceId: string, requestId: string, commandId: string, sessionId: string)
    | Prompt(userId: string, instanceId: string, commandId: string)
    | CatalogResponse(c: nat, instanceId: string, requestId: string)
    | SnapshotResponse(c: nat, instanceId: string, requestId: string, interactions: seq<Pending>)
    | CommandResult(kind: Kind, c: nat, instanceId: string, commandId: string, status: Status)
    | PromptResult(c: nat, instanceId: string, commandId: string)
    | TimerFires(handle: nat)
    | ForgetOffline(userId: string, instanceId: string)
    | RevokeKey(keyId: string)
    | CloseAll
    | QueryOutcome
    | OpenTunnel(userId: string, instanceId: string, tunnelId: string)
    | CloseTunnel(tunnelId: string)

  ghost function Step(s: State, ev: Event, env: Env): State {
    match ev
    case Add(u, k) => Added(s, u, k)
    case Register(c, reg, resumes) => if c in s.connections then Registered(s, c, reg, resumes, env) else s
    case Disconnect(c) => Disconnected(s, c, env)
    case CollectSessions(u, i, q) => CatalogCollected(s, u, i, q, env)
    case CollectPending(u, asks) => SnapshotsAsked(s, u, asks, env)
    case Command(kind, u, i, q, m, x) => Commanded(s, kind, u, i, q, m, x, env)
    case Prompt(u, i, m) => Prompted(s, u, i, m, env)
    case CatalogResponse(c, i, q) => CatalogAnswered(s, c, i, q)
    case SnapshotResponse(c, i, q, xs) => SnapshotAnswered(s, c, i, q, xs)
    case CommandResult(kind, c, i, m, status) => CommandAnswered(s, kind, c, i, m, status, env)
    case PromptResult(c, i, m) => PromptAnswered(s, c, i, m)
    case TimerFires(h) => TimedOut(s, h, env)
    case ForgetOffline(u, i) => Forgotten(s, u, i)
    case RevokeKey(k) => KeyRevoked(s, k, env)
    case CloseAll => AllClosed(s, env)
    case QueryOutcome => s.(outcomes := Live(s.outcomes, env.now))
    case OpenTunnel(u, i, t) => TunnelOpened(s, u, i, t, env)
    case CloseTunnel(t) => TunnelClosed(s, t, env)
  }

  /** The targets of one collection: distinct controllable instances on open
      sockets, each with a request id never used before. */
  ghost predicate AsksTargets(s: State, userId: string, asks: seq<(string, string)>, env: Env) {
    && (forall i :: 0 <= i < |asks| ==> Route(s, userId, asks[i].0, env).Some?)
    && (forall i, j :: 0 <= i < j < |asks| ==> asks[i].0 != asks[j].0 && asks[i].1 != asks[j].1)
    && (forall i, x :: 0 <= i < |asks| && x in s.flights.open && x.SnapshotSlot? ==> x.requestId != asks[i].1)
  }

  /** What the event loop guarantees: a connection registers once, generated ids are
      fresh, and a plugin result is a terminal status. */
  ghost predicate Enabled(s: State, ev: Event, env: Env) {
    match ev
    case Register(c, reg, _) => c in s.connections && s.connections[c].instanceId.None?
    case CollectSessions(_, _, q) => CatalogSlot(q) !in s.flights.open
    case CollectPending(u, asks) => AsksTargets(s, u, asks, env)
    case CommandResult(_, _, _, _, status) => status != Accepted
    case OpenTunnel(_, _, t) => t !in s.tunnels
    case _ => true
  }

  ghost function Run(limits: Limits, run: seq<(Event, Env)>): State {
    if run == [] then Initial(limits)
    else Step(Run(limits, run[..|run| - 1]), run[|run| - 1].0, run[|run| - 1].1)
  }

  ghost predicate Feasible(limits: Limits, run: seq<(Event, Env)>) {
    forall i :: 0 <= i < |run| ==> Enabled(Run(limits, run[..i]), run[i].0, run[i].1)
  }
}
