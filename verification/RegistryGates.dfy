/** Which requests the registry knows of, over whole runs: only what snapshots brought;
    and what a command's result changes about them. */
module RegistryGates {
  import opened Prelude
  import opened CommandOutcomes
  import opened ControlFlights
  import opened RegistryState
  import opened RegistryEvents
  import opened RegistryTheorems
  import opened RegistryRanks

  // ------------------------------------------------------------- whom requests go to

  /** The instance owns a place of the user, and this is its connection. */
  ghost predicate HasControlOn(s: State, userId: string, instanceId: string, c: nat) {
    exists k :: k in s.ownership && k.userId == userId && s.ownership[k] == instanceId
      && Key(userId, instanceId) in s.records && s.records[Key(userId, instanceId)].connection == Some(c)
  }

  /** Requests go to the owner of a place, on its open socket: never to an instance that
      waits, speaks another protocol or is offline, and never past an owner. */
  lemma RequestsGoToOwnersExactly(s: State, userId: string, instanceId: string, env: Env, c: nat)
    requires Inv(s)
    ensures Route(s, userId, instanceId, env) == Some(c) <==> HasControlOn(s, userId, instanceId, c) && c in env.open
  {
    var rk := Key(userId, instanceId);
    assert OwnershipExact(s);
    if rk in s.records && s.records[rk].state == Controllable {
      assert PlaceOf(rk, s.records[rk]) in s.ownership;
    }
    if HasControlOn(s, userId, instanceId, c) {
      var k :| k in s.ownership && k.userId == userId && s.ownership[k] == instanceId
               && rk in s.records && s.records[rk].connection == Some(c);
      assert Owns(s, k, rk);
    }
  }

  // ------------------------------------------------------- where requests come from

  function MentionedIn(interactions: seq<Pending>): set<string> {
    set p | p in interactions :: p.requestId
  }

  /** The request ids that any snapshot response of the run has mentioned. */
  function Mentioned(run: seq<(Event, Env)>): set<string>
    decreases |run|
  {
    if run == [] then {}
    else Mentioned(run[..|run| - 1]) + News(run[|run| - 1].0)
  }

  function News(ev: Event): set<string> {
    match ev
    case SnapshotResponse(_, _, _, interactions) => MentionedIn(interactions)
    case _ => {}
  }

  predicate RecordKnowsOnly(r: Record, ids: set<string>) {
    (forall p :: p in r.projected ==> p.requestId in ids) && (forall id :: id in r.stale ==> id in ids)
  }

  predicate IsCommand(x: Slot) {
    x.AnswerSlot? || x.DecideSlot?
  }

  /** Pending requests, stale ones and those commanded about are all of these. */
  ghost predicate KnowsOnly(s: State, ids: set<string>) {
    && (forall rk :: rk in s.records ==> RecordKnowsOnly(s.records[rk], ids))
    && (forall x :: x in s.flights.open && IsCommand(x) ==> s.flights.open[x].requestId in ids)
  }

  /** Nothing is known afterwards that was not known before. */
  ghost predicate LearnsNothing(s: State, t: State) {
    && (forall rk :: rk in t.records ==>
          || (t.records[rk].projected == [] && t.records[rk].stale == [])
          || (rk in s.records && t.records[rk].projected == s.records[rk].projected
              && t.records[rk].stale == s.records[rk].stale))
    && (forall x :: x in t.flights.open && IsCommand(x) ==>
          x in s.flights.open && t.flights.open[x] == s.flights.open[x])
  }

  lemma LearnsNothingKnowsOnly(s: State, t: State, ids: set<string>)
    requires KnowsOnly(s, ids) && LearnsNothing(s, t)
    ensures KnowsOnly(t, ids)
  {
  }

  lemma LearnsNothingChains(s: State, t: State, u: State)
    requires LearnsNothing(s, t) && LearnsNothing(t, u)
    ensures LearnsNothing(s, u)
  {
  }

  lemma PromotedLearnsNothing(v: State, k: Place, env: Env)
    ensures LearnsNothing(v, Promoted(v, k, env))
  {
    var t := Promoted(v, k, env);
    forall rk | rk in t.records
      ensures rk in v.records && t.records[rk].projected == v.records[rk].projected
              && t.records[rk].stale == v.records[rk].stale
    {
      assert t.records[rk] == PromotedRecord(v, k, rk, env);
    }
  }

  lemma DisconnectedLearnsNothing(s: State, c: nat, env: Env)
    ensures LearnsNothing(s, Disconnected(s, c, env))
  {
    if c in s.connections && RecordOf(s, c).Some? {
      var rk := RecordOf(s, c).value;
      var k, v := PlaceOf(rk, s.records[rk]), Vacated(s, c, rk, env);
      assert LearnsNothing(s, v);
      PromotedLearnsNothing(v, k, env);
      LearnsNothingChains(s, v, Promoted(v, k, env));
    }
  }

  lemma {:induction false} DisconnectedAllLearnsNothing(s: State, cs: seq<nat>, env: Env)
    ensures LearnsNothing(s, DisconnectedAll(s, cs, env))
  {
    if cs != [] {
      var before := DisconnectedAll(s, cs[..|cs| - 1], env);
      DisconnectedAllLearnsNothing(s, cs[..|cs| - 1], env);
      DisconnectedLearnsNothing(before, cs[|cs| - 1], env);
      LearnsNothingChains(s, before, DisconnectedAll(s, cs, env));
    }
  }

  lemma AskLearnsNothing(s: State, slot: Slot, c: nat, requestId: string, env: Env)
    requires !IsCommand(slot)
    ensures LearnsNothing(s, Sent(Asked(s, slot, c, requestId), c, env))
  {
    var a := Asked(s, slot, c, requestId);
    assert LearnsNothing(s, a);
    DisconnectedLearnsNothing(a, c, env);
    LearnsNothingChains(s, a, Disconnected(a, c, env));
  }

  lemma {:induction false} CollectLearnsNothing(s: State, userId: string, asks: seq<(string, string)>, env: Env)
    ensures LearnsNothing(s, SnapshotsAsked(s, userId, asks, env))
    decreases |asks|
  {
    if asks != [] {
      var t := SnapshotAsked(s, userId, asks[0], env);
      if Route(s, userId, asks[0].0, env).Some? {
        var c := Route(s, userId, asks[0].0, env).value;
        AskLearnsNothing(s, SnapshotSlot(c, asks[0].1), c, asks[0].1, env);
      }
      CollectLearnsNothing(t, userId, asks[1..], env);
      LearnsNothingChains(s, t, SnapshotsAsked(s, userId, asks, env));
    }
  }

  lemma RegisteredLearnsNothing(s: State, c: nat, reg: Registration, resumes: bool, env: Env)
    requires c in s.connections
    ensures LearnsNothing(s, Registered(s, c, reg, resumes, env))
  {
    var t := if Replaced(s, c, reg).None? then s else Disconnected(s, Replaced(s, c, reg).value, env);
    if Replaced(s, c, reg).Some? {
      DisconnectedLearnsNothing(s, Replaced(s, c, reg).value, env);
    }
    if c in t.connections {
      var u := Enrolled(t, c, reg);
      EnrolledLearnsNothing(t, c, reg);
      DisconnectedLearnsNothing(u, c, env);
      LearnsNothingChains(t, u, Disconnected(u, c, env));
      LearnsNothingChains(s, t, u);
      LearnsNothingChains(s, t, Disconnected(u, c, env));
    }
  }

  lemma EnrolledLearnsNothing(s: State, c: nat, reg: Registration)
    requires c in s.connections
    ensures LearnsNothing(s, Enrolled(s, c, reg))
  {
  }

  lemma {:induction false} ProjectionIsMember(ps: seq<Pending>, requestId: string)
    ensures Projection(ps, requestId).Some? ==> Projection(ps, requestId).value in ps
  {
    if ps != [] && ps[0].requestId != requestId {
      ProjectionIsMember(ps[1..], requestId);
    }
  }

  lemma CommandKnowsOnly(s: State, kind: Kind, u: string, i: string, q: string, m: string, x: string, env: Env,
                         ids: set<string>)
    requires KnowsOnly(s, ids)
    ensures KnowsOnly(Commanded(s, kind, u, i, q, m, x, env), ids)
  {
    var gate := CommandGate(s, kind, u, i, q, m, x, env);
    if gate.Go? {
      var a := CommandIssued(s, kind, u, i, q, m, gate.connection, env);
      ProjectionIsMember(s.records[Key(u, i)].projected, q);
      assert RecordKnowsOnly(s.records[Key(u, i)], ids) && q in ids;
      assert KnowsOnly(a, ids);
      DisconnectedLearnsNothing(a, gate.connection, env);
      LearnsNothingKnowsOnly(a, Disconnected(a, gate.connection, env), ids);
    }
  }

  lemma RequestKnowsOnly(s: State, ev: Event, env: Env, ids: set<string>)
    requires KnowsOnly(s, ids) && IsRequest(ev)
    ensures KnowsOnly(Step(s, ev, env), ids)
  {
    match ev {
      case CollectSessions(u, i, q) =>
        if Route(s, u, i, env).Some? {
          AskLearnsNothing(s, CatalogSlot(q), Route(s, u, i, env).value, q, env);
        }
      case CollectPending(u, asks) => CollectLearnsNothing(s, u, asks, env);
      case Command(kind, u, i, q, m, x) => CommandKnowsOnly(s, kind, u, i, q, m, x, env, ids);
      case Prompt(u, i, m) =>
        if Route(s, u, i, env).Some? {
          var c := Route(s, u, i, env).value;
          AskLearnsNothing(s, PromptSlot(c, m), c, m, env);
        }
    }
  }

  lemma ConnectionsLearnNothing(s: State, ev: Event, env: Env)
    requires Enabled(s, ev, env) && IsOfConnections(ev)
    ensures LearnsNothing(s, Step(s, ev, env))
  {
    match ev {
      case Add(u, k) =>
      case Register(c, reg, resumes) => RegisteredLearnsNothing(s, c, reg, resumes, env);
      case Disconnect(c) => DisconnectedLearnsNothing(s, c, env);
      case RevokeKey(k) => DisconnectedAllLearnsNothing(s, UidsBelow(s.nextUid, ConnectionsOfKey(s, k)), env);
      case CloseAll => DisconnectedAllLearnsNothing(s, UidsBelow(s.nextUid, s.connections.Keys), env);
    }
  }

  lemma TimeoutLearnsNothing(s: State, handle: nat, env: Env)
    ensures LearnsNothing(s, TimedOut(s, handle, env))
  {
  }

  lemma TunnelClosedLearnsNothing(s: State, tunnelId: string, env: Env)
    ensures LearnsNothing(s, TunnelClosed(s, tunnelId, env))
  {
    if tunnelId in s.tunnels {
      var t := s.(tunnels := s.tunnels - {tunnelId});
      assert LearnsNothing(s, t);
      DisconnectedLearnsNothing(t, s.tunnels[tunnelId], env);
      LearnsNothingChains(s, t, Disconnected(t, s.tunnels[tunnelId], env));
    }
  }

  lemma OthersLearnNothing(s: State, ev: Event, env: Env)
    requires IsOther(ev)
    ensures LearnsNothing(s, Step(s, ev, env))
  {
    match ev {
      case TimerFires(h) => TimeoutLearnsNothing(s, h, env);
      case CloseTunnel(t) => TunnelClosedLearnsNothing(s, t, env);
      case _ =>
    }
  }

  // -------------------------------------------------------------------- what results bring

  lemma {:induction false} PutMembers(ps: seq<Pending>, p: Pending)
    ensures forall x :: x in Put(ps, p) ==> x in ps || x == p
  {
    if ps != [] && ps[0].requestId != p.requestId {
      PutMembers(ps[1..], p);
    }
  }

  lemma {:induction false} IncomingMembers(interactions: seq<Pending>, n: nat)
    requires n <= |interactions|
    ensures forall x :: x in IncomingUpTo(interactions, n) ==> x in interactions
  {
    if n > 0 {
      IncomingMembers(interactions, n - 1);
      PutMembers(IncomingUpTo(interactions, n - 1), interactions[n - 1]);
    }
  }

  lemma RememberedMembers(stale: seq<string>, id: string)
    ensures forall x :: x in RememberStale(stale, id) ==> x in stale || x == id
  {
  }

  lemma {:induction false} OutdatedMembers(stale: seq<string>, before: seq<Pending>, incoming: seq<Pending>)
    ensures forall x :: x in Outdated(stale, before, incoming) ==> x in stale || x in MentionedIn(before)
    decreases |before|
  {
    if before != [] {
      var rest := if Projection(incoming, before[0].requestId).None? then RememberStale(stale, before[0].requestId)
                  else stale;
      OutdatedMembers(rest, before[1..], incoming);
      assert before[0].requestId in MentionedIn(before);
      assert MentionedIn(before[1..]) <= MentionedIn(before);
      RememberedMembers(stale, before[0].requestId);
    }
  }

  lemma SnapshotKnowsOnly(r: Record, interactions: seq<Pending>, ids: set<string>)
    requires RecordKnowsOnly(r, ids)
    ensures RecordKnowsOnly(Projected(r, interactions), ids + MentionedIn(interactions))
  {
    IncomingMembers(interactions, |interactions|);
    OutdatedMembers(r.stale, r.projected, Incoming(interactions));
  }

  lemma {:induction false} WithoutMembers(ps: seq<Pending>, requestId: string)
    ensures forall x :: x in Without(ps, requestId) ==> x in ps
  {
    if ps != [] {
      WithoutMembers(ps[1..], requestId);
    }
  }

  lemma ResolutionKnowsOnly(r: Record, requestId: string, ids: set<string>)
    requires RecordKnowsOnly(r, ids) && requestId in ids
    ensures RecordKnowsOnly(Resolved(r, requestId), ids)
  {
    WithoutMembers(r.projected, requestId);
    RememberedMembers(r.stale, requestId);
  }

  lemma SnapshotAnswerKnowsOnly(s: State, c: nat, i: string, q: string, xs: seq<Pending>, ids: set<string>)
    requires KnowsOnly(s, ids)
    ensures KnowsOnly(SnapshotAnswered(s, c, i, q, xs), ids + MentionedIn(xs))
  {
    forall rk | rk in s.records ensures RecordKnowsOnly(Projected(s.records[rk], xs), ids + MentionedIn(xs)) {
      SnapshotKnowsOnly(s.records[rk], xs, ids);
    }
  }

  lemma CommandAnswerKnowsOnly(s: State, kind: Kind, c: nat, i: string, m: string, status: Status, env: Env,
                               ids: set<string>)
    requires KnowsOnly(s, ids)
    ensures KnowsOnly(CommandAnswered(s, kind, c, i, m, status, env), ids)
  {
    var slot := CommandSlot(kind, c, m);
    if slot in s.flights.open {
      forall rk | rk in s.records
        ensures RecordKnowsOnly(Resolved(s.records[rk], s.flights.open[slot].requestId), ids)
      {
        ResolutionKnowsOnly(s.records[rk], s.flights.open[slot].requestId, ids);
      }
    }
  }

  lemma ResultKnowsOnly(s: State, ev: Event, env: Env, ids: set<string>)
    requires KnowsOnly(s, ids) && ResultFrom(ev).Some?
    ensures KnowsOnly(Step(s, ev, env), ids + News(ev))
  {
    match ev {
      case SnapshotResponse(c, i, q, xs) => SnapshotAnswerKnowsOnly(s, c, i, q, xs, ids);
      case CommandResult(kind, c, i, m, status) =>
        CommandAnswerKnowsOnly(s, kind, c, i, m, status, env, ids);
      case CatalogResponse(c, i, q) =>
      case PromptResult(c, i, m) =>
    }
  }

  lemma StepKnowsOnly(s: State, ev: Event, env: Env, ids: set<string>)
    requires KnowsOnly(s, ids) && Enabled(s, ev, env)
    ensures KnowsOnly(Step(s, ev, env), ids + News(ev))
  {
    if ResultFrom(ev).Some? {
      ResultKnowsOnly(s, ev, env, ids);
    } else if IsRequest(ev) {
      RequestKnowsOnly(s, ev, env, ids);
    } else {
      if IsOfConnections(ev) {
        ConnectionsLearnNothing(s, ev, env);
      } else {
        OthersLearnNothing(s, ev, env);
      }
      LearnsNothingKnowsOnly(s, Step(s, ev, env), ids);
    }
  }

  lemma {:induction false} RunKnowsOnly(limits: Limits, run: seq<(Event, Env)>)
    requires Feasible(limits, run)
    ensures KnowsOnly(Run(limits, run), Mentioned(run))
    decreases |run|
  {
    if run != [] {
      var before := run[..|run| - 1];
      RunSplits(limits, run);
      RunKnowsOnly(limits, before);
      assert Enabled(Run(limits, run[..|run| - 1]), run[|run| - 1].0, run[|run| - 1].1);
      StepKnowsOnly(Run(limits, before), run[|run| - 1].0, run[|run| - 1].1, Mentioned(before));
    }
  }

  /** In every run, a command on a request that no snapshot ever mentioned is answered as
      not found, never as a conflict; so is one that finds no route to its plugin. */
  lemma UnmentionedRequestIsNotFound(limits: Limits, run: seq<(Event, Env)>, kind: Kind, userId: string,
                                     instanceId: string, requestId: string, commandId: string, sessionId: string,
                                     env: Env)
    requires Feasible(limits, run)
    requires requestId !in Mentioned(run) || Route(Run(limits, run), userId, instanceId, env).None?
    ensures CommandGate(Run(limits, run), kind, userId, instanceId, requestId, commandId, sessionId, env) == NotFound
  {
    RunKnowsOnly(limits, run);
    var s, rk := Run(limits, run), Key(userId, instanceId);
    if rk in s.records {
      assert RecordKnowsOnly(s.records[rk], Mentioned(run));
      ProjectionIsMember(s.records[rk].projected, requestId);
    }
  }

  // ------------------------------------------------- requests that are over conflict

  /** An id is remembered as long as it and all that comes after it fit the memory. */
  lemma {:induction false} OutdatedKeeps(stale: seq<string>, before: seq<Pending>, incoming: seq<Pending>, i: nat)
    requires i < |stale| <= MAX_STALE_REQUEST_IDS && |stale| - i + |before| <= MAX_STALE_REQUEST_IDS
    ensures stale[i] in Outdated(stale, before, incoming)
    decreases |before|
  {
    if before != [] {
      var first := before[0].requestId;
      var grown := stale + [first];
      if Projection(incoming, first).Some? || first in stale {
        OutdatedKeeps(stale, before[1..], incoming, i);
      } else if |grown| <= MAX_STALE_REQUEST_IDS {
        OutdatedKeeps(grown, before[1..], incoming, i);
      } else {
        assert Newest(grown, MAX_STALE_REQUEST_IDS) == grown[1..] && grown[1..][i - 1] == stale[i];
        OutdatedKeeps(grown[1..], before[1..], incoming, i - 1);
      }
    }
  }

  /** A request that is dropped is remembered. */
  lemma {:induction false} DroppedIsRemembered(stale: seq<string>, before: seq<Pending>, incoming: seq<Pending>,
                                               id: string)
    requires |stale| <= MAX_STALE_REQUEST_IDS && |before| <= MAX_STALE_REQUEST_IDS && id !in stale
    requires Projection(before, id).Some? && Projection(incoming, id).None?
    ensures id in Outdated(stale, before, incoming)
    decreases |before|
  {
    var first := before[0].requestId;
    var rest := if Projection(incoming, first).None? then RememberStale(stale, first) else stale;
    if first == id {
      assert rest[|rest| - 1] == id;
      OutdatedKeeps(rest, before[1..], incoming, |rest| - 1);
    } else {
      RememberedMembers(stale, first);
      DroppedIsRemembered(rest, before[1..], incoming, id);
    }
  }

  /** A pending request that a snapshot no longer mentions reads as a conflict right after
      it, if no more requests were pending than the memory holds; one that had been stale
      before keeps its old place there, and must not lose it to the others. */
  lemma DroppedRequestConflicts(s: State, c: nat, instanceId: string, snapshotId: string, interactions: seq<Pending>,
                                kind: Kind, requestId: string, commandId: string, sessionId: string, env: Env)
    requires Inv(s)
    requires Registrant(s, c, instanceId) && SnapshotSlot(c, snapshotId) in s.flights.open && RecordOf(s, c).Some?
    requires var r := s.records[RecordOf(s, c).value];
      && Projection(r.projected, requestId).Some? && requestId !in MentionedIn(interactions)
      && |r.projected| <= MAX_STALE_REQUEST_IDS
      && (requestId in r.stale ==> |r.stale| + |r.projected| <= MAX_STALE_REQUEST_IDS)
    requires var rk := RecordOf(s, c).value;
      Route(SnapshotAnswered(s, c, instanceId, snapshotId, interactions), rk.userId, rk.instanceId, env).Some?
    ensures var rk, t := RecordOf(s, c).value, SnapshotAnswered(s, c, instanceId, snapshotId, interactions);
      CommandGate(t, kind, rk.userId, rk.instanceId, requestId, commandId, sessionId, env) == Conflict
  {
    var rk := RecordOf(s, c).value;
    var r, incoming := s.records[rk], Incoming(interactions);
    assert StaleBounded(s);
    IncomingMembers(interactions, |interactions|);
    ProjectionIsMember(incoming, requestId);
    if requestId in r.stale {
      var i :| 0 <= i < |r.stale| && r.stale[i] == requestId;
      OutdatedKeeps(r.stale, r.projected, incoming, i);
    } else {
      DroppedIsRemembered(r.stale, r.projected, incoming, requestId);
    }
    assert SnapshotAnswered(s, c, instanceId, snapshotId, interactions).records[rk] == Projected(r, interactions);
  }

  // ------------------------------------------------------- what a result changes

  /** A result other than a confirmation leaves what is known of requests as it was. */
  lemma UnconfirmedResultChangesNoRequest(s: State, kind: Kind, c: nat, instanceId: string, commandId: string,
                                          status: Status, env: Env)
    requires status != Confirmed
    ensures Step(s, CommandResult(kind, c, instanceId, commandId, status), env).records == s.records
  {
  }

  lemma {:induction false} WithoutKeepsOthers(ps: seq<Pending>, requestId: string, other: string)
    requires other != requestId
    ensures Projection(Without(ps, requestId), other) == Projection(ps, other)
  {
    if ps != [] {
      WithoutKeepsOthers(ps[1..], requestId, other);
      if ps[0].requestId != requestId {
        assert Without(ps, requestId)[1..] == Without(ps[1..], requestId);
      } else {
        assert Without(ps, requestId) == Without(ps[1..], requestId);
      }
    }
  }

  /** A confirmation changes what is known of its own request only, in the record of its
      connection only: other requests stay pending as they were. */
  lemma ConfirmationChangesItsRequestOnly(s: State, kind: Kind, c: nat, instanceId: string, commandId: string,
                                          env: Env, rk: Key, other: string)
    requires Registrant(s, c, instanceId) && CommandSlot(kind, c, commandId) in s.flights.open && rk in s.records
    requires other != s.flights.open[CommandSlot(kind, c, commandId)].requestId
    ensures var t := Step(s, CommandResult(kind, c, instanceId, commandId, Confirmed), env);
      && t.records.Keys == s.records.Keys
      && (RecordOf(s, c) != Some(rk) ==> t.records[rk] == s.records[rk])
      && Projection(t.records[rk].projected, other) == Projection(s.records[rk].projected, other)
      && (other in t.records[rk].stale ==> other in s.records[rk].stale)
      && t.records[rk].state == s.records[rk].state && t.records[rk].connection == s.records[rk].connection
  {
    var requestId := s.flights.open[CommandSlot(kind, c, commandId)].requestId;
    WithoutKeepsOthers(s.records[rk].projected, requestId, other);
    RememberedMembers(s.records[rk].stale, requestId);
  }
}
