/** The outcome cache inside the registry: over every run of the registry, with its
    failing sends and promotions, the cache is still the tail of a log. */
module RegistryOutcomes {
  import opened Prelude
  import opened CommandOutcomes
  import opened ControlFlights
  import opened RegistryState
  import opened RegistryEvents
  import opened RegistryRuns
  import opened RegistryTheorems
  import opened RegistryHistory

  /** Nothing happened to the cache but that some commands were settled as unknown. */
  ghost predicate OnlySettled(es: seq<Outcome>, rs: seq<Outcome>, now: int) {
    exists ids :: rs == Settled(es, ids, ResultUnknown, now)
  }

  lemma NothingSettled(es: seq<Outcome>, now: int)
    ensures OnlySettled(es, es, now)
  {
    SettledElsewhere(es, {}, ResultUnknown, now);
  }

  lemma OnlySettledTwice(es: seq<Outcome>, rs: seq<Outcome>, qs: seq<Outcome>, now: int)
    requires OnlySettled(es, rs, now) && OnlySettled(rs, qs, now)
    ensures OnlySettled(es, qs, now)
  {
    var a :| rs == Settled(es, a, ResultUnknown, now);
    var b :| qs == Settled(rs, b, ResultUnknown, now);
    SettledTwice(es, a, b, ResultUnknown, now);
  }

  lemma DisconnectOnlySettles(s: State, c: nat, env: Env)
    requires Inv(s)
    ensures OnlySettled(s.outcomes, Disconnected(s, c, env).outcomes, env.now)
    ensures Disconnected(s, c, env).limits == s.limits
  {
    var gone := DisconnectedDrops(s, c, env);
  }

  lemma SendOnlySettles(s: State, c: nat, env: Env)
    requires Inv(s)
    ensures OnlySettled(s.outcomes, Sent(s, c, env).outcomes, env.now) && Sent(s, c, env).limits == s.limits
  {
    DisconnectOnlySettles(s, c, env);
    NothingSettled(s.outcomes, env.now);
  }

  lemma {:induction false} DisconnectAllOnlySettles(s: State, cs: seq<nat>, env: Env)
    requires Inv(s)
    ensures OnlySettled(s.outcomes, DisconnectedAll(s, cs, env).outcomes, env.now)
    ensures DisconnectedAll(s, cs, env).limits == s.limits
  {
    NothingSettled(s.outcomes, env.now);
    if cs != [] {
      var before := DisconnectedAll(s, cs[..|cs| - 1], env);
      DisconnectedAllKeepsInv(s, cs[..|cs| - 1], env);
      DisconnectAllOnlySettles(s, cs[..|cs| - 1], env);
      DisconnectOnlySettles(before, cs[|cs| - 1], env);
      OnlySettledTwice(s.outcomes, before.outcomes, DisconnectedAll(s, cs, env).outcomes, env.now);
    }
  }

  lemma {:induction false} CollectOnlySettles(s: State, userId: string, asks: seq<(string, string)>, env: Env)
    requires Inv(s) && AsksTargets(s, userId, asks, env)
    ensures OnlySettled(s.outcomes, SnapshotsAsked(s, userId, asks, env).outcomes, env.now)
    ensures SnapshotsAsked(s, userId, asks, env).limits == s.limits
    decreases |asks|
  {
    NothingSettled(s.outcomes, env.now);
    if asks != [] {
      var t := SnapshotAsked(s, userId, asks[0], env);
      AskOnlySettles(s, userId, asks, env);
      SnapshotAskedKeepsInv(s, userId, asks, env);
      SnapshotAskedKeepsTargets(s, userId, asks, env);
      CollectOnlySettles(t, userId, asks[1..], env);
      OnlySettledTwice(s.outcomes, t.outcomes, SnapshotsAsked(s, userId, asks, env).outcomes, env.now);
    }
  }

  lemma AskOnlySettles(s: State, userId: string, asks: seq<(string, string)>, env: Env)
    requires Inv(s) && AsksTargets(s, userId, asks, env) && asks != []
    ensures var t := SnapshotAsked(s, userId, asks[0], env);
      OnlySettled(s.outcomes, t.outcomes, env.now) && t.limits == s.limits
  {
    var c := Route(s, userId, asks[0].0, env).value;
    AskedKeepsInv(s, SnapshotSlot(c, asks[0].1), c, asks[0].1);
    SendOnlySettles(Asked(s, SnapshotSlot(c, asks[0].1), c, asks[0].1), c, env);
  }

  lemma EnrolOnlySettles(s: State, c: nat, reg: Registration, env: Env)
    requires Inv(s) && ReadyToEnrol(s, c, reg)
    ensures var t := Sent(Enrolled(s, c, reg), c, env);
      OnlySettled(s.outcomes, t.outcomes, env.now) && t.limits == s.limits
  {
    EnrolledKeepsInv(s, c, reg);
    SendOnlySettles(Enrolled(s, c, reg), c, env);
  }

  lemma RegisterOnlySettles(s: State, c: nat, reg: Registration, resumes: bool, env: Env)
    requires Inv(s) && c in s.connections && s.connections[c].instanceId.None?
    ensures var t := Registered(s, c, reg, resumes, env);
      OnlySettled(s.outcomes, t.outcomes, env.now) && t.limits == s.limits
  {
    match Replaced(s, c, reg)
    case None => EnrolOnlySettles(s, c, reg, env);
    case Some(other) =>
      var t := Disconnected(s, other, env);
      ReplacementExtends(s, c, reg, other, env);
      DisconnectOnlySettles(s, other, env);
      if resumes {
        EnrolOnlySettles(t, c, reg, env);
        OnlySettledTwice(s.outcomes, t.outcomes, Sent(Enrolled(t, c, reg), c, env).outcomes, env.now);
      }
  }

  lemma RequestSentOnlySettles(s: State, slot: Slot, c: nat, requestId: string, env: Env)
    requires Inv(s) && c in s.connections && slot !in s.flights.open
    requires slot.CatalogSlot? || (slot.PromptSlot? && slot.uid == c)
    ensures var t := Sent(Asked(s, slot, c, requestId), c, env);
      OnlySettled(s.outcomes, t.outcomes, env.now) && t.limits == s.limits
  {
    AskedKeepsInv(s, slot, c, requestId);
    SendOnlySettles(Asked(s, slot, c, requestId), c, env);
  }

  lemma CatalogOnlySettles(s: State, userId: string, instanceId: string, requestId: string, env: Env)
    requires Inv(s) && CatalogSlot(requestId) !in s.flights.open
    ensures var t := CatalogCollected(s, userId, instanceId, requestId, env);
      OnlySettled(s.outcomes, t.outcomes, env.now) && t.limits == s.limits
  {
    NothingSettled(s.outcomes, env.now);
    if Route(s, userId, instanceId, env).Some? {
      RequestSentOnlySettles(s, CatalogSlot(requestId), Route(s, userId, instanceId, env).value, requestId, env);
    }
  }

  lemma PromptOnlySettles(s: State, userId: string, instanceId: string, commandId: string, env: Env)
    requires Inv(s)
    ensures var t := Prompted(s, userId, instanceId, commandId, env);
      OnlySettled(s.outcomes, t.outcomes, env.now) && t.limits == s.limits
  {
    NothingSettled(s.outcomes, env.now);
    if Route(s, userId, instanceId, env).Some? {
      var c := Route(s, userId, instanceId, env).value;
      if PromptSlot(c, commandId) !in s.flights.open {
        RequestSentOnlySettles(s, PromptSlot(c, commandId), c, commandId, env);
      }
    }
  }

  lemma CloseTunnelOnlySettles(s: State, tunnelId: string, env: Env)
    requires Inv(s)
    ensures var t := TunnelClosed(s, tunnelId, env);
      OnlySettled(s.outcomes, t.outcomes, env.now) && t.limits == s.limits
  {
    NothingSettled(s.outcomes, env.now);
    if tunnelId in s.tunnels {
      var t := s.(tunnels := s.tunnels - {tunnelId});
      DroppingATunnelKeepsInv(s, tunnelId);
      SendOnlySettles(t, s.tunnels[tunnelId], env);
    }
  }

  /** The events that neither record a command, nor bring a result, nor look one up. */
  predicate Sidelong(ev: Event) {
    !ev.Command? && !ev.CommandResult? && !ev.QueryOutcome?
  }

  lemma RequestOnlySettles(s: State, ev: Event, env: Env)
    requires Inv(s) && Enabled(s, ev, env) && Sidelong(ev) && IsRequest(ev)
    ensures OnlySettled(s.outcomes, Step(s, ev, env).outcomes, env.now) && Step(s, ev, env).limits == s.limits
  {
    match ev {
      case CollectSessions(u, i, q) => CatalogOnlySettles(s, u, i, q, env);
      case CollectPending(u, asks) => CollectOnlySettles(s, u, asks, env);
      case Prompt(u, i, m) => PromptOnlySettles(s, u, i, m, env);
    }
  }

  lemma ConnectionsOnlySettle(s: State, ev: Event, env: Env)
    requires Inv(s) && Enabled(s, ev, env) && IsOfConnections(ev)
    ensures OnlySettled(s.outcomes, Step(s, ev, env).outcomes, env.now) && Step(s, ev, env).limits == s.limits
  {
    match ev {
      case Add(u, k) => NothingSettled(s.outcomes, env.now);
      case Register(c, reg, resumes) => RegisterOnlySettles(s, c, reg, resumes, env);
      case Disconnect(c) => DisconnectOnlySettles(s, c, env);
      case RevokeKey(k) => DisconnectAllOnlySettles(s, UidsBelow(s.nextUid, ConnectionsOfKey(s, k)), env);
      case CloseAll => DisconnectAllOnlySettles(s, UidsBelow(s.nextUid, s.connections.Keys), env);
    }
  }

  lemma TimeoutOnlySettles(s: State, handle: nat, env: Env)
    ensures var t := TimedOut(s, handle, env);
      OnlySettled(s.outcomes, t.outcomes, env.now) && t.limits == s.limits
  {
    NothingSettled(s.outcomes, env.now);
  }

  lemma ResultSettlesNothing(s: State, ev: Event, env: Env)
    requires ResultFrom(ev).Some? && !ev.CommandResult?
    ensures OnlySettled(s.outcomes, Step(s, ev, env).outcomes, env.now) && Step(s, ev, env).limits == s.limits
  {
    NothingSettled(s.outcomes, env.now);
  }

  lemma OtherOnlySettles(s: State, ev: Event, env: Env)
    requires Inv(s) && IsOther(ev) && Sidelong(ev)
    ensures OnlySettled(s.outcomes, Step(s, ev, env).outcomes, env.now) && Step(s, ev, env).limits == s.limits
  {
    match ev {
      case CloseTunnel(t) => CloseTunnelOnlySettles(s, t, env);
      case TimerFires(h) => TimeoutOnlySettles(s, h, env);
      case _ => NothingSettled(s.outcomes, env.now);
    }
  }

  lemma SidelongEventOnlySettles(s: State, ev: Event, env: Env)
    requires Inv(s) && Enabled(s, ev, env) && Sidelong(ev)
    ensures OnlySettled(s.outcomes, Step(s, ev, env).outcomes, env.now) && Step(s, ev, env).limits == s.limits
  {
    if ResultFrom(ev).Some? {
      ResultSettlesNothing(s, ev, env);
    } else if IsRequest(ev) {
      RequestOnlySettles(s, ev, env);
    } else if IsOfConnections(ev) {
      ConnectionsOnlySettle(s, ev, env);
    } else {
      OtherOnlySettles(s, ev, env);
    }
  }

  // ------------------------------------------------------------ the log of commands

  /** What a command adds to the log: itself, if it goes through and no live outcome
      has its id. */
  ghost function Logged(s: State, ev: Event, env: Env): seq<Outcome> {
    match ev
    case Command(kind, u, i, q, m, x) =>
      if CommandGate(s, kind, u, i, q, m, x, env).Go? && !Has(Live(s.outcomes, env.now), m)
      then [Origin(NewOutcome(s, kind, u, i, q, m, env))] else []
    case _ => []
  }

  ghost function CommandLog(limits: Limits, run: seq<(Event, Env)>): seq<Outcome>
    decreases |run|
  {
    if run == [] then []
    else
      var before, last := run[..|run| - 1], run[|run| - 1];
      CommandLog(limits, before) + Logged(Run(limits, before), last.0, last.1)
  }

  ghost predicate Clocked(run: seq<(Event, Env)>) {
    && (forall i :: 0 <= i < |run| ==> 0 <= run[i].1.now)
    && (forall i, j :: 0 <= i < j < |run| ==> run[i].1.now <= run[j].1.now)
  }

  function ClockOf(run: seq<(Event, Env)>): int {
    if run == [] then 0 else run[|run| - 1].1.now
  }

  ghost predicate OutcomesTrack(s: State, log: seq<Outcome>, clock: int) {
    Tracks(Traced(s.outcomes, log, clock), s.limits.ttl, s.limits.capacity)
  }

  lemma SettlingTracks(s: State, t: State, log: seq<Outcome>, clock: int, now: int)
    requires OutcomesTrack(s, log, clock) && clock <= now && t.limits == s.limits
    requires OnlySettled(s.outcomes, t.outcomes, now)
    ensures OutcomesTrack(t, log, now)
  {
    var ids :| t.outcomes == Settled(s.outcomes, ids, ResultUnknown, now);
    StepTracks(Traced(s.outcomes, log, clock), SettleCommands(ids, ResultUnknown), now,
               s.limits.ttl, s.limits.capacity);
  }

  /** A command result settles the outcome of its command, or is not from its plugin. */
  predicate Answers(s: State, t: State, commandId: string, status: Status, now: int) {
    && t.limits == s.limits
    && (t.outcomes == s.outcomes || t.outcomes == Settled(s.outcomes, {commandId}, status, now))
  }

  lemma ResultAnswers(s: State, ev: Event, env: Env)
    requires ev.CommandResult?
    ensures Answers(s, Step(s, ev, env), ev.commandId, ev.status, env.now)
  {
  }

  lemma AnswerTracks(s: State, t: State, commandId: string, status: Status, log: seq<Outcome>, clock: int, now: int)
    requires OutcomesTrack(s, log, clock) && clock <= now && Answers(s, t, commandId, status, now)
    ensures OutcomesTrack(t, log, now)
  {
    if t.outcomes == s.outcomes {
      RefusalTracks(s, log, clock, now);
    } else {
      StepTracks(Traced(s.outcomes, log, clock), SettleCommands({commandId}, status), now,
                 s.limits.ttl, s.limits.capacity);
    }
  }

  /** Recording the command, and then sending it. */
  lemma IssueTracks(s: State, kind: Kind, userId: string, instanceId: string, requestId: string, commandId: string,
                    c: nat, env: Env, log: seq<Outcome>, clock: int)
    requires OutcomesTrack(s, log, clock) && clock <= env.now
    ensures var e := NewOutcome(s, kind, userId, instanceId, requestId, commandId, env);
      var t := CommandIssued(s, kind, userId, instanceId, requestId, commandId, c, env);
      && t.limits == s.limits
      && OutcomesTrack(t, if Has(Live(s.outcomes, env.now), commandId) then log else log + [Origin(e)], env.now)
  {
    var e := NewOutcome(s, kind, userId, instanceId, requestId, commandId, env);
    StepTracks(Traced(s.outcomes, log, clock), RecordCommand(e), env.now, s.limits.ttl, s.limits.capacity);
  }

  lemma SentTracks(t: State, c: nat, env: Env, log: seq<Outcome>)
    requires Inv(t) && OutcomesTrack(t, log, env.now)
    ensures OutcomesTrack(Sent(t, c, env), log, env.now) && Sent(t, c, env).limits == t.limits
  {
    SendOnlySettles(t, c, env);
    SettlingTracks(t, Sent(t, c, env), log, env.now, env.now);
  }

  lemma RefusalTracks(s: State, log: seq<Outcome>, clock: int, now: int)
    requires OutcomesTrack(s, log, clock) && clock <= now
    ensures OutcomesTrack(s, log, now)
  {
    NothingSettled(s.outcomes, now);
    SettlingTracks(s, s, log, clock, now);
  }

  lemma GoTracks(s: State, kind: Kind, u: string, i: string, q: string, m: string, c: nat, env: Env,
                 log: seq<Outcome>, clock: int)
    requires Inv(s) && OutcomesTrack(s, log, clock) && clock <= env.now
    requires c in s.connections && s.connections[c].userId == u && s.connections[c].instanceId == Some(i)
    requires !Busy(s.flights, kind, c, q, m)
    ensures var e, t := NewOutcome(s, kind, u, i, q, m, env), Sent(CommandIssued(s, kind, u, i, q, m, c, env), c, env);
      && OutcomesTrack(t, if Has(Live(s.outcomes, env.now), m) then log else log + [Origin(e)], env.now)
      && t.limits == s.limits
  {
    var e := NewOutcome(s, kind, u, i, q, m, env);
    IssueTracks(s, kind, u, i, q, m, c, env, log, clock);
    CommandIssuedKeepsInv(s, kind, u, i, q, m, c, env);
    SentTracks(CommandIssued(s, kind, u, i, q, m, c, env), c, env,
               if Has(Live(s.outcomes, env.now), m) then log else log + [Origin(e)]);
  }

  lemma CommandTracks(s: State, kind: Kind, u: string, i: string, q: string, m: string, x: string, env: Env,
                      log: seq<Outcome>, clock: int)
    requires Inv(s) && OutcomesTrack(s, log, clock) && clock <= env.now
    ensures var t, added := Commanded(s, kind, u, i, q, m, x, env), Logged(s, Command(kind, u, i, q, m, x), env);
      OutcomesTrack(t, log + added, env.now) && t.limits == s.limits
  {
    var gate := CommandGate(s, kind, u, i, q, m, x, env);
    var added := Logged(s, Command(kind, u, i, q, m, x), env);
    assert added == [] ==> log + added == log;
    if gate.Go? {
      GateLetsThrough(s, kind, u, i, q, m, x, env);
      GoTracks(s, kind, u, i, q, m, gate.connection, env, log, clock);
    } else {
      RefusalTracks(s, log, clock, env.now);
    }
  }

  lemma EventTracks(s: State, ev: Event, env: Env, log: seq<Outcome>, clock: int)
    requires Inv(s) && Enabled(s, ev, env) && OutcomesTrack(s, log, clock) && clock <= env.now
    ensures OutcomesTrack(Step(s, ev, env), log + Logged(s, ev, env), env.now)
    ensures Step(s, ev, env).limits == s.limits
  {
    if ev.Command? {
      CommandTracks(s, ev.kind, ev.userId, ev.instanceId, ev.requestId, ev.commandId, ev.sessionId, env, log, clock);
    } else {
      assert log + Logged(s, ev, env) == log;
      if ev.CommandResult? {
        ResultAnswers(s, ev, env);
        AnswerTracks(s, Step(s, ev, env), ev.commandId, ev.status, log, clock, env.now);
      } else if ev.QueryOutcome? {
        StepTracks(Traced(s.outcomes, log, clock), QueryCommand, env.now, s.limits.ttl, s.limits.capacity);
      } else {
        SidelongEventOnlySettles(s, ev, env);
        SettlingTracks(s, Step(s, ev, env), log, clock, env.now);
      }
    }
  }

  /** In every run of the registry with a clock that does not go back, the unexpired
      outcomes are, but for their status, the unexpired part of the last `capacity`
      commands of the run's log. */
  lemma {:induction false} RegistryOutcomesAreTheLogsTail(limits: Limits, run: seq<(Event, Env)>)
    requires Feasible(limits, run) && Clocked(run)
    ensures OutcomesTrack(Run(limits, run), CommandLog(limits, run), ClockOf(run))
    ensures Run(limits, run).limits == limits
    decreases |run|
  {
    if run != [] {
      var before, last := run[..|run| - 1], run[|run| - 1];
      FeasiblePrefix(limits, run);
      RegistryOutcomesAreTheLogsTail(limits, before);
      ReachableStatesAreConsistent(limits, before);
      EventTracks(Run(limits, before), last.0, last.1, CommandLog(limits, before), ClockOf(before));
    }
  }

  lemma FeasiblePrefix(limits: Limits, run: seq<(Event, Env)>)
    requires Feasible(limits, run) && run != []
    ensures Feasible(limits, run[..|run| - 1])
    ensures Enabled(Run(limits, run[..|run| - 1]), run[|run| - 1].0, run[|run| - 1].1)
  {
    var before := run[..|run| - 1];
    forall i | 0 <= i < |before| ensures Enabled(Run(limits, before[..i]), before[i].0, before[i].1) {
      assert before[..i] == run[..i];
    }
  }

  /** So a command that went through and has not expired is found exactly while fewer than
      `capacity` commands have gone through after it. */
  lemma OwnCommandIsMissedOnlyWhenCrowdedOut(limits: Limits, run: seq<(Event, Env)>, i: nat, now: int)
    requires Feasible(limits, run) && Clocked(run) && ClockOf(run) <= now
    requires var log := CommandLog(limits, run);
      && i < |log| && !Expired(log[i], now)
      && forall j :: i < j < |log| ==> log[j].commandId != log[i].commandId
    ensures var s, log := Run(limits, run), CommandLog(limits, run);
      (exists e :: e in Live(s.outcomes, now) && e.commandId == log[i].commandId) <==> |log| - 1 - i < limits.capacity
  {
    RegistryOutcomesAreTheLogsTail(limits, run);
    LiveCommandIsMissedOnlyWhenCrowdedOut(Traced(Run(limits, run).outcomes, CommandLog(limits, run), ClockOf(run)), i,
                                          limits.ttl, limits.capacity, now);
  }
}
