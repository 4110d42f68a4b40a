/** What becomes of a request to a plugin, sent or not, and what the outcome of a command
    says about it. */
module RegistryCommands {
  import opened Prelude
  import opened CommandOutcomes
  import opened ControlFlights
  import opened RegistryState
  import opened RegistryEvents
  import opened RegistryRuns
  import opened RegistryTheorems
  import opened RegistryHistory
  import opened RegistryOutcomes

  // ------------------------------------------------------------- sent, or lost

  /** The registry has sent the request and waits for its result under a new timer, and
      nothing else has changed but, for a command, the outcomes. */
  predicate WaitsFor(s: State, t: State, slot: Slot, c: nat, requestId: string) {
    && t.flights.open == s.flights.open[slot := Flight(c, requestId, s.flights.nextTimer)]
    && t.flights.timers == s.flights.timers[s.flights.nextTimer := slot]
    && t.flights.settled == s.flights.settled
    && t.records == s.records && t.ownership == s.ownership && t.connections == s.connections && t.tunnels == s.tunnels
  }

  /** The connection is gone, and with it the request and all others on it. */
  ghost predicate LostWith(s: State, t: State, c: nat, requestId: string) {
    && c !in t.connections
    && (forall x :: x in t.flights.open ==> t.flights.open[x].connection != c)
    && s.flights.nextTimer in t.flights.settled
    && t.flights.settled[s.flights.nextTimer] == Settlement(Flight(c, requestId, s.flights.nextTimer), ByDisconnect)
  }

  /** The request goes out and is waited for, or costs the connection. */
  ghost predicate OutOrLost(s: State, t: State, slot: Slot, c: nat, requestId: string, env: Env) {
    if env.Delivers(c) then WaitsFor(s, t, slot, c, requestId) else LostWith(s, t, c, requestId)
  }

  /** A disconnect drops the connection and others, and settles their commands. */
  lemma LosingDrops(a: State, c: nat, env: Env) returns (gone: set<nat>)
    requires Inv(a) && c in a.connections
    ensures var t := Disconnected(a, c, env);
      && c in gone && c !in t.connections && t.flights == Drop(a.flights, gone)
      && t.outcomes == Settled(a.outcomes, CommandsOf(a.flights, gone), ResultUnknown, env.now)
  {
    gone := DisconnectedDrops(a, c, env);
    DisconnectedKeepsInv(a, c, env);
    assert Disconnected(a, c, env).connections == a.connections - gone;
  }

  lemma UnsentIsLost(s: State, a: State, slot: Slot, c: nat, requestId: string, env: Env)
    requires Inv(a) && !env.Delivers(c) && WaitsFor(s, a, slot, c, requestId) && c in s.connections
    ensures LostWith(s, Sent(a, c, env), c, requestId)
  {
    var gone := LosingDrops(a, c, env);
    assert HeldBy(a.flights, s.flights.nextTimer, gone);
    assert s.flights.nextTimer in Abandoned(a.flights, gone);
  }

  lemma RequestGoesOutOrIsLost(s: State, slot: Slot, c: nat, requestId: string, env: Env)
    requires Inv(s) && c in s.connections && slot !in s.flights.open
    requires slot.CatalogSlot? || (slot.PromptSlot? && slot.uid == c)
    ensures var t := Sent(Asked(s, slot, c, requestId), c, env);
      OutOrLost(s, t, slot, c, requestId, env)
  {
    AskedKeepsInv(s, slot, c, requestId);
    if !env.Delivers(c) {
      UnsentIsLost(s, Asked(s, slot, c, requestId), slot, c, requestId, env);
    }
  }

  lemma PromptOnRoute(s: State, userId: string, instanceId: string, commandId: string, c: nat, env: Env)
    requires Inv(s) && Route(s, userId, instanceId, env) == Some(c) && PromptSlot(c, commandId) !in s.flights.open
    ensures OutOrLost(s, Prompted(s, userId, instanceId, commandId, env), PromptSlot(c, commandId), c, commandId, env)
  {
    RouteLeadsHome(s, userId, instanceId, env);
    RequestGoesOutOrIsLost(s, PromptSlot(c, commandId), c, commandId, env);
    assert Prompted(s, userId, instanceId, commandId, env)
        == Sent(Asked(s, PromptSlot(c, commandId), c, commandId), c, env);
  }

  /** A prompt that finds its route and is not in flight goes out and is waited for, or
      costs the connection; any other changes nothing. */
  lemma PromptGoesOutOrIsLost(s: State, userId: string, instanceId: string, commandId: string, env: Env)
    requires Inv(s)
    ensures var t, route := Prompted(s, userId, instanceId, commandId, env), Route(s, userId, instanceId, env);
      if route.None? || PromptSlot(route.value, commandId) in s.flights.open then t == s
      else OutOrLost(s, t, PromptSlot(route.value, commandId), route.value, commandId, env)
  {
    var route := Route(s, userId, instanceId, env);
    if route.Some? && PromptSlot(route.value, commandId) !in s.flights.open {
      PromptOnRoute(s, userId, instanceId, commandId, route.value, env);
    }
  }

  /** So does a request for a catalog. */
  lemma CatalogRequestGoesOutOrIsLost(s: State, userId: string, instanceId: string, requestId: string, env: Env)
    requires Inv(s) && Enabled(s, CollectSessions(userId, instanceId, requestId), env)
    ensures var t := Step(s, CollectSessions(userId, instanceId, requestId), env);
      var route := Route(s, userId, instanceId, env);
      if route.None? then t == s else OutOrLost(s, t, CatalogSlot(requestId), route.value, requestId, env)
  {
    var route := Route(s, userId, instanceId, env);
    if route.Some? {
      RouteLeadsHome(s, userId, instanceId, env);
      RequestGoesOutOrIsLost(s, CatalogSlot(requestId), route.value, requestId, env);
    }
  }

  lemma IssuedWaits(s: State, kind: Kind, userId: string, instanceId: string, requestId: string, commandId: string,
                    c: nat, env: Env)
    ensures WaitsFor(s, CommandIssued(s, kind, userId, instanceId, requestId, commandId, c, env),
                     CommandSlot(kind, c, commandId), c, requestId)
  {
  }

  /** So does a command that passes the gate; any other changes nothing. */
  lemma CommandGoesOutOrIsLost(s: State, kind: Kind, userId: string, instanceId: string, requestId: string,
                               commandId: string, sessionId: string, env: Env)
    requires Inv(s)
    ensures var t := Commanded(s, kind, userId, instanceId, requestId, commandId, sessionId, env);
      var gate := CommandGate(s, kind, userId, instanceId, requestId, commandId, sessionId, env);
      if !gate.Go? then t == s
      else OutOrLost(s, t, CommandSlot(kind, gate.connection, commandId), gate.connection, requestId, env)
  {
    var gate := CommandGate(s, kind, userId, instanceId, requestId, commandId, sessionId, env);
    if gate.Go? {
      var c := gate.connection;
      GateLetsThrough(s, kind, userId, instanceId, requestId, commandId, sessionId, env);
      assert Commanded(s, kind, userId, instanceId, requestId, commandId, sessionId, env)
        == Sent(CommandIssued(s, kind, userId, instanceId, requestId, commandId, c, env), c, env);
      IssueGoesOutOrIsLost(s, kind, userId, instanceId, requestId, commandId, c, env);
    }
  }

  lemma IssueGoesOutOrIsLost(s: State, kind: Kind, userId: string, instanceId: string, requestId: string,
                             commandId: string, c: nat, env: Env)
    requires Inv(s) && c in s.connections && !Busy(s.flights, kind, c, requestId, commandId)
    requires s.connections[c].userId == userId && s.connections[c].instanceId == Some(instanceId)
    ensures var t := Sent(CommandIssued(s, kind, userId, instanceId, requestId, commandId, c, env), c, env);
      OutOrLost(s, t, CommandSlot(kind, c, commandId), c, requestId, env)
  {
    IssuedWaits(s, kind, userId, instanceId, requestId, commandId, c, env);
    if !env.Delivers(c) {
      CommandIssuedKeepsInv(s, kind, userId, instanceId, requestId, commandId, c, env);
      UnsentIsLost(s, CommandIssued(s, kind, userId, instanceId, requestId, commandId, c, env),
                   CommandSlot(kind, c, commandId), c, requestId, env);
    }
  }

  // ------------------------------------------------------------------- the outcome

  /** Settling changes the unexpired entries of the commands settled, and drops their
      expired ones; every other entry stays. */
  lemma {:induction false} SettledExactly(es: seq<Outcome>, ids: set<string>, status: Status, now: int, e: Outcome)
    ensures e in Settled(es, ids, status, now)
        <==> (e in es && e.commandId !in ids) || WasSettled(es, ids, status, now, e)
  {
    if es != [] {
      var first, rest := SettledEntry(es[0], ids, status, now), Settled(es[1..], ids, status, now);
      SettledExactly(es[1..], ids, status, now, e);
      assert e in first + rest <==> e in first || e in rest;
      assert es == [es[0]] + es[1..];
      FirstOrLater(es, ids, status, now, e);
      if e in first {
        assert es[0] in es;
      }
    }
  }

  lemma FirstOrLater(es: seq<Outcome>, ids: set<string>, status: Status, now: int, e: Outcome)
    requires es != []
    ensures WasSettled(es, ids, status, now, e)
        <==> WasSettled([es[0]], ids, status, now, e) || WasSettled(es[1..], ids, status, now, e)
  {
    assert es == [es[0]] + es[1..];
  }

  ghost predicate WasSettled(es: seq<Outcome>, ids: set<string>, status: Status, now: int, e: Outcome) {
    exists o :: o in es && o.commandId in ids && now < o.expiresAt && e == o.(status := status, updatedAt := now)
  }

  /** Only the command's own outcome has changed, to this status at this instant. */
  ghost predicate OutcomeTold(s: State, t: State, commandId: string, status: Status, now: int) {
    forall e :: e in t.outcomes <==>
      (e in s.outcomes && e.commandId != commandId) || WasSettled(s.outcomes, {commandId}, status, now, e)
  }

  lemma SettlingTells(es: seq<Outcome>, commandId: string, status: Status, now: int)
    ensures forall e :: e in Settled(es, {commandId}, status, now) <==>
      (e in es && e.commandId != commandId) || WasSettled(es, {commandId}, status, now, e)
  {
    forall e ensures e in Settled(es, {commandId}, status, now) <==>
      (e in es && e.commandId != commandId) || WasSettled(es, {commandId}, status, now, e)
    {
      SettledExactly(es, {commandId}, status, now, e);
    }
  }

  /** A result from the command's own plugin ends its flight and gives its outcome the
      result's status; any other result changes nothing. */
  lemma ResultIsRecorded(s: State, kind: Kind, c: nat, instanceId: string, commandId: string, status: Status, env: Env)
    ensures var t := Step(s, CommandResult(kind, c, instanceId, commandId, status), env);
      var slot := CommandSlot(kind, c, commandId);
      if c in s.connections && s.connections[c].instanceId == Some(instanceId) && slot in s.flights.open
      then && OutcomeTold(s, t, commandId, status, env.now)
           && t.flights.open == s.flights.open - {slot}
           && t.flights.timers == s.flights.timers - {s.flights.open[slot].timer}
           && t.connections == s.connections && t.ownership == s.ownership && t.tunnels == s.tunnels
      else t == s
  {
    SettlingTells(s.outcomes, commandId, status, env.now);
  }

  /** A timer that fires ends its flight and, for a command, leaves the result unknown. */
  lemma TimeoutIsRecorded(s: State, handle: nat, env: Env)
    requires handle in s.flights.timers && s.flights.timers[handle] in s.flights.open
    ensures var t, slot := Step(s, TimerFires(handle), env), s.flights.timers[handle];
      && t.flights.open == s.flights.open - {slot}
      && (if slot.AnswerSlot? || slot.DecideSlot?
          then OutcomeTold(s, t, slot.commandId, ResultUnknown, env.now) else t.outcomes == s.outcomes)
      && t.records == s.records && t.connections == s.connections
  {
    var slot := s.flights.timers[handle];
    if slot.AnswerSlot? || slot.DecideSlot? {
      SettlingTells(s.outcomes, slot.commandId, ResultUnknown, env.now);
    }
  }

  /** The outcome a command that goes through leaves, unless an unexpired one of its id is
      there, which then stays as it is. */
  lemma CommandIsRecorded(s: State, kind: Kind, userId: string, instanceId: string, requestId: string,
                          commandId: string, sessionId: string, env: Env)
    requires CommandGate(s, kind, userId, instanceId, requestId, commandId, sessionId, env).Go?
    requires env.Delivers(CommandGate(s, kind, userId, instanceId, requestId, commandId, sessionId, env).connection)
    ensures var t := Commanded(s, kind, userId, instanceId, requestId, commandId, sessionId, env);
      var own := Outcome(userId, commandId, requestId, instanceId, kind, Accepted, env.now, env.now + s.limits.ttl);
      && (forall e :: e in t.outcomes ==> e == own || (e in s.outcomes && env.now < e.expiresAt))
      && (s.limits.capacity > 0 ==>
            (own in t.outcomes
             <==> (own in s.outcomes && env.now < own.expiresAt)
                  || forall e :: e in s.outcomes && env.now < e.expiresAt ==> e.commandId != commandId))
  {
    var own := Outcome(userId, commandId, requestId, instanceId, kind, Accepted, env.now, env.now + s.limits.ttl);
    DeliveredOutcomes(s, kind, userId, instanceId, requestId, commandId, sessionId, env);
    OwnIsRecorded(s.outcomes, own, env.now, s.limits.capacity);
  }

  lemma DeliveredOutcomes(s: State, kind: Kind, userId: string, instanceId: string, requestId: string,
                          commandId: string, sessionId: string, env: Env)
    requires CommandGate(s, kind, userId, instanceId, requestId, commandId, sessionId, env).Go?
    requires env.Delivers(CommandGate(s, kind, userId, instanceId, requestId, commandId, sessionId, env).connection)
    ensures Commanded(s, kind, userId, instanceId, requestId, commandId, sessionId, env).outcomes
      == Recorded(s.outcomes, NewOutcome(s, kind, userId, instanceId, requestId, commandId, env), env.now,
                  s.limits.capacity)
  {
  }

  lemma OwnIsRecorded(es: seq<Outcome>, own: Outcome, now: int, capacity: nat)
    ensures forall e :: e in Recorded(es, own, now, capacity) ==> e == own || (e in es && now < e.expiresAt)
    ensures capacity > 0 ==>
      (own in Recorded(es, own, now, capacity)
       <==> (own in es && now < own.expiresAt)
            || forall e :: e in es && now < e.expiresAt ==> e.commandId != own.commandId)
  {
    LiveMembers(es, now);
    RecordedOwn(es, own, now, capacity);
  }

  lemma RecordedOwn(es: seq<Outcome>, own: Outcome, now: int, capacity: nat)
    ensures forall e :: e in Recorded(es, own, now, capacity) ==> e == own || e in Live(es, now)
    ensures capacity > 0 ==>
      (own in Recorded(es, own, now, capacity) <==> own in Live(es, now) || !Has(Live(es, now), own.commandId))
    ensures Has(Live(es, now), own.commandId) <==> exists e :: e in Live(es, now) && e.commandId == own.commandId
  {
    var all := Live(es, now) + [own];
    assert all[|all| - 1] == own;
    if !Has(Live(es, now), own.commandId) && capacity > 0 {
      assert Newest(all, capacity)[|Newest(all, capacity)| - 1] == own;
    }
  }

  // --------------------------------------------------------- what a status means

  lemma SettledStatus(es: seq<Outcome>, rs: seq<Outcome>, now: int, o: Outcome, e: Outcome)
    requires OnlySettled(es, rs, now) && DistinctIds(es) && o in es && e in rs && e.commandId == o.commandId
    ensures e == o || (e.status == ResultUnknown && Origin(e) == Origin(o))
  {
    var ids :| rs == Settled(es, ids, ResultUnknown, now);
    SettledExactly(es, ids, ResultUnknown, now, e);
  }

  /** An unexpired outcome changes its status only to what a result of its command says,
      or to unknown by any other event. */
  lemma StatusSaysWhatHappened(s: State, ev: Event, env: Env, o: Outcome, e: Outcome)
    requires Inv(s) && Enabled(s, ev, env)
    requires o in s.outcomes && env.now < o.expiresAt
    requires e in Step(s, ev, env).outcomes && e.commandId == o.commandId
    ensures Origin(e) == Origin(o)
    ensures e.status == o.status
         || (if ev.CommandResult? then ev.commandId == o.commandId && e.status == ev.status
             else e.status == ResultUnknown)
  {
    if ev.Command? {
      CommandKeepsStatus(s, ev.kind, ev.userId, ev.instanceId, ev.requestId, ev.commandId, ev.sessionId, env, o, e);
    } else if ev.CommandResult? {
      ResultKeepsStatus(s, ev, env, o, e);
    } else if ev.QueryOutcome? {
      LiveMembers(s.outcomes, env.now);
      SameIdSameOutcome(s.outcomes, o);
    } else {
      SidelongKeepsStatus(s, ev, env, o, e);
    }
  }

  lemma ResultKeepsStatus(s: State, ev: Event, env: Env, o: Outcome, e: Outcome)
    requires DistinctIds(s.outcomes) && ev.CommandResult? && o in s.outcomes
    requires e in Step(s, ev, env).outcomes && e.commandId == o.commandId
    ensures Origin(e) == Origin(o)
    ensures e.status == o.status || (ev.commandId == o.commandId && e.status == ev.status)
  {
    ResultAnswers(s, ev, env);
    SettlingTells(s.outcomes, ev.commandId, ev.status, env.now);
    SameIdSameOutcome(s.outcomes, o);
  }

  lemma SidelongKeepsStatus(s: State, ev: Event, env: Env, o: Outcome, e: Outcome)
    requires Inv(s) && Enabled(s, ev, env) && Sidelong(ev) && o in s.outcomes
    requires e in Step(s, ev, env).outcomes && e.commandId == o.commandId
    ensures Origin(e) == Origin(o) && (e.status == o.status || e.status == ResultUnknown)
  {
    SidelongEventOnlySettles(s, ev, env);
    SettledStatus(s.outcomes, Step(s, ev, env).outcomes, env.now, o, e);
  }

  lemma SameIdSameOutcome(es: seq<Outcome>, o: Outcome)
    requires DistinctIds(es) && o in es
    ensures forall e :: e in es && e.commandId == o.commandId ==> e == o
  {
  }

  lemma CommandKeepsStatus(s: State, kind: Kind, u: string, i: string, q: string, m: string, x: string, env: Env,
                           o: Outcome, e: Outcome)
    requires Inv(s) && o in s.outcomes && env.now < o.expiresAt
    requires e in Commanded(s, kind, u, i, q, m, x, env).outcomes && e.commandId == o.commandId
    ensures Origin(e) == Origin(o) && (e.status == o.status || e.status == ResultUnknown)
  {
    SameIdSameOutcome(s.outcomes, o);
    var gate := CommandGate(s, kind, u, i, q, m, x, env);
    if gate.Go? {
      var a := CommandIssued(s, kind, u, i, q, m, gate.connection, env);
      GateLetsThrough(s, kind, u, i, q, m, x, env);
      CommandIssuedKeepsInv(s, kind, u, i, q, m, gate.connection, env);
      SendOnlySettles(a, gate.connection, env);
      CameFrom(a, gate.connection, env, e);
      var b :| b in a.outcomes && Origin(b) == Origin(e) && (e == b || e.status == ResultUnknown);
      assert b.commandId == Origin(b).commandId == Origin(e).commandId == e.commandId;
      LiveMembers(s.outcomes, env.now);
      var own := NewOutcome(s, kind, u, i, q, m, env);
      RecordedOwn(s.outcomes, own, env.now, s.limits.capacity);
      assert o in Live(s.outcomes, env.now);
    }
  }

  lemma CameFrom(a: State, c: nat, env: Env, e: Outcome)
    requires Inv(a) && e in Sent(a, c, env).outcomes
    ensures exists b :: b in a.outcomes && Origin(b) == Origin(e) && (e == b || e.status == ResultUnknown)
  {
    SendOnlySettles(a, c, env);
    var ids :| Sent(a, c, env).outcomes == Settled(a.outcomes, ids, ResultUnknown, env.now);
    SettledMembers(a.outcomes, ids, ResultUnknown, env.now);
  }

  // --------------------------------------------------------- how long it is found

  lemma {:induction false} LogsContinue(limits: Limits, run: seq<(Event, Env)>, n: nat)
    requires n <= |run|
    ensures CommandLog(limits, run[..n]) <= CommandLog(limits, run)
    decreases |run|
  {
    if n == |run| {
      assert run[..n] == run;
    } else {
      var before := run[..|run| - 1];
      assert before[..n] == run[..n];
      LogsContinue(limits, before, n);
    }
  }

  /** Where the command of the n-th event is in the log, and until when it is in force. */
  lemma CommandIsLogged(limits: Limits, run: seq<(Event, Env)>, n: nat)
    requires n < |run| && GoesThrough(Run(limits, run[..n]), run[n].0, run[n].1)
    ensures var log, i := CommandLog(limits, run), |CommandLog(limits, run[..n])|;
      && i < |log| && log[i].commandId == run[n].0.commandId
      && log[i].expiresAt == run[n].1.now + Run(limits, run[..n]).limits.ttl
  {
    var ev, env, s := run[n].0, run[n].1, Run(limits, run[..n]);
    assert run[..n + 1][..n] == run[..n];
    var i := |CommandLog(limits, run[..n])|;
    LogsContinue(limits, run, n + 1);
    var own := NewOutcome(s, ev.kind, ev.userId, ev.instanceId, ev.requestId, ev.commandId, env);
    RecordedOwn(s.outcomes, own, env.now, 1);
    LiveMembers(s.outcomes, env.now);
    assert CommandLog(limits, run[..n + 1]) == CommandLog(limits, run[..n]) + Logged(s, ev, env);
    assert CommandLog(limits, run[..n + 1])[i] == CommandLog(limits, run)[i];
  }

  /** The event is a command that passes the gate while no unexpired outcome has its id. */
  ghost predicate GoesThrough(s: State, ev: Event, env: Env) {
    && ev.Command?
    && CommandGate(s, ev.kind, ev.userId, ev.instanceId, ev.requestId, ev.commandId, ev.sessionId, env).Go?
    && forall e :: e in s.outcomes && env.now < e.expiresAt ==> e.commandId != ev.commandId
  }

  /** A command that went through at t is found exactly until t plus the time to live, and
      while fewer than capacity commands have gone through after it, if none of them had
      its id. */
  lemma CommandIsFoundExactly(limits: Limits, run: seq<(Event, Env)>, n: nat, now: int)
    requires Feasible(limits, run) && Clocked(run) && ClockOf(run) <= now
    requires n < |run| && GoesThrough(Run(limits, run[..n]), run[n].0, run[n].1)
    requires forall j :: |CommandLog(limits, run[..n])| < j < |CommandLog(limits, run)| ==>
               CommandLog(limits, run)[j].commandId != run[n].0.commandId
    ensures var later := |CommandLog(limits, run)| - 1 - |CommandLog(limits, run[..n])|;
      (exists e :: e in Live(Run(limits, run).outcomes, now) && e.commandId == run[n].0.commandId)
      <==> now < run[n].1.now + limits.ttl && later < limits.capacity
  {
    var log, i := CommandLog(limits, run), |CommandLog(limits, run[..n])|;
    FeasibleBeginning(limits, run, n);
    RegistryOutcomesAreTheLogsTail(limits, run[..n]);
    RegistryOutcomesAreTheLogsTail(limits, run);
    CommandIsLogged(limits, run, n);
    var t := Traced(Run(limits, run).outcomes, log, ClockOf(run));
    if now < log[i].expiresAt {
      LiveCommandIsMissedOnlyWhenCrowdedOut(t, i, limits.ttl, limits.capacity, now);
    } else {
      ExpiredIsNotFound(t, i, limits.ttl, limits.capacity, now);
    }
  }

  lemma ExpiredIsNotFound(t: Traced, i: nat, ttl: nat, capacity: nat, now: int)
    requires Tracks(t, ttl, capacity) && t.clock <= now
    requires i < |t.log| && t.log[i].expiresAt <= now
    requires forall j :: i < j < |t.log| ==> t.log[j].commandId != t.log[i].commandId
    ensures !exists e :: e in Live(t.entries, now) && e.commandId == t.log[i].commandId
  {
    var k := LiveIsSuffix(t.log, now);
    var live := Live(t.entries, now);
    var kept := Newest(Live(t.log, now), capacity);
    assert Origins(live) == kept;
    var d := |t.log| - |kept|;
    assert kept == t.log[d..] && i < k <= d;
    forall m | 0 <= m < |live| ensures live[m].commandId != t.log[i].commandId {
      assert Origin(live[m]) == kept[m] == t.log[d + m];
    }
  }

  lemma FeasibleBeginning(limits: Limits, run: seq<(Event, Env)>, n: nat)
    requires Feasible(limits, run) && Clocked(run) && n <= |run|
    ensures Feasible(limits, run[..n]) && Clocked(run[..n])
  {
    var before := run[..n];
    forall i | 0 <= i < |before| ensures Enabled(Run(limits, before[..i]), before[i].0, before[i].1) {
      assert before[..i] == run[..i];
    }
  }
}
