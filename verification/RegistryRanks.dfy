/** The order in which waiters are asked: by when their instance was first recorded,
    however often it has come back since. */
module RegistryRanks {
  import opened Prelude
  import opened ControlFlights
  import opened RegistryState
  import opened RegistryEvents
  import opened RegistryRuns
  import opened RegistryTheorems

  /** Who is recorded before and after keeps its sequence number, and who is new gets a
      higher one than there was. */
  ghost predicate Ranked(s: State, t: State) {
    && s.nextSequence <= t.nextSequence
    && (forall rk :: rk in s.records && rk in t.records ==> t.records[rk].sequence == s.records[rk].sequence)
    && (forall rk :: rk in t.records && rk !in s.records ==> s.nextSequence <= t.records[rk].sequence)
  }

  ghost predicate SameRanks(s: State, t: State) {
    && t.nextSequence == s.nextSequence && t.records.Keys == s.records.Keys
    && (forall rk :: rk in s.records ==> t.records[rk].sequence == s.records[rk].sequence)
  }

  lemma DisconnectedSameRanks(s: State, c: nat, env: Env)
    ensures SameRanks(s, Disconnected(s, c, env))
  {
    if c in s.connections && RecordOf(s, c).Some? {
      var rk := RecordOf(s, c).value;
      var k, v := PlaceOf(rk, s.records[rk]), Vacated(s, c, rk, env);
      assert SameRanks(s, v);
      PromotedSameRanks(v, k, env);
    }
  }

  lemma PromotedSameRanks(v: State, k: Place, env: Env)
    ensures SameRanks(v, Promoted(v, k, env))
  {
    var t := Promoted(v, k, env);
    assert t.records.Keys == v.records.Keys;
    forall rk | rk in v.records ensures t.records[rk].sequence == v.records[rk].sequence {
      PromotedRecordShape(v, k, rk, env);
    }
  }

  lemma SentSameRanks(s: State, c: nat, env: Env)
    ensures SameRanks(s, Sent(s, c, env))
  {
    DisconnectedSameRanks(s, c, env);
  }

  lemma {:induction false} DisconnectedAllSameRanks(s: State, cs: seq<nat>, env: Env)
    ensures SameRanks(s, DisconnectedAll(s, cs, env))
  {
    if cs != [] {
      var before := DisconnectedAll(s, cs[..|cs| - 1], env);
      DisconnectedAllSameRanks(s, cs[..|cs| - 1], env);
      DisconnectedSameRanks(before, cs[|cs| - 1], env);
    }
  }

  lemma AskSameRanks(s: State, slot: Slot, c: nat, requestId: string, env: Env)
    ensures SameRanks(s, Sent(Asked(s, slot, c, requestId), c, env))
  {
    SentSameRanks(Asked(s, slot, c, requestId), c, env);
  }

  lemma {:induction false} CollectSameRanks(s: State, userId: string, asks: seq<(string, string)>, env: Env)
    ensures SameRanks(s, SnapshotsAsked(s, userId, asks, env))
    decreases |asks|
  {
    if asks != [] {
      var t := SnapshotAsked(s, userId, asks[0], env);
      if Route(s, userId, asks[0].0, env).Some? {
        var c := Route(s, userId, asks[0].0, env).value;
        AskSameRanks(s, SnapshotSlot(c, asks[0].1), c, asks[0].1, env);
      }
      CollectSameRanks(t, userId, asks[1..], env);
    }
  }

  lemma EnrolledIsRanked(s: State, c: nat, reg: Registration)
    requires c in s.connections
    ensures Ranked(s, Enrolled(s, c, reg))
  {
  }

  lemma RankedOn(s: State, t: State, u: State)
    requires SameRanks(s, t) && Ranked(t, u)
    ensures Ranked(s, u)
  {
  }

  lemma RankedThen(s: State, t: State, u: State)
    requires Ranked(s, t) && SameRanks(t, u)
    ensures Ranked(s, u)
  {
  }

  lemma RegisteredIsRanked(s: State, c: nat, reg: Registration, resumes: bool, env: Env)
    requires c in s.connections
    ensures Ranked(s, Registered(s, c, reg, resumes, env))
  {
    var t := if Replaced(s, c, reg).None? then s else Disconnected(s, Replaced(s, c, reg).value, env);
    if Replaced(s, c, reg).Some? {
      DisconnectedSameRanks(s, Replaced(s, c, reg).value, env);
    }
    if c in t.connections {
      var u := Enrolled(t, c, reg);
      EnrolledIsRanked(t, c, reg);
      SentSameRanks(u, c, env);
      RankedThen(t, u, Sent(u, c, env));
      RankedOn(s, t, Sent(u, c, env));
    }
  }

  lemma RequestSameRanks(s: State, ev: Event, env: Env)
    requires IsRequest(ev)
    ensures SameRanks(s, Step(s, ev, env))
  {
    match ev {
      case CollectSessions(u, i, q) =>
        if Route(s, u, i, env).Some? {
          AskSameRanks(s, CatalogSlot(q), Route(s, u, i, env).value, q, env);
        }
      case CollectPending(u, asks) => CollectSameRanks(s, u, asks, env);
      case Command(kind, u, i, q, m, x) =>
        var gate := CommandGate(s, kind, u, i, q, m, x, env);
        if gate.Go? {
          SentSameRanks(CommandIssued(s, kind, u, i, q, m, gate.connection, env), gate.connection, env);
        }
      case Prompt(u, i, m) =>
        if Route(s, u, i, env).Some? {
          var c := Route(s, u, i, env).value;
          AskSameRanks(s, PromptSlot(c, m), c, m, env);
        }
    }
  }

  lemma ResultSameRanks(s: State, ev: Event, env: Env)
    requires ResultFrom(ev).Some?
    ensures SameRanks(s, Step(s, ev, env))
  {
  }

  lemma ConnectionsAreRanked(s: State, ev: Event, env: Env)
    requires Enabled(s, ev, env) && IsOfConnections(ev)
    ensures Ranked(s, Step(s, ev, env))
  {
    match ev {
      case Add(u, k) =>
      case Register(c, reg, resumes) => RegisteredIsRanked(s, c, reg, resumes, env);
      case Disconnect(c) => DisconnectedSameRanks(s, c, env);
      case RevokeKey(k) => DisconnectedAllSameRanks(s, UidsBelow(s.nextUid, ConnectionsOfKey(s, k)), env);
      case CloseAll => DisconnectedAllSameRanks(s, UidsBelow(s.nextUid, s.connections.Keys), env);
    }
  }

  lemma OthersAreRanked(s: State, ev: Event, env: Env)
    requires IsOther(ev)
    ensures Ranked(s, Step(s, ev, env))
  {
    if ev.CloseTunnel? && ev.tunnelId in s.tunnels {
      SentSameRanks(s.(tunnels := s.tunnels - {ev.tunnelId}), s.tunnels[ev.tunnelId], env);
    }
  }

  /** No event changes the sequence number of a record, and a new record comes last. */
  lemma StepIsRanked(s: State, ev: Event, env: Env)
    requires Enabled(s, ev, env)
    ensures Ranked(s, Step(s, ev, env))
  {
    if ResultFrom(ev).Some? {
      ResultSameRanks(s, ev, env);
    } else if IsRequest(ev) {
      RequestSameRanks(s, ev, env);
    } else if IsOfConnections(ev) {
      ConnectionsAreRanked(s, ev, env);
    } else {
      OthersAreRanked(s, ev, env);
    }
  }

  /** The instance is recorded from the n-th state of the run on. */
  ghost predicate RecordedFrom(limits: Limits, run: seq<(Event, Env)>, n: nat, rk: Key) {
    forall m :: n <= m <= |run| ==> rk in Run(limits, run[..m]).records
  }

  lemma RunSplits(limits: Limits, run: seq<(Event, Env)>)
    requires Feasible(limits, run) && run != []
    ensures var before, last := run[..|run| - 1], run[|run| - 1];
      && Feasible(limits, before) && Ranked(Run(limits, before), Run(limits, run))
      && forall m :: 0 <= m < |run| ==> before[..m] == run[..m]
  {
    var before, last := run[..|run| - 1], run[|run| - 1];
    forall i | 0 <= i < |before| ensures Enabled(Run(limits, before[..i]), before[i].0, before[i].1) {
      assert before[..i] == run[..i];
    }
    assert Enabled(Run(limits, run[..|run| - 1]), last.0, last.1);
    StepIsRanked(Run(limits, before), last.0, last.1);
  }

  /** As long as it is recorded, an instance keeps its number, whatever becomes of its
      connection and wherever it registers again. */
  lemma {:induction false} NumberIsKept(limits: Limits, run: seq<(Event, Env)>, n: nat, rk: Key)
    requires Feasible(limits, run) && n <= |run| && RecordedFrom(limits, run, n, rk)
    ensures rk in Run(limits, run[..n]).records && rk in Run(limits, run).records
    ensures Run(limits, run).records[rk].sequence == Run(limits, run[..n]).records[rk].sequence
    decreases |run|
  {
    assert run[..|run|] == run;
    assert rk in Run(limits, run[..n]).records && rk in Run(limits, run[..|run|]).records;
    if n < |run| {
      var before := run[..|run| - 1];
      RunSplits(limits, run);
      assert before[..n] == run[..n];
      forall m | n <= m <= |before| ensures rk in Run(limits, before[..m]).records {
        assert before[..m] == run[..m];
      }
      NumberIsKept(limits, before, n, rk);
    }
  }

  /** Who was not recorded then comes after everybody who was. */
  lemma {:induction false} NewcomersComeLater(limits: Limits, run: seq<(Event, Env)>, n: nat, rk: Key)
    requires Feasible(limits, run) && n <= |run|
    requires rk !in Run(limits, run[..n]).records && rk in Run(limits, run).records
    ensures Run(limits, run[..n]).nextSequence <= Run(limits, run).records[rk].sequence
    decreases |run|
  {
    assert run[..|run|] == run;
    if n < |run| {
      var before := run[..|run| - 1];
      RunSplits(limits, run);
      assert before[..n] == run[..n];
      if rk in Run(limits, before).records {
        NewcomersComeLater(limits, before, n, rk);
      } else {
        NumbersGrow(limits, before, n);
      }
    }
  }

  lemma {:induction false} NumbersGrow(limits: Limits, run: seq<(Event, Env)>, n: nat)
    requires Feasible(limits, run) && n <= |run|
    ensures Run(limits, run[..n]).nextSequence <= Run(limits, run).nextSequence
    decreases |run|
  {
    assert run[..|run|] == run;
    if n < |run| {
      var before := run[..|run| - 1];
      RunSplits(limits, run);
      assert before[..n] == run[..n];
      NumbersGrow(limits, before, n);
    }
  }

  /** First come, first served, over every run: while an instance stays recorded, nobody
      who was first recorded after it gets control of a place that both wait for, as long
      as the earlier one can be told; not even when the earlier one was away in between
      and registered again. */
  lemma EarlierInstanceGoesFirst(limits: Limits, run: seq<(Event, Env)>, n: nat, earlier: Key, later: Key,
                                 k: Place, env: Env)
    requires Feasible(limits, run) && n <= |run| && RecordedFrom(limits, run, n, earlier)
    requires later !in Run(limits, run[..n]).records
    requires Reachable(Run(limits, run), k, earlier, env)
    ensures !Wins(Run(limits, run), k, later, env)
  {
    var s, t := Run(limits, run[..n]), Run(limits, run);
    FeasiblePrefixes(limits, run, n);
    ReachableStatesAreConsistent(limits, run[..n]);
    NumberIsKept(limits, run, n, earlier);
    if later in t.records {
      NewcomersComeLater(limits, run, n, later);
    }
  }

  lemma FeasiblePrefixes(limits: Limits, run: seq<(Event, Env)>, n: nat)
    requires Feasible(limits, run) && n <= |run|
    ensures Feasible(limits, run[..n])
  {
    var before := run[..n];
    forall i | 0 <= i < |before| ensures Enabled(Run(limits, before[..i]), before[i].0, before[i].1) {
      assert before[..i] == run[..i];
    }
  }

  /** A waiter that registers again keeps its rank among those still waiting. */
  lemma ReturningWaiterKeepsItsRank(s: State, ev: Event, env: Env, a: Key, b: Key)
    requires Enabled(s, ev, env)
    requires var t := Step(s, ev, env);
      a in s.records && b in s.records && a in t.records && b in t.records
    ensures var t := Step(s, ev, env);
      t.records[a].sequence < t.records[b].sequence <==> s.records[a].sequence < s.records[b].sequence
  {
    StepIsRanked(s, ev, env);
  }

  lemma ConnectionEventKeepsRecords(s: State, ev: Event, env: Env)
    requires IsOfConnections(ev) && !ev.Register?
    ensures Step(s, ev, env).records.Keys == s.records.Keys
  {
    match ev {
      case Add(_, _) =>
      case Disconnect(c) => DisconnectedSameRanks(s, c, env);
      case RevokeKey(k) => DisconnectedAllSameRanks(s, UidsBelow(s.nextUid, ConnectionsOfKey(s, k)), env);
      case CloseAll => DisconnectedAllSameRanks(s, UidsBelow(s.nextUid, s.connections.Keys), env);
    }
  }

  lemma OtherEventKeepsRecords(s: State, ev: Event, env: Env)
    requires IsOther(ev) && !ev.ForgetOffline?
    ensures Step(s, ev, env).records.Keys == s.records.Keys
  {
    if ev.CloseTunnel? && ev.tunnelId in s.tunnels {
      SentSameRanks(s.(tunnels := s.tunnels - {ev.tunnelId}), s.tunnels[ev.tunnelId], env);
    }
  }

  /** Nothing but a registration and a request to forget takes a record away. */
  lemma RecordsAreKeptUntilForgotten(s: State, ev: Event, env: Env)
    requires !ev.Register? && !ev.ForgetOffline?
    ensures Step(s, ev, env).records.Keys == s.records.Keys
  {
    if ResultFrom(ev).Some? {
      ResultSameRanks(s, ev, env);
    } else if IsRequest(ev) {
      RequestSameRanks(s, ev, env);
    } else if IsOfConnections(ev) {
      ConnectionEventKeepsRecords(s, ev, env);
    } else {
      OtherEventKeepsRecords(s, ev, env);
    }
  }

  /** Such a request takes the named record, exactly when nobody is connected as it. */
  lemma ForgottenExactly(s: State, userId: string, instanceId: string, env: Env, rk: Key)
    requires Inv(s) && rk in s.records
    ensures var t := Step(s, ForgetOffline(userId, instanceId), env);
      && (rk in t.records <==> rk != Key(userId, instanceId) || s.records[rk].connection.Some?)
      && (rk in t.records ==> t.records[rk] == s.records[rk])
  {
    assert OfflineExact(s);
  }
}
