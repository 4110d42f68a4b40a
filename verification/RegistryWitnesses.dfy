/** Runs that show the registry's two oddities to be real, and exactly when the first of
    them happens. */
module RegistryWitnesses {
  import opened Prelude
  import opened CommandOutcomes
  import opened ControlFlights
  import opened RegistryState
  import opened RegistryEvents
  import opened RegistryRuns
  import opened RegistryTheorems
  import opened RegistryRequests

  // -------------------------------------------------------- a connection is replaced

  /** `register` gets to the statement that reads the socket of the record's connection,
      and by then the record has none. */
  ghost predicate ReadsAnEmptyConnection(s: State, c: nat, reg: Registration, env: Env)
    requires c in s.connections
  {
    var rk := Key(s.connections[c].userId, reg.instanceId);
    && rk in s.records && s.records[rk].connection.Some? && s.records[rk].connection != Some(c)
    && (var t := Disconnected(s, s.records[rk].connection.value, env);
        rk in t.records && t.records[rk].connection.None?)
  }

  /** Another open connection holds the record of the instance. */
  ghost predicate HeldElsewhere(s: State, c: nat, reg: Registration)
    requires c in s.connections
  {
    exists d :: d in s.connections && d != c && RecordOf(s, d) == Some(Key(s.connections[c].userId, reg.instanceId))
  }

  /** A registration reads an empty connection exactly when another open connection holds
      the instance's record, and exactly when it replaces one. */
  lemma EmptyConnectionIsReadExactly(s: State, c: nat, reg: Registration, env: Env)
    requires Inv(s) && c in s.connections && s.connections[c].instanceId.None?
    ensures ReadsAnEmptyConnection(s, c, reg, env) <==> HeldElsewhere(s, c, reg)
    ensures Replaced(s, c, reg).Some? <==> HeldElsewhere(s, c, reg)
  {
    var rk := Key(s.connections[c].userId, reg.instanceId);
    if Replaced(s, c, reg).Some? {
      ReplacedConnectionIsAlreadyCleared(s, c, reg, env);
      assert RecordOf(s, Replaced(s, c, reg).value) == Some(rk);
    }
  }

  /** Every socket is open and takes what it is sent. */
  function Calm(now: int): Env {
    Env(now, {0, 1}, {})
  }

  function FirstRecord(reg: Registration): Record {
    Record(reg, 0, Controllable, Some(0), [], [])
  }

  lemma StepOfRun(limits: Limits, run: seq<(Event, Env)>, ev: Event, env: Env)
    requires Feasible(limits, run) && Enabled(Run(limits, run), ev, env)
    ensures Feasible(limits, run + [(ev, env)])
    ensures Run(limits, run + [(ev, env)]) == Step(Run(limits, run), ev, env)
  {
    var longer := run + [(ev, env)];
    assert longer[..|run|] == run;
    forall i | 0 <= i < |longer| ensures Enabled(Run(limits, longer[..i]), longer[i].0, longer[i].1) {
      assert i < |run| ==> longer[..i] == run[..i];
    }
  }

  /** A plugin connects and registers. */
  function RegisteringRun(userId: string, reg: Registration): seq<(Event, Env)> {
    [(Add(userId, "key"), Calm(0))] + [(Register(0, reg, true), Calm(0))]
  }

  lemma AfterRegistering(limits: Limits, userId: string, reg: Registration)
    requires Supported(reg)
    ensures Feasible(limits, RegisteringRun(userId, reg))
    ensures var s := Run(limits, RegisteringRun(userId, reg));
      && s.connections == map[0 := Conn(userId, "key", Some(reg.instanceId))]
      && s.records == map[Key(userId, reg.instanceId) := FirstRecord(reg)]
      && s.flights == EMPTY && s.nextUid == 1
  {
    var first := [(Add(userId, "key"), Calm(0))];
    assert [] + first == first;
    StepOfRun(limits, [], Add(userId, "key"), Calm(0));
    var s := Run(limits, first);
    assert s == Added(Initial(limits), userId, "key");
    assert s.connections == map[0 := Conn(userId, "key", None)];
    StepOfRun(limits, first, Register(0, reg, true), Calm(0));
    EnrolledAlone(s, userId, reg);
  }

  lemma EnrolledAlone(s: State, userId: string, reg: Registration)
    requires Supported(reg) && s.connections == map[0 := Conn(userId, "key", None)]
    requires s.records == map[] && s.ownership == map[] && s.nextSequence == 0
    ensures var t := Registered(s, 0, reg, true, Calm(0));
      && t.connections == map[0 := Conn(userId, "key", Some(reg.instanceId))]
      && t.records == map[Key(userId, reg.instanceId) := FirstRecord(reg)]
      && t.flights == s.flights && t.nextUid == s.nextUid
  {
    assert Replaced(s, 0, reg).None?;
    var t := Enrolled(s, 0, reg);
    assert Pruned(s, Place(userId, reg.path), reg.instanceId) == map[];
  }

  /** The same instance registers on a second connection while the first is open: this
      run gets to the empty read. */
  lemma ReplacementHappens(limits: Limits, userId: string, reg: Registration)
    requires Supported(reg)
    ensures var run := RegisteringRun(userId, reg) + [(Add(userId, "key"), Calm(0))];
      var s := Run(limits, run);
      && Feasible(limits, run)
      && 1 in s.connections && s.connections[1].instanceId.None?
      && Replaced(s, 1, reg) == Some(0) && ReadsAnEmptyConnection(s, 1, reg, Calm(0))
      && Enabled(s, Register(1, reg, false), Calm(0))
  {
    var run := RegisteringRun(userId, reg);
    AfterRegistering(limits, userId, reg);
    StepOfRun(limits, run, Add(userId, "key"), Calm(0));
    run := run + [(Add(userId, "key"), Calm(0))];
    ReachableStatesAreConsistent(limits, run);
    EmptyConnectionIsReadExactly(Run(limits, run), 1, reg, Calm(0));
  }

  // ------------------------------------------------------------ a stale id is forgotten

  function Snapshots(r: Record, xss: seq<seq<Pending>>): Record
    decreases |xss|
  {
    if xss == [] then r else Projected(Snapshots(r, xss[..|xss| - 1]), xss[|xss| - 1])
  }

  /** A snapshot asked for and answered is a snapshot applied. */
  lemma SnapshotArrives(s: State, userId: string, instanceId: string, q: string, xs: seq<Pending>, env: Env)
    requires Linked(s) && Route(s, userId, instanceId, env) == Some(0) && env.Delivers(0) && s.flights.open == map[]
    ensures AsksTargets(s, userId, [(instanceId, q)], env)
    ensures var rk, t := Key(userId, instanceId), SnapshotsAsked(s, userId, [(instanceId, q)], env);
      var u := SnapshotAnswered(t, 0, instanceId, q, xs);
      && u.flights.open == map[] && Route(u, userId, instanceId, env) == Some(0)
      && u.records == s.records[rk := Projected(s.records[rk], xs)]
  {
    OneSnapshotAsked(s, userId, instanceId, q, env);
    RouteLeadsHome(s, userId, instanceId, env);
    SnapshotAnswersAlone(Asked(s, SnapshotSlot(0, q), 0, q), Key(userId, instanceId), q, xs);
  }

  lemma OneSnapshotAsked(s: State, userId: string, instanceId: string, q: string, env: Env)
    requires Route(s, userId, instanceId, env) == Some(0) && env.Delivers(0)
    ensures SnapshotsAsked(s, userId, [(instanceId, q)], env) == Asked(s, SnapshotSlot(0, q), 0, q)
  {
    var asks, t := [(instanceId, q)], Asked(s, SnapshotSlot(0, q), 0, q);
    assert asks[1..] == [];
    assert SnapshotsAsked(t, userId, [], env) == t;
  }

  lemma SnapshotAnswersAlone(t: State, rk: Key, q: string, xs: seq<Pending>)
    requires 0 in t.connections && t.connections[0].userId == rk.userId
    requires t.connections[0].instanceId == Some(rk.instanceId)
    requires rk in t.records && t.records[rk].connection == Some(0)
    requires t.flights.open.Keys == {SnapshotSlot(0, q)}
    ensures var u := SnapshotAnswered(t, 0, rk.instanceId, q, xs);
      && u.flights.open == map[] && u.records == t.records[rk := Projected(t.records[rk], xs)]
  {
    assert RecordOf(t, 0) == Some(rk);
  }

  function SnapshotRequest(reg: Registration): (Event, Env) {
    (CollectPending("user", [(reg.instanceId, "q")]), Calm(0))
  }

  function SnapshotReply(reg: Registration, xs: seq<Pending>): (Event, Env) {
    (SnapshotResponse(0, reg.instanceId, "q", xs), Calm(0))
  }

  /** A plugin registers and is asked for snapshots, one after the other. */
  function SnapshotRun(reg: Registration, xss: seq<seq<Pending>>): seq<(Event, Env)>
    decreases |xss|
  {
    if xss == [] then RegisteringRun("user", reg)
    else SnapshotRun(reg, xss[..|xss| - 1]) + [SnapshotRequest(reg)] + [SnapshotReply(reg, xss[|xss| - 1])]
  }

  lemma {:induction false} SnapshotsArrive(limits: Limits, reg: Registration, xss: seq<seq<Pending>>)
    requires Supported(reg)
    ensures Feasible(limits, SnapshotRun(reg, xss))
    ensures var s := Run(limits, SnapshotRun(reg, xss));
      && s.flights.open == map[] && Route(s, "user", reg.instanceId, Calm(0)) == Some(0)
      && s.records[Key("user", reg.instanceId)] == Snapshots(FirstRecord(reg), xss)
    decreases |xss|
  {
    if xss == [] {
      AfterRegistering(limits, "user", reg);
    } else {
      var run, xs := SnapshotRun(reg, xss[..|xss| - 1]), xss[|xss| - 1];
      SnapshotsArrive(limits, reg, xss[..|xss| - 1]);
      ReachableStatesAreConsistent(limits, run);
      SnapshotArrives(Run(limits, run), "user", reg.instanceId, "q", xs, Calm(0));
      StepOfRun(limits, run, SnapshotRequest(reg).0, Calm(0));
      StepOfRun(limits, run + [SnapshotRequest(reg)], SnapshotReply(reg, xs).0, Calm(0));
    }
  }

  function Asking(ids: seq<string>): seq<Pending> {
    seq(|ids|, i requires 0 <= i < |ids| => Pending(ids[i], Question, ""))
  }

  lemma {:induction false} PutAtEnd(ps: seq<Pending>, p: Pending)
    requires forall i :: 0 <= i < |ps| ==> ps[i].requestId != p.requestId
    ensures Put(ps, p) == ps + [p]
  {
    if ps != [] {
      PutAtEnd(ps[1..], p);
    }
  }

  lemma {:induction false} AskingIsIncoming(ids: seq<string>, n: nat)
    requires DistinctStrings(ids) && n <= |ids|
    ensures IncomingUpTo(Asking(ids), n) == Asking(ids)[..n]
  {
    if n > 0 {
      AskingIsIncoming(ids, n - 1);
      PutAtEnd(Asking(ids)[..n - 1], Asking(ids)[n - 1]);
    }
  }

  /** When nothing of it is pending any more, all of it goes stale, in order. */
  lemma {:induction false} AllGoStale(stale: seq<string>, ids: seq<string>)
    requires DistinctStrings(stale + ids) && |stale + ids| <= MAX_STALE_REQUEST_IDS
    ensures Outdated(stale, Asking(ids), []) == stale + ids
    decreases |ids|
  {
    if ids == [] {
      assert stale + ids == stale;
    } else {
      var all := stale + ids;
      assert all[|stale|] == ids[0] && forall i :: 0 <= i < |stale| ==> all[i] == stale[i];
      assert stale + [ids[0]] + ids[1..] == stale + ids;
      assert Asking(ids)[1..] == Asking(ids[1..]);
      AllGoStale(stale + [ids[0]], ids[1..]);
    }
  }

  lemma TwoSnapshots(r: Record, a: seq<Pending>, b: seq<Pending>)
    ensures Snapshots(r, [a, b]) == Projected(Projected(r, a), b)
  {
    var xss := [a, b];
    assert xss[..1] == [a] && [a][..0] == [];
    assert Snapshots(r, [a]) == Projected(r, a);
  }

  /** Requests come, and go again. */
  lemma ComeAndGo(r: Record, ids: seq<string>)
    requires r.projected == [] && DistinctStrings(ids)
    ensures Snapshots(r, ComingAndGoing(ids)) == r.(stale := Outdated(r.stale, Asking(ids), []))
  {
    TwoSnapshots(r, Asking(ids), []);
    AskingIsIncoming(ids, |ids|);
    assert Asking(ids)[..|ids|] == Asking(ids);
    assert Projected(r, Asking(ids)) == r.(projected := Asking(ids));
  }

  lemma OneGoesStale(stale: seq<string>, id: string)
    ensures Outdated(stale, Asking([id]), []) == RememberStale(stale, id)
  {
    assert Asking([id])[1..] == [];
  }

  lemma {:induction false} SnapshotsConcat(r: Record, a: seq<seq<Pending>>, b: seq<seq<Pending>>)
    ensures Snapshots(r, a + b) == Snapshots(Snapshots(r, a), b)
    decreases |b|
  {
    if b == [] {
      assert a + b == a;
    } else {
      SnapshotsConcat(r, a, b[..|b| - 1]);
      assert (a + b)[..|a + b| - 1] == a + b[..|b| - 1];
    }
  }

  /** Any 256 requests come and go, the first of them comes and goes again, then one
      more: though it went stale last but one, the first is what is no longer remembered. */
  lemma LastStaleIdIsForgottenInARun(limits: Limits, reg: Registration, ids: seq<string>, newcomer: string)
    requires Supported(reg) && DistinctStrings(ids) && |ids| == MAX_STALE_REQUEST_IDS && newcomer !in ids
    ensures var run := SnapshotRun(reg, ComingAndGoing(ids) + ComingAndGoing([ids[0]]) + ComingAndGoing([newcomer]));
      var s, rk := Run(limits, run), Key("user", reg.instanceId);
      && Feasible(limits, run)
      && rk in s.records && ids[0] !in s.records[rk].stale
      && forall i :: 0 < i < |ids| ==> ids[i] in s.records[rk].stale
  {
    SnapshotsArrive(limits, reg, ComingAndGoing(ids) + ComingAndGoing([ids[0]]) + ComingAndGoing([newcomer]));
    AllComeAndGo(FirstRecord(reg), ids, newcomer);
    FirstMakesRoom(ids, newcomer);
  }

  function ComingAndGoing(ids: seq<string>): seq<seq<Pending>> {
    [Asking(ids), []]
  }

  lemma OneComesAndGoes(r: Record, id: string)
    requires r.projected == []
    ensures Snapshots(r, ComingAndGoing([id])) == r.(stale := RememberStale(r.stale, id))
  {
    ComeAndGo(r, [id]);
    OneGoesStale(r.stale, id);
  }

  lemma AllComeAndGo(r: Record, ids: seq<string>, newcomer: string)
    requires r.projected == [] && r.stale == [] && DistinctStrings(ids) && 0 < |ids| <= MAX_STALE_REQUEST_IDS
    ensures Snapshots(r, ComingAndGoing(ids) + ComingAndGoing([ids[0]]) + ComingAndGoing([newcomer]))
      == r.(stale := RememberStale(ids, newcomer))
  {
    var a, b, c := ComingAndGoing(ids), ComingAndGoing([ids[0]]), ComingAndGoing([newcomer]);
    ComeAndGo(r, ids);
    assert [] + ids == ids;
    AllGoStale([], ids);
    SnapshotsConcat(r, a, b);
    OneComesAndGoes(r.(stale := ids), ids[0]);
    SnapshotsConcat(r, a + b, c);
    OneComesAndGoes(r.(stale := ids), newcomer);
  }

  lemma FirstMakesRoom(ids: seq<string>, newcomer: string)
    requires DistinctStrings(ids) && |ids| == MAX_STALE_REQUEST_IDS && newcomer !in ids
    ensures var stale := RememberStale(ids, newcomer);
      ids[0] !in stale && forall i :: 0 < i < |ids| ==> ids[i] in stale
  {
    forall i | 0 <= i < |ids| ensures ids[i] in RememberStale(ids, newcomer) <==> i > 0 {
      StaleIdIsForgottenOnlyFromTheFront(ids, ids[i], newcomer);
    }
  }
}
