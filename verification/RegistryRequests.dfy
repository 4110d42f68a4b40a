/** What the registry knows of each plugin's pending requests, and which commands it
    therefore lets through. */
module RegistryRequests {
  import opened Prelude
  import opened CommandOutcomes
  import opened ControlFlights
  import opened RegistryState
  import opened RegistryEvents

  ghost predicate LastMention(interactions: seq<Pending>, n: nat, i: nat, requestId: string)
    requires n <= |interactions|
  {
    && i < n && interactions[i].requestId == requestId
    && forall j :: i < j < n ==> interactions[j].requestId != requestId
  }

  lemma {:induction false} PutProjects(ps: seq<Pending>, p: Pending, requestId: string)
    ensures Projection(Put(ps, p), requestId)
      == if requestId == p.requestId then Some(p) else Projection(ps, requestId)
  {
    if ps != [] {
      if ps[0].requestId == p.requestId {
        assert ([p] + ps[1..])[1..] == ps[1..];
      } else {
        PutProjects(ps[1..], p, requestId);
        assert Put(ps, p)[1..] == Put(ps[1..], p);
      }
    }
  }

  lemma {:induction false} PrefixIsTheProjection(interactions: seq<Pending>, n: nat, requestId: string) returns (i: nat)
    requires n <= |interactions|
    ensures var p := Projection(IncomingUpTo(interactions, n), requestId);
      && (p.Some? ==> LastMention(interactions, n, i, requestId) && p.value == interactions[i])
      && (p.None? ==> forall j :: 0 <= j < n ==> interactions[j].requestId != requestId)
  {
    i := 0;
    if n > 0 {
      i := PrefixIsTheProjection(interactions, n - 1, requestId);
      PutProjects(IncomingUpTo(interactions, n - 1), interactions[n - 1], requestId);
      if requestId == interactions[n - 1].requestId {
        i := n - 1;
      }
    }
  }

  /** After a snapshot the projection is exactly the snapshot: an id is pending, with
      the kind and session of its last mention, or not pending at all. */
  lemma SnapshotIsTheProjection(r: Record, interactions: seq<Pending>, requestId: string) returns (i: nat)
    ensures var p := Projection(Projected(r, interactions).projected, requestId);
      && (p.Some? ==> LastMention(interactions, |interactions|, i, requestId) && p.value == interactions[i])
      && (p.None? ==> forall j :: 0 <= j < |interactions| ==> interactions[j].requestId != requestId)
  {
    i := PrefixIsTheProjection(interactions, |interactions|, requestId);
  }

  ghost predicate Mentions(interactions: seq<Pending>, requestId: string, kind: Kind, sessionId: string) {
    exists i: nat :: LastMention(interactions, |interactions|, i, requestId)
      && interactions[i].kind == kind && interactions[i].sessionId == sessionId
  }

  /** Right after a snapshot a command goes through exactly when the snapshot's last
      mention of its request is of that kind and session, and no such command is in
      flight on the connection. */
  lemma CommandsFollowTheSnapshot(s: State, c: nat, instanceId: string, snapshotId: string, interactions: seq<Pending>,
                                  kind: Kind, requestId: string, commandId: string, sessionId: string, env: Env)
    requires Registrant(s, c, instanceId) && SnapshotSlot(c, snapshotId) in s.flights.open && RecordOf(s, c).Some?
    requires var rk := RecordOf(s, c).value;
      Route(SnapshotAnswered(s, c, instanceId, snapshotId, interactions), rk.userId, rk.instanceId, env).Some?
    ensures var rk, t := RecordOf(s, c).value, SnapshotAnswered(s, c, instanceId, snapshotId, interactions);
      CommandGate(t, kind, rk.userId, rk.instanceId, requestId, commandId, sessionId, env) == Go(c)
      <==> Mentions(interactions, requestId, kind, sessionId) && !Busy(t.flights, kind, c, requestId, commandId)
  {
    var rk, t := RecordOf(s, c).value, SnapshotAnswered(s, c, instanceId, snapshotId, interactions);
    var i := SnapshotIsTheProjection(s.records[rk], interactions, requestId);
    assert t.records[rk] == Projected(s.records[rk], interactions);
    assert Route(t, rk.userId, rk.instanceId, env) == Some(c);
    if Mentions(interactions, requestId, kind, sessionId) {
      var j: nat :| LastMention(interactions, |interactions|, j, requestId)
               && interactions[j].kind == kind && interactions[j].sessionId == sessionId;
      LastMentionIsOne(interactions, i, j, requestId);
    }
  }

  lemma LastMentionIsOne(interactions: seq<Pending>, i: nat, j: nat, requestId: string)
    requires LastMention(interactions, |interactions|, j, requestId)
    ensures LastMention(interactions, |interactions|, i, requestId) ==> i == j
    ensures interactions[j].requestId == requestId
  {
  }

  lemma {:induction false} WithoutForgets(ps: seq<Pending>, requestId: string)
    ensures Projection(Without(ps, requestId), requestId).None?
  {
    if ps != [] {
      WithoutForgets(ps[1..], requestId);
      if ps[0].requestId != requestId {
        assert Without(ps, requestId)[1..] == Without(ps[1..], requestId);
      } else {
        assert Without(ps, requestId) == Without(ps[1..], requestId);
      }
    }
  }

  lemma RememberedIsStale(stale: seq<string>, requestId: string)
    ensures requestId in RememberStale(stale, requestId)
  {
    var all := stale + [requestId];
    assert all[|all| - 1] == requestId;
  }

  /** Once a command on a request was confirmed, no second command on it gets through:
      the request reads as stale. */
  lemma ConfirmedRequestConflicts(s: State, kind: Kind, c: nat, instanceId: string, commandId: string, env: Env,
                                  again: Kind, otherId: string, sessionId: string, later: Env)
    requires Linked(s) && Registrant(s, c, instanceId) && CommandSlot(kind, c, commandId) in s.flights.open
    requires RecordOf(s, c).Some?
    requires var rk := RecordOf(s, c).value;
      Route(CommandAnswered(s, kind, c, instanceId, commandId, Confirmed, env), rk.userId, rk.instanceId, later).Some?
    ensures var rk := RecordOf(s, c).value;
      CommandGate(CommandAnswered(s, kind, c, instanceId, commandId, Confirmed, env), again, rk.userId, rk.instanceId,
                  s.flights.open[CommandSlot(kind, c, commandId)].requestId, otherId, sessionId, later) == Conflict
  {
    var rk := RecordOf(s, c).value;
    var requestId := s.flights.open[CommandSlot(kind, c, commandId)].requestId;
    WithoutForgets(s.records[rk].projected, requestId);
    RememberedIsStale(s.records[rk].stale, requestId);
    var t := CommandAnswered(s, kind, c, instanceId, commandId, Confirmed, env);
    assert t.records[rk] == Resolved(s.records[rk], requestId);
  }

  ghost predicate DistinctStrings(xs: seq<string>) {
    forall i, j :: 0 <= i < j < |xs| ==> xs[i] != xs[j]
  }

  /** A stale id is forgotten by exactly one thing: a new id arriving when it is the
      first of a full memory. */
  lemma StaleIdIsForgottenOnlyFromTheFront(stale: seq<string>, id: string, newcomer: string)
    requires DistinctStrings(stale) && |stale| <= MAX_STALE_REQUEST_IDS && id in stale
    ensures id !in RememberStale(stale, newcomer)
        <==> newcomer !in stale && |stale| == MAX_STALE_REQUEST_IDS && stale[0] == id
    ensures DistinctStrings(RememberStale(stale, newcomer))
  {
    if newcomer !in stale {
      var all := stale + [newcomer];
      var i :| 0 <= i < |stale| && stale[i] == id;
      assert all[i] == id;
      if |stale| == MAX_STALE_REQUEST_IDS {
        assert all[1..] == stale[1..] + [newcomer];
        if i > 0 { assert all[1..][i - 1] == id; }
      }
    }
  }

  /** Remembering a known id again does not refresh it: the id that went stale last
      can be the next one forgotten, although the memory holds 256. */
  lemma RepeatedStaleIdIsForgottenFirst(stale: seq<string>, id: string, newcomer: string)
    requires DistinctStrings(stale) && |stale| == MAX_STALE_REQUEST_IDS
    requires stale[0] == id && newcomer !in stale
    ensures id in RememberStale(stale, id)
    ensures id !in RememberStale(RememberStale(stale, id), newcomer)
  {
    StaleIdIsForgottenOnlyFromTheFront(stale, id, newcomer);
  }
}
