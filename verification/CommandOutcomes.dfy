/** The gateway's body-free outcome cache: commandId -> lifecycle status, in
    insertion order, bounded by a time to live and by a capacity. */
module CommandOutcomes {
  import opened Prelude

  datatype Status = Accepted | Confirmed | Stale | UpstreamError | ResultUnknown

  datatype Outcome = Outcome(
    userId: string,
    commandId: string,
    requestId: string,
    instanceId: string,
    kind: Kind,
    status: Status,
    updatedAt: int,
    expiresAt: int)

  predicate Expired(e: Outcome, now: int) {
    now >= e.expiresAt
  }

  /** What an entry was when it was first recorded; settling never changes this. */
  function Origin(e: Outcome): Outcome {
    e.(status := Accepted, updatedAt := 0)
  }

  function Origins(es: seq<Outcome>): (os: seq<Outcome>)
    ensures |os| == |es|
    ensures forall i :: 0 <= i < |es| ==> os[i] == Origin(es[i])
  {
    if es == [] then [] else [Origin(es[0])] + Origins(es[1..])
  }

  /** The unexpired entries, in order. */
  function Live(es: seq<Outcome>, now: int): seq<Outcome> {
    if es == [] then [] else (if Expired(es[0], now) then [] else [es[0]]) + Live(es[1..], now)
  }

  ghost predicate Has(es: seq<Outcome>, commandId: string) {
    exists i :: 0 <= i < |es| && es[i].commandId == commandId
  }

  ghost predicate DistinctIds(es: seq<Outcome>) {
    forall i, j :: 0 <= i < j < |es| ==> es[i].commandId != es[j].commandId
  }

  ghost predicate ByExpiry(es: seq<Outcome>) {
    forall i, j :: 0 <= i < j < |es| ==> es[i].expiresAt <= es[j].expiresAt
  }

  /** What settling the commands in `ids` leaves of one entry: an expired one is
      dropped, a live one takes the status. */
  function SettledEntry(e: Outcome, ids: set<string>, status: Status, now: int): (r: seq<Outcome>)
    ensures |r| <= 1
  {
    if e.commandId !in ids then [e]
    else if Expired(e, now) then []
    else [e.(status := status, updatedAt := now)]
  }

  /** The cache once every command in `ids` has been settled. */
  function Settled(es: seq<Outcome>, ids: set<string>, status: Status, now: int): seq<Outcome> {
    if es == [] then [] else SettledEntry(es[0], ids, status, now) + Settled(es[1..], ids, status, now)
  }

  /** The cache after one accepted command: prune, keep a live first write, evict the oldest. */
  ghost function Recorded(es: seq<Outcome>, e: Outcome, now: int, capacity: nat): seq<Outcome> {
    var live := Live(es, now);
    if Has(live, e.commandId) then live else Newest(live + [e], capacity)
  }

  // ---------------------------------------------------------------- list facts

  lemma {:induction false} LiveConcat(a: seq<Outcome>, b: seq<Outcome>, now: int)
    ensures Live(a + b, now) == Live(a, now) + Live(b, now)
  {
    if a == [] {
      assert a + b == b;
    } else {
      assert (a + b)[1..] == a[1..] + b;
      LiveConcat(a[1..], b, now);
    }
  }

  lemma {:induction false} LiveMembers(es: seq<Outcome>, now: int)
    ensures forall e :: e in Live(es, now) <==> e in es && !Expired(e, now)
  {
    if es != [] {
      LiveMembers(es[1..], now);
      assert es == [es[0]] + es[1..];
    }
  }

  lemma {:induction false} LiveOfLive(es: seq<Outcome>, a: int, b: int)
    requires a <= b
    ensures Live(Live(es, a), b) == Live(es, b)
  {
    if es != [] {
      LiveOfLive(es[1..], a, b);
      if !Expired(es[0], a) {
        assert Live(es, a)[1..] == Live(es[1..], a);
      } else {
        assert Live(es, a) == Live(es[1..], a);
      }
    }
  }

  lemma {:induction false} LiveOrigins(es: seq<Outcome>, now: int)
    ensures Live(Origins(es), now) == Origins(Live(es, now))
  {
    if es != [] {
      LiveOrigins(es[1..], now);
      assert Origins(es)[1..] == Origins(es[1..]);
      if !Expired(es[0], now) {
        assert Live(es, now)[1..] == Live(es[1..], now);
      } else {
        assert Live(es, now) == Live(es[1..], now);
        assert Live(Origins(es), now) == Live(Origins(es[1..]), now);
      }
    }
  }

  lemma OriginsConcat(a: seq<Outcome>, b: seq<Outcome>)
    ensures Origins(a + b) == Origins(a) + Origins(b)
  {
  }

  /** With expiries in order the unexpired entries are a suffix. */
  lemma {:induction false} LiveIsSuffix(es: seq<Outcome>, now: int) returns (k: nat)
    requires ByExpiry(es)
    ensures k <= |es| && Live(es, now) == es[k..]
    ensures forall i :: 0 <= i < |es| ==> (Expired(es[i], now) <==> i < k)
  {
    if es == [] {
      k := 0;
    } else if Expired(es[0], now) {
      k := LiveIsSuffix(es[1..], now);
      assert Live(es, now) == Live(es[1..], now);
      k := k + 1;
      assert es[k..] == es[1..][k - 1..];
      forall i | 0 <= i < |es| ensures Expired(es[i], now) <==> i < k {
        if i > 0 { assert es[i] == es[1..][i - 1]; }
      }
    } else {
      k := 0;
      AllLive(es, now);
    }
  }

  lemma {:induction false} AllLive(es: seq<Outcome>, now: int)
    requires forall i :: 0 <= i < |es| ==> !Expired(es[i], now)
    ensures Live(es, now) == es
  {
    if es != [] {
      AllLive(es[1..], now);
    }
  }

  lemma {:induction false} LiveOfNewest(es: seq<Outcome>, n: nat, now: int)
    requires ByExpiry(es)
    ensures Live(Newest(es, n), now) == Newest(Live(es, now), n)
  {
    var k := LiveIsSuffix(es, now);
    var d := if |es| <= n then 0 else |es| - n;
    assert Newest(es, n) == es[d..];
    var m := LiveIsSuffix(es[d..], now);
    if m < |es[d..]| { assert !Expired(es[d..][m], now) && es[d..][m] == es[d + m]; }
    if m > 0 { assert Expired(es[d..][m - 1], now) && es[d..][m - 1] == es[d + m - 1]; }
    if k < |es| && d <= k { assert es[d..][k - d] == es[k]; }
    assert es[d..][m..] == es[d + m..];
    assert Newest(es[k..], n) == es[if |es| - k <= n then k else |es| - n..];
  }

  lemma NewestOfAppend<T>(a: seq<T>, b: seq<T>, n: nat)
    ensures Newest(Newest(a, n) + b, n) == Newest(a + b, n)
  {
  }

  lemma {:induction false} SettledConcat(a: seq<Outcome>, b: seq<Outcome>, ids: set<string>, status: Status, now: int)
    ensures Settled(a + b, ids, status, now) == Settled(a, ids, status, now) + Settled(b, ids, status, now)
  {
    if a == [] {
      assert a + b == b;
    } else {
      assert (a + b)[1..] == a[1..] + b;
      SettledConcat(a[1..], b, ids, status, now);
    }
  }

  lemma {:induction false} SettledElsewhere(es: seq<Outcome>, ids: set<string>, status: Status, now: int)
    requires forall i :: 0 <= i < |es| ==> es[i].commandId !in ids
    ensures Settled(es, ids, status, now) == es
  {
    if es != [] {
      SettledElsewhere(es[1..], ids, status, now);
    }
  }

  lemma {:induction false} SettledAt(before: seq<Outcome>, e: Outcome, after: seq<Outcome>, status: Status, now: int)
    requires forall i :: 0 <= i < |before| ==> before[i].commandId != e.commandId
    requires forall i :: 0 <= i < |after| ==> after[i].commandId != e.commandId
    ensures Settled(before + ([e] + after), {e.commandId}, status, now)
      == before + (SettledEntry(e, {e.commandId}, status, now) + after)
  {
    var ids := {e.commandId};
    SettledConcat(before, [e] + after, ids, status, now);
    SettledConcat([e], after, ids, status, now);
    SettledSingle(e, ids, status, now);
    SettledElsewhere(before, ids, status, now);
    SettledElsewhere(after, ids, status, now);
  }

  lemma SettledAtIndex(es: seq<Outcome>, i: nat, status: Status, now: int)
    requires DistinctIds(es) && i < |es|
    ensures Settled(es, {es[i].commandId}, status, now)
      == es[..i] + (SettledEntry(es[i], {es[i].commandId}, status, now) + es[i + 1..])
  {
    SettledAt(es[..i], es[i], es[i + 1..], status, now);
    assert es == es[..i] + ([es[i]] + es[i + 1..]);
  }

  lemma SettledSingle(e: Outcome, ids: set<string>, status: Status, now: int)
    ensures Settled([e], ids, status, now) == SettledEntry(e, ids, status, now)
  {
    assert [e][1..] == [];
  }

  lemma SettledEntryTwice(e: Outcome, a: set<string>, b: set<string>, status: Status, now: int)
    ensures Settled(SettledEntry(e, a, status, now), b, status, now) == SettledEntry(e, a + b, status, now)
  {
    var head := SettledEntry(e, a, status, now);
    if head != [] {
      assert head == [head[0]];
      SettledSingle(head[0], b, status, now);
    }
  }

  /** Settling in two rounds at one instant is settling once. */
  lemma {:induction false} SettledTwice(es: seq<Outcome>, a: set<string>, b: set<string>, status: Status, now: int)
    ensures Settled(Settled(es, a, status, now), b, status, now) == Settled(es, a + b, status, now)
  {
    if es != [] {
      SettledConcat(SettledEntry(es[0], a, status, now), Settled(es[1..], a, status, now), b, status, now);
      SettledEntryTwice(es[0], a, b, status, now);
      SettledTwice(es[1..], a, b, status, now);
    }
  }

  /** Settling only ever drops expired entries and never rewrites an origin. */
  lemma {:induction false} SettledKeepsLiveOrigins(es: seq<Outcome>, ids: set<string>, status: Status, now: int, later: int)
    requires now <= later
    ensures Origins(Live(Settled(es, ids, status, now), later)) == Origins(Live(es, later))
  {
    if es != [] {
      var head, rest := SettledEntry(es[0], ids, status, now), Settled(es[1..], ids, status, now);
      SettledKeepsLiveOrigins(es[1..], ids, status, now, later);
      LiveConcat(head, rest, later);
      LiveConcat([es[0]], es[1..], later);
      assert es == [es[0]] + es[1..];
      OriginsConcat(Live(head, later), Live(rest, later));
      OriginsConcat(Live([es[0]], later), Live(es[1..], later));
      LiveSingle(es[0], later);
      if head != [] {
        LiveSingle(head[0], later);
        assert head == [head[0]];
      }
    }
  }

  lemma LiveSingle(e: Outcome, now: int)
    ensures Live([e], now) == if Expired(e, now) then [] else [e]
  {
    assert [e][1..] == [];
  }

  lemma {:induction false} SettledMembers(es: seq<Outcome>, ids: set<string>, status: Status, now: int)
    ensures forall e :: e in Settled(es, ids, status, now) ==>
      exists o :: o in es && Origin(o) == Origin(e)
        && (if o.commandId in ids then !Expired(o, now) && e.status == status else e == o)
  {
    if es != [] {
      SettledMembers(es[1..], ids, status, now);
      forall e | e in Settled(es, ids, status, now)
        ensures exists o :: (o in es && Origin(o) == Origin(e)
          && (if o.commandId in ids then !Expired(o, now) && e.status == status else e == o))
      {
        if e in Settled(es[1..], ids, status, now) {
          var o :| o in es[1..] && Origin(o) == Origin(e)
            && (if o.commandId in ids then !Expired(o, now) && e.status == status else e == o);
          assert o in es;
        } else {
          assert es[0] in es && Origin(es[0]) == Origin(e);
        }
      }
    }
  }

  lemma {:induction false} DistinctAfterSettling(es: seq<Outcome>, ids: set<string>, status: Status, now: int)
    requires DistinctIds(es)
    ensures DistinctIds(Settled(es, ids, status, now))
  {
    if es != [] {
      var rest := Settled(es[1..], ids, status, now);
      DistinctAfterSettling(es[1..], ids, status, now);
      SettledMembers(es[1..], ids, status, now);
      forall j | 0 <= j < |rest| ensures rest[j].commandId != es[0].commandId {
        assert rest[j] in rest;
        var o :| o in es[1..] && Origin(o) == Origin(rest[j]);
        assert o.commandId == Origin(o).commandId;
      }
    }
  }

  lemma {:induction false} DistinctAfterPruning(es: seq<Outcome>, now: int)
    requires DistinctIds(es)
    ensures DistinctIds(Live(es, now))
  {
    if es != [] {
      var rest := Live(es[1..], now);
      DistinctAfterPruning(es[1..], now);
      LiveMembers(es[1..], now);
      forall j | 0 <= j < |rest| ensures rest[j].commandId != es[0].commandId {
        assert rest[j] in rest && rest[j] in es[1..];
      }
    }
  }

  lemma DistinctAfterRecording(es: seq<Outcome>, e: Outcome, now: int, capacity: nat)
    requires DistinctIds(es)
    ensures DistinctIds(Recorded(es, e, now, capacity))
    ensures forall r :: r in Recorded(es, e, now, capacity) ==> r == e || (r in es && !Expired(r, now))
  {
    DistinctAfterPruning(es, now);
    LiveMembers(es, now);
  }

  lemma {:induction false} SettledShape(es: seq<Outcome>, ids: set<string>, status: Status, now: int)
    requires DistinctIds(es) && ByExpiry(es)
    ensures |Settled(es, ids, status, now)| <= |es|
    ensures DistinctIds(Settled(es, ids, status, now)) && ByExpiry(Settled(es, ids, status, now))
  {
    if es != [] {
      SettledShape(es[1..], ids, status, now);
      SettledRest(es, ids, status, now);
    }
  }

  /** What is settled after the first entry has its own ids and no earlier expiry. */
  lemma SettledRest(es: seq<Outcome>, ids: set<string>, status: Status, now: int)
    requires DistinctIds(es) && ByExpiry(es) && es != []
    ensures var rest := Settled(es[1..], ids, status, now);
      forall j :: 0 <= j < |rest| ==>
        rest[j].commandId != es[0].commandId && es[0].expiresAt <= rest[j].expiresAt
  {
    var rest := Settled(es[1..], ids, status, now);
    SettledMembers(es[1..], ids, status, now);
    forall j | 0 <= j < |rest|
      ensures rest[j].commandId != es[0].commandId && es[0].expiresAt <= rest[j].expiresAt
    {
      assert rest[j] in rest;
      var o :| o in es[1..] && Origin(o) == Origin(rest[j]);
      assert o.commandId == Origin(o).commandId && o.expiresAt == Origin(o).expiresAt;
    }
  }

  // ---------------------------------------------------------- runs of the cache

  datatype Op =
    | RecordCommand(entry: Outcome)
    | SettleCommands(ids: set<string>, status: Status)
    | QueryCommand

  /** The cache next to the log of every command it really inserted. */
  datatype Traced = Traced(entries: seq<Outcome>, log: seq<Outcome>, clock: int)

  ghost function CacheStep(t: Traced, op: Op, now: int, ttl: nat, capacity: nat): Traced {
    match op
    case RecordCommand(entry) =>
      var e := entry.(status := Accepted, updatedAt := now, expiresAt := now + ttl);
      Traced(Recorded(t.entries, e, now, capacity),
             if Has(Live(t.entries, now), e.commandId) then t.log else t.log + [Origin(e)],
             now)
    case SettleCommands(ids, status) => Traced(Settled(t.entries, ids, status, now), t.log, now)
    case QueryCommand => Traced(Live(t.entries, now), t.log, now)
  }

  /** From now on, whatever the clock says, the unexpired cache is the unexpired
      part of the last `capacity` commands of the log. */
  ghost predicate Tracks(t: Traced, ttl: nat, capacity: nat) {
    && ByExpiry(t.log)
    && (forall i :: 0 <= i < |t.log| ==> t.log[i].expiresAt <= t.clock + ttl && Origin(t.log[i]) == t.log[i])
    && DistinctIds(t.entries) && ByExpiry(t.entries) && |t.entries| <= capacity
    && (forall i :: 0 <= i < |t.entries| ==> t.entries[i].expiresAt <= t.clock + ttl)
    && forall later {:trigger Live(t.log, later)} :: t.clock <= later ==>
         Origins(Live(t.entries, later)) == Newest(Live(t.log, later), capacity)
  }

  lemma LiveShape(es: seq<Outcome>, now: int)
    requires DistinctIds(es) && ByExpiry(es)
    ensures DistinctIds(Live(es, now)) && ByExpiry(Live(es, now)) && |Live(es, now)| <= |es|
    ensures forall i :: 0 <= i < |Live(es, now)| ==> Live(es, now)[i] in es
  {
    var k := LiveIsSuffix(es, now);
  }

  ghost predicate Shaped(es: seq<Outcome>, horizon: int) {
    && DistinctIds(es) && ByExpiry(es)
    && forall i :: 0 <= i < |es| ==> es[i].expiresAt <= horizon
  }

  lemma SuffixShaped(es: seq<Outcome>, k: nat, horizon: int)
    requires Shaped(es, horizon) && k <= |es|
    ensures Shaped(es[k..], horizon)
  {
  }

  lemma AppendShaped(live: seq<Outcome>, e: Outcome)
    requires Shaped(live, e.expiresAt) && !Has(live, e.commandId)
    ensures Shaped(live + [e], e.expiresAt)
  {
  }

  lemma {:induction false} RecordedShape(es: seq<Outcome>, e: Outcome, now: int, capacity: nat)
    requires Shaped(es, e.expiresAt) && |es| <= capacity
    ensures Shaped(Recorded(es, e, now, capacity), e.expiresAt) && |Recorded(es, e, now, capacity)| <= capacity
    ensures !Has(Live(es, now), e.commandId) ==> ByExpiry(Live(es, now) + [e])
  {
    var k := LiveIsSuffix(es, now);
    SuffixShaped(es, k, e.expiresAt);
    if !Has(Live(es, now), e.commandId) {
      var whole := Live(es, now) + [e];
      AppendShaped(Live(es, now), e);
      if |whole| > capacity {
        SuffixShaped(whole, |whole| - capacity, e.expiresAt);
      }
    }
  }

  lemma {:induction false} RecordTracks(t: Traced, entry: Outcome, now: int, ttl: nat, capacity: nat)
    requires Tracks(t, ttl, capacity) && t.clock <= now
    ensures Tracks(CacheStep(t, RecordCommand(entry), now, ttl, capacity), ttl, capacity)
  {
    var u := CacheStep(t, RecordCommand(entry), now, ttl, capacity);
    var e := entry.(status := Accepted, updatedAt := now, expiresAt := now + ttl);
    RecordedShape(t.entries, e, now, capacity);
    forall later | now <= later
      ensures Origins(Live(u.entries, later)) == Newest(Live(u.log, later), capacity)
    {
      LiveOfLive(t.entries, now, later);
      if !Has(Live(t.entries, now), e.commandId) {
        AppendTracks(Live(t.entries, now), t.log, e, later, capacity);
      }
    }
  }

  lemma {:induction false} AppendTracks(live: seq<Outcome>, log: seq<Outcome>, e: Outcome, later: int, capacity: nat)
    requires ByExpiry(live + [e])
    requires Origins(Live(live, later)) == Newest(Live(log, later), capacity)
    ensures Origins(Live(Newest(live + [e], capacity), later)) == Newest(Live(log + [Origin(e)], later), capacity)
  {
    var tail := Live([e], later);
    LiveOfNewest(live + [e], capacity, later);
    LiveConcat(live, [e], later);
    LiveConcat(log, [Origin(e)], later);
    LiveSingle(e, later);
    LiveSingle(Origin(e), later);
    OriginsConcat(Live(live, later), tail);
    NewestOrigins(Live(live, later) + tail, capacity);
    NewestOfAppend(Live(log, later), Origins(tail), capacity);
  }

  lemma NewestOrigins(es: seq<Outcome>, n: nat)
    ensures Origins(Newest(es, n)) == Newest(Origins(es), n)
  {
  }

  lemma {:induction false} StepTracks(t: Traced, op: Op, now: int, ttl: nat, capacity: nat)
    requires Tracks(t, ttl, capacity) && t.clock <= now
    ensures Tracks(CacheStep(t, op, now, ttl, capacity), ttl, capacity)
  {
    var u := CacheStep(t, op, now, ttl, capacity);
    match op
    case RecordCommand(entry) => RecordTracks(t, entry, now, ttl, capacity);
    case SettleCommands(ids, status) =>
      SettledShape(t.entries, ids, status, now);
      SettledMembers(t.entries, ids, status, now);
      forall i | 0 <= i < |u.entries| ensures u.entries[i].expiresAt <= u.clock + ttl {
        assert u.entries[i] in Settled(t.entries, ids, status, now);
        var o :| o in t.entries && Origin(o) == Origin(u.entries[i]);
        assert o.expiresAt == Origin(o).expiresAt;
      }
      forall later | now <= later
        ensures Origins(Live(u.entries, later)) == Newest(Live(u.log, later), capacity)
      {
        SettledKeepsLiveOrigins(t.entries, ids, status, now, later);
      }
    case QueryCommand =>
      LiveShape(t.entries, now);
      forall later | now <= later
        ensures Origins(Live(u.entries, later)) == Newest(Live(u.log, later), capacity)
      {
        LiveOfLive(t.entries, now, later);
      }
  }

  /** The state after a run from the empty cache, operations stamped with a clock. */
  ghost function CacheRun(ops: seq<(Op, int)>, ttl: nat, capacity: nat): Traced {
    if ops == [] then Traced([], [], 0)
    else CacheStep(CacheRun(ops[..|ops| - 1], ttl, capacity), ops[|ops| - 1].0, ops[|ops| - 1].1, ttl, capacity)
  }

  ghost predicate ClockMonotone(ops: seq<(Op, int)>) {
    && (forall i :: 0 <= i < |ops| ==> 0 <= ops[i].1)
    && forall i, j :: 0 <= i < j < |ops| ==> ops[i].1 <= ops[j].1
  }

  lemma {:induction false} RunTracks(ops: seq<(Op, int)>, ttl: nat, capacity: nat)
    requires ClockMonotone(ops)
    ensures Tracks(CacheRun(ops, ttl, capacity), ttl, capacity)
    ensures CacheRun(ops, ttl, capacity).clock == if ops == [] then 0 else ops[|ops| - 1].1
  {
    if ops != [] {
      var before := ops[..|ops| - 1];
      RunTracks(before, ttl, capacity);
      StepTracks(CacheRun(before, ttl, capacity), ops[|ops| - 1].0, ops[|ops| - 1].1, ttl, capacity);
    }
  }

  /** Right after a command was recorded, the unexpired part of the cache is the longest
      suffix of the log that is unexpired (from `k` on) and no longer than the capacity;
      and it is all of the cache exactly when commands live for some time at all, or the
      cache keeps none. */
  lemma {:induction false} AfterRecordCacheIsLogSuffix(ops: seq<(Op, int)>, entry: Outcome, now: int,
                                                       ttl: nat, capacity: nat)
    returns (k: nat)
    requires ClockMonotone(ops + [(RecordCommand(entry), now)])
    ensures var t := CacheRun(ops + [(RecordCommand(entry), now)], ttl, capacity);
      && k <= |t.log|
      && (forall i :: 0 <= i < |t.log| ==> (Expired(t.log[i], now) <==> i < k))
      && Origins(Live(t.entries, now)) == Newest(t.log[k..], capacity)
      && (Live(t.entries, now) == t.entries <==> ttl > 0 || capacity == 0)
  {
    var all := ops + [(RecordCommand(entry), now)];
    RunTracks(all, ttl, capacity);
    k := SuffixOfTracked(CacheRun(all, ttl, capacity), now, ttl, capacity);
    RunEndsWithRecord(ops, entry, now, ttl, capacity);
    var e := entry.(status := Accepted, updatedAt := now, expiresAt := now + ttl);
    var es, r := CacheRun(ops, ttl, capacity).entries, CacheRun(all, ttl, capacity).entries;
    if ttl > 0 {
      RecordLeavesNoneExpired(es, r, e, now, capacity);
    } else {
      ZeroTtlExpiresAll(ops, RecordCommand(entry), now, capacity);
      RecordLeavesOnlyExpired(es, r, e, now, capacity);
    }
  }

  /** Without time to live, whatever is in the cache when the next operation comes has
      expired. */
  lemma ZeroTtlExpiresAll(ops: seq<(Op, int)>, op: Op, now: int, capacity: nat)
    requires ClockMonotone(ops + [(op, now)])
    ensures forall e :: e in CacheRun(ops, 0, capacity).entries ==> Expired(e, now)
  {
    var all := ops + [(op, now)];
    assert forall i :: 0 <= i < |ops| ==> all[i] == ops[i];
    assert all[|ops|].1 == now;
    RunTracks(ops, 0, capacity);
  }

  lemma RecordLeavesOnlyExpired(es: seq<Outcome>, r: seq<Outcome>, e: Outcome, now: int, capacity: nat)
    requires (forall o :: o in es ==> Expired(o, now)) && Expired(e, now) && r == Recorded(es, e, now, capacity)
    ensures Live(r, now) == [] && (r == [] <==> capacity == 0)
  {
    LiveMembers(es, now);
    assert Live(es, now) != [] ==> Live(es, now)[0] in Live(es, now);
    LiveSingle(e, now);
  }

  lemma SuffixOfTracked(t: Traced, now: int, ttl: nat, capacity: nat) returns (k: nat)
    requires Tracks(t, ttl, capacity) && t.clock <= now
    ensures k <= |t.log| && (forall i :: 0 <= i < |t.log| ==> (Expired(t.log[i], now) <==> i < k))
    ensures Origins(Live(t.entries, now)) == Newest(t.log[k..], capacity)
  {
    k := LiveIsSuffix(t.log, now);
  }

  lemma {:induction false} RunEndsWithRecord(ops: seq<(Op, int)>, entry: Outcome, now: int, ttl: nat, capacity: nat)
    ensures CacheRun(ops + [(RecordCommand(entry), now)], ttl, capacity).entries
      == Recorded(CacheRun(ops, ttl, capacity).entries,
                  entry.(status := Accepted, updatedAt := now, expiresAt := now + ttl), now, capacity)
  {
    var all := ops + [(RecordCommand(entry), now)];
    assert all[..|all| - 1] == ops;
  }

  lemma {:induction false} RecordLeavesNoneExpired(es: seq<Outcome>, r: seq<Outcome>, e: Outcome, now: int, capacity: nat)
    requires !Expired(e, now) && r == Recorded(es, e, now, capacity)
    ensures Live(r, now) == r
  {
    LiveMembers(es, now);
    forall i | 0 <= i < |r| ensures !Expired(r[i], now) {
      assert r[i] in Live(es, now) || r[i] == e;
    }
    AllLive(r, now);
  }

  /** A recorded command that has not expired is in the cache exactly when fewer
      than `capacity` commands were recorded after it. */
  lemma LiveCommandIsMissedOnlyWhenCrowdedOut(t: Traced, i: nat, ttl: nat, capacity: nat, now: int)
    requires Tracks(t, ttl, capacity) && t.clock <= now
    requires i < |t.log| && !Expired(t.log[i], now)
    requires forall j :: i < j < |t.log| ==> t.log[j].commandId != t.log[i].commandId
    ensures (exists e :: e in Live(t.entries, now) && e.commandId == t.log[i].commandId)
        <==> |t.log| - 1 - i < capacity
    ensures |t.log| - 1 - i < capacity ==>
        exists e :: e in Live(t.entries, now) && Origin(e) == t.log[i]
  {
    var k := LiveIsSuffix(t.log, now);
    var live := Live(t.entries, now);
    var kept := Newest(Live(t.log, now), capacity);
    assert Origins(live) == kept;
    var d := |t.log| - |kept|;
    assert kept == t.log[d..];
    if |t.log| - 1 - i < capacity {
      assert d <= i;
      assert kept[i - d] == t.log[i] == Origin(live[i - d]);
      assert live[i - d] in live && live[i - d].commandId == t.log[i].commandId;
    } else {
      forall m | 0 <= m < |live| ensures live[m].commandId != t.log[i].commandId {
        assert Origin(live[m]) == kept[m] == t.log[d + m];
      }
    }
  }

  // ------------------------------------------------------------------ the class

  class OutcomeCache {
    const ttl: nat
    const capacity: nat
    var entries: seq<Outcome>

    constructor (ttl: nat, capacity: nat)
      ensures this.ttl == ttl && this.capacity == capacity && entries == []
    {
      this.ttl := ttl;
      this.capacity := capacity;
      entries := [];
    }

    /** `recordOutcome`: first live write wins, then the oldest entries make room. */
    method Record(userId: string, commandId: string, requestId: string, instanceId: string, kind: Kind, now: int)
      modifies this
      ensures entries == Recorded(old(entries),
        Outcome(userId, commandId, requestId, instanceId, kind, Accepted, now, now + ttl), now, capacity)
    {
      PruneExpired(now);
      var at := Find(commandId);
      if at.Some? {
        return;
      }
      entries := entries + [Outcome(userId, commandId, requestId, instanceId, kind, Accepted, now, now + ttl)];
      ghost var full := entries;
      while |entries| > capacity
        invariant |full| >= |entries| && entries == full[|full| - |entries|..]
        invariant |entries| < capacity ==> entries == full
      {
        entries := entries[1..];
      }
    }

    /** `settleOutcome`: advance one live entry, drop an expired one. */
    method Settle(commandId: string, status: Status, now: int)
      requires DistinctIds(entries)
      modifies this
      ensures entries == Settled(old(entries), {commandId}, status, now)
    {
      var at := Find(commandId);
      if at.None? {
        SettledElsewhere(entries, {commandId}, status, now);
        return;
      }
      var i := at.value;
      SettledAtIndex(entries, i, status, now);
      if now >= entries[i].expiresAt {
        entries := entries[..i] + entries[i + 1..];
      } else {
        ghost var split := entries[..i] + ([entries[i].(status := status, updatedAt := now)] + entries[i + 1..]);
        entries := entries[i := entries[i].(status := status, updatedAt := now)];
        assert entries == split;
      }
    }

    /** `outcomeFor`: an owner-scoped lookup that sweeps expired entries first. */
    method OutcomeFor(userId: string, commandId: string, now: int) returns (found: Option<Outcome>)
      modifies this
      ensures entries == Live(old(entries), now)
      ensures found.Some? ==> (found.value in entries && found.value.userId == userId
        && found.value.commandId == commandId && !Expired(found.value, now))
      ensures found.None? && DistinctIds(entries) ==>
        forall e :: e in entries && e.commandId == commandId ==> e.userId != userId
    {
      ghost var was := entries;
      PruneExpired(now);
      LiveMembers(was, now);
      var at := Find(commandId);
      if at.None? || entries[at.value].userId != userId || now >= entries[at.value].expiresAt {
        assert at.Some? ==> entries[at.value] in Live(was, now);
        return None;
      }
      return Some(entries[at.value]);
    }

    method PruneExpired(now: int)
      modifies this
      ensures entries == Live(old(entries), now)
    {
      ghost var was := entries;
      var i := 0;
      while i < |entries|
        invariant 0 <= i <= |entries|
        invariant Live(was, now) == entries[..i] + Live(entries[i..], now)
        decreases |entries| - i
      {
        assert entries[i..][1..] == entries[i + 1..];
        if now >= entries[i].expiresAt {
          ghost var rest := entries[i + 1..];
          entries := entries[..i] + entries[i + 1..];
          assert entries[i..] == rest;
        } else {
          assert entries[..i + 1] == entries[..i] + [entries[i]];
          i := i + 1;
        }
      }
      assert entries[..i] == entries && entries[i..] == [];
    }

    method Find(commandId: string) returns (at: Option<nat>)
      ensures at.Some? ==> at.value < |entries| && entries[at.value].commandId == commandId
      ensures at.Some? <==> Has(entries, commandId)
    {
      var i := 0;
      while i < |entries|
        invariant 0 <= i <= |entries|
        invariant forall j :: 0 <= j < i ==> entries[j].commandId != commandId
      {
        if entries[i].commandId == commandId {
          return Some(i);
        }
        i := i + 1;
      }
      return None;
    }
  }
}
