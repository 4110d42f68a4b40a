/** The gateway's requests in flight to the plugins. The five maps of the registry
    (catalogs, snapshots, answers, decisions, prompts) are one map here, keyed by
    which of the five it is. */
module ControlFlights {
  import opened Prelude

  datatype Slot =
    | CatalogSlot(requestId: string)
    | SnapshotSlot(uid: nat, requestId: string)
    | AnswerSlot(uid: nat, commandId: string)
    | DecideSlot(uid: nat, commandId: string)
    | PromptSlot(uid: nat, commandId: string)

  /** Answers to questions and decisions on permissions are commands. */
  function CommandSlot(kind: Kind, c: nat, commandId: string): Slot {
    match kind
    case Question => AnswerSlot(c, commandId)
    case Permission => DecideSlot(c, commandId)
  }

  /** One entry: where it was sent, what it is about, and the timer it holds. */
  datatype Flight = Flight(connection: nat, requestId: string, timer: nat)

  datatype Cause = ByResult(connection: nat) | ByTimer | ByDisconnect

  datatype Settlement = Settlement(flight: Flight, cause: Cause)

  /** `timers` are the timeouts that are armed; `settled` is the history of every
      entry that was removed, by the handle of its timer. */
  datatype Flights = Flights(
    open: map<Slot, Flight>,
    timers: map<nat, Slot>,
    settled: map<nat, Settlement>,
    nextTimer: nat)

  const EMPTY := Flights(map[], map[], map[], 0)

  ghost predicate TimersExact(f: Flights) {
    && (forall s :: s in f.open ==> f.open[s].timer in f.timers && f.timers[f.open[s].timer] == s)
    && (forall h :: h in f.timers ==> f.timers[h] in f.open && f.open[f.timers[h]].timer == h)
  }

  /** Every handle ever armed is either live or settled, and never both. */
  ghost predicate SettledOnce(f: Flights) {
    && (forall h :: h in f.timers || h in f.settled <==> 0 <= h < f.nextTimer)
    && (forall h :: h in f.timers ==> h !in f.settled)
    && (forall h :: h in f.settled ==> f.settled[h].flight.timer == h)
    && (forall h :: h in f.settled && f.settled[h].cause.ByResult? ==>
          f.settled[h].cause.connection == f.settled[h].flight.connection)
  }

  ghost predicate KeyedByConnection(f: Flights) {
    forall s :: s in f.open && !s.CatalogSlot? ==> s.uid == f.open[s].connection
  }

  /** At most one answer, and one decision, is in flight for a (connection, request). */
  ghost predicate OnePerRequest(f: Flights) {
    forall s, t :: s in f.open && t in f.open && SameCommandKind(s, t) && SameRequest(f.open[s], f.open[t]) ==> s == t
  }

  predicate SameCommandKind(s: Slot, t: Slot) {
    (s.AnswerSlot? && t.AnswerSlot?) || (s.DecideSlot? && t.DecideSlot?)
  }

  ghost predicate Valid(f: Flights) {
    TimersExact(f) && SettledOnce(f) && KeyedByConnection(f) && OnePerRequest(f)
  }

  predicate SameRequest(a: Flight, b: Flight) {
    a.connection == b.connection && a.requestId == b.requestId
  }

  function Issue(f: Flights, s: Slot, connection: nat, requestId: string): Flights {
    Flights(f.open[s := Flight(connection, requestId, f.nextTimer)], f.timers[f.nextTimer := s],
            f.settled, f.nextTimer + 1)
  }

  function Close(f: Flights, s: Slot, cause: Cause): Flights
    requires s in f.open
  {
    var h := f.open[s].timer;
    Flights(f.open - {s}, f.timers - {h}, f.settled[h := Settlement(f.open[s], cause)], f.nextTimer)
  }

  predicate HeldBy(f: Flights, h: nat, gone: set<nat>) {
    h in f.timers && f.timers[h] in f.open && f.open[f.timers[h]].connection in gone
  }

  function Unsent(f: Flights, gone: set<nat>): map<Slot, Flight> {
    map s | s in f.open && f.open[s].connection !in gone :: f.open[s]
  }

  function Armed(f: Flights, gone: set<nat>): map<nat, Slot> {
    map h | h in f.timers && !HeldBy(f, h, gone) :: f.timers[h]
  }

  function Abandoned(f: Flights, gone: set<nat>): map<nat, Settlement> {
    map h | h in f.timers && HeldBy(f, h, gone) :: Settlement(f.open[f.timers[h]], ByDisconnect)
  }

  /** Everything sent to the connections in `gone` is removed, its timer disarmed. */
  function Drop(f: Flights, gone: set<nat>): Flights {
    Flights(Unsent(f, gone), Armed(f, gone), f.settled + Abandoned(f, gone), f.nextTimer)
  }

  /** The outcome-carrying commands in flight to the connections in `gone`. */
  function CommandsOf(f: Flights, gone: set<nat>): set<string> {
    set s | s in f.open && f.open[s].connection in gone && (s.AnswerSlot? || s.DecideSlot?) :: s.commandId
  }

  lemma IssueKeepsValid(f: Flights, s: Slot, connection: nat, requestId: string)
    requires Valid(f) && s !in f.open
    requires s.CatalogSlot? || s.uid == connection
    requires forall t :: t in f.open && SameCommandKind(s, t) && f.open[t].connection == connection ==>
               f.open[t].requestId != requestId
    ensures Valid(Issue(f, s, connection, requestId))
  {
    IssueKeepsTimers(f, s, connection, requestId);
  }

  lemma IssueKeepsTimers(f: Flights, s: Slot, connection: nat, requestId: string)
    requires TimersExact(f) && SettledOnce(f) && s !in f.open
    ensures TimersExact(Issue(f, s, connection, requestId)) && SettledOnce(Issue(f, s, connection, requestId))
  {
  }

  lemma CloseKeepsValid(f: Flights, s: Slot, cause: Cause)
    requires Valid(f) && s in f.open
    requires cause.ByResult? ==> cause.connection == f.open[s].connection
    ensures Valid(Close(f, s, cause))
  {
  }

  lemma DropKeepsValid(f: Flights, gone: set<nat>)
    requires Valid(f)
    ensures Valid(Drop(f, gone))
  {
  }

  lemma HeldByEither(f: Flights, h: nat, a: set<nat>, b: set<nat>)
    requires TimersExact(f)
    ensures HeldBy(Drop(f, a), h, b) <==> HeldBy(f, h, b) && !HeldBy(f, h, a)
    ensures HeldBy(f, h, a + b) <==> HeldBy(f, h, a) || HeldBy(f, h, b)
  {
  }

  lemma ArmedTwice(f: Flights, a: set<nat>, b: set<nat>)
    requires TimersExact(f)
    ensures Armed(Drop(f, a), b) == Armed(f, a + b)
  {
    forall h ensures h in Armed(Drop(f, a), b) <==> h in Armed(f, a + b) {
      HeldByEither(f, h, a, b);
    }
  }

  lemma UnsentTwice(f: Flights, a: set<nat>, b: set<nat>)
    ensures Unsent(Drop(f, a), b) == Unsent(f, a + b)
  {
  }

  lemma DropTwice(f: Flights, a: set<nat>, b: set<nat>)
    requires TimersExact(f)
    ensures Drop(Drop(f, a), b) == Drop(f, a + b)
  {
    UnsentTwice(f, a, b);
    ArmedTwice(f, a, b);
    AbandonedTwice(f, a, b);
  }

  lemma AbandonedTwice(f: Flights, a: set<nat>, b: set<nat>)
    requires TimersExact(f)
    ensures f.settled + Abandoned(f, a) + Abandoned(Drop(f, a), b) == f.settled + Abandoned(f, a + b)
  {
    AbandonedUnion(f, a, b);
    MapPlusAssociative(f.settled, Abandoned(f, a), Abandoned(Drop(f, a), b));
  }

  lemma AbandonedAt(f: Flights, a: set<nat>, b: set<nat>, h: nat)
    requires TimersExact(f)
    ensures h in Abandoned(f, a + b) <==> h in Abandoned(f, a) || h in Abandoned(Drop(f, a), b)
    ensures h in Abandoned(f, a) ==> Abandoned(f, a + b)[h] == Abandoned(f, a)[h] && h !in Abandoned(Drop(f, a), b)
    ensures h in Abandoned(Drop(f, a), b) ==> Abandoned(f, a + b)[h] == Abandoned(Drop(f, a), b)[h]
  {
    HeldByEither(f, h, a, b);
  }

  lemma AbandonedUnion(f: Flights, a: set<nat>, b: set<nat>)
    requires TimersExact(f)
    ensures Abandoned(f, a) + Abandoned(Drop(f, a), b) == Abandoned(f, a + b)
  {
    var first, later := Abandoned(f, a), Abandoned(Drop(f, a), b);
    forall h
      ensures h in Abandoned(f, a + b) <==> h in first || h in later
      ensures h in first ==> Abandoned(f, a + b)[h] == first[h] && h !in later
      ensures h in later ==> Abandoned(f, a + b)[h] == later[h]
    {
      AbandonedAt(f, a, b, h);
    }
    MapFromTwo(Abandoned(f, a + b), first, later);
  }

  lemma MapFromTwo<K, V>(m: map<K, V>, a: map<K, V>, b: map<K, V>)
    requires forall x :: x in m <==> x in a || x in b
    requires forall x :: x in a && x !in b ==> m[x] == a[x]
    requires forall x :: x in b ==> m[x] == b[x]
    ensures a + b == m
  {
  }

  lemma MapPlusAssociative<K, V>(a: map<K, V>, b: map<K, V>, c: map<K, V>)
    ensures a + b + c == a + (b + c)
  {
  }

  lemma CommandsTwice(f: Flights, a: set<nat>, b: set<nat>)
    ensures CommandsOf(f, a) + CommandsOf(Drop(f, a), b) == CommandsOf(f, a + b)
  {
    var l, r := CommandsOf(f, a) + CommandsOf(Drop(f, a), b), CommandsOf(f, a + b);
    forall c | c in r ensures c in l {
      var s :| s in f.open && f.open[s].connection in a + b && (s.AnswerSlot? || s.DecideSlot?) && s.commandId == c;
      assert f.open[s].connection in a || s in Drop(f, a).open;
    }
  }

  lemma DropNothing(f: Flights)
    ensures Drop(f, {}) == f
    ensures CommandsOf(f, {}) == {}
  {
    assert Unsent(f, {}) == f.open;
    assert Armed(f, {}) == f.timers;
    assert Abandoned(f, {}) == map[];
    assert f.settled + map[] == f.settled;
  }

  /** Dropping a connection's requests one by one comes to dropping them at once. */
  lemma CloseThenDrop(f: Flights, x: Slot, c: nat)
    requires TimersExact(f) && x in f.open && f.open[x].connection == c
    ensures Drop(Close(f, x, ByDisconnect), {c}) == Drop(f, {c})
    ensures TimersExact(Close(f, x, ByDisconnect))
    ensures CommandsOf(f, {c}) ==
      CommandsOf(Close(f, x, ByDisconnect), {c}) + (if x.AnswerSlot? || x.DecideSlot? then {x.commandId} else {})
  {
    var d := Close(f, x, ByDisconnect);
    assert Unsent(d, {c}) == Unsent(f, {c});
    assert Armed(d, {c}) == Armed(f, {c}) by {
      forall h ensures h in Armed(d, {c}) <==> h in Armed(f, {c}) {
        HeldAfterClose(f, x, c, h);
      }
    }
    AbandonedAfterClose(f, x, c);
    CommandsAfterClose(f, x, c);
  }

  lemma HeldAfterClose(f: Flights, x: Slot, c: nat, h: nat)
    requires TimersExact(f) && x in f.open && f.open[x].connection == c
    ensures HeldBy(Close(f, x, ByDisconnect), h, {c}) <==> HeldBy(f, h, {c}) && h != f.open[x].timer
    ensures HeldBy(f, f.open[x].timer, {c})
  {
  }

  lemma AbandonedAfterClose(f: Flights, x: Slot, c: nat)
    requires TimersExact(f) && x in f.open && f.open[x].connection == c
    ensures Close(f, x, ByDisconnect).settled + Abandoned(Close(f, x, ByDisconnect), {c})
      == f.settled + Abandoned(f, {c})
  {
    var one := map[f.open[x].timer := Settlement(f.open[x], ByDisconnect)];
    var rest := Abandoned(Close(f, x, ByDisconnect), {c});
    AbandonedWhole(f, x, c);
    MapUpdateIsPlus(f.settled, f.open[x].timer, Settlement(f.open[x], ByDisconnect));
    MapPlusAssociative(f.settled, one, rest);
  }

  lemma AbandonedWhole(f: Flights, x: Slot, c: nat)
    requires TimersExact(f) && x in f.open && f.open[x].connection == c
    ensures map[f.open[x].timer := Settlement(f.open[x], ByDisconnect)] + Abandoned(Close(f, x, ByDisconnect), {c})
      == Abandoned(f, {c})
  {
    var rest := Abandoned(Close(f, x, ByDisconnect), {c});
    forall h ensures h in Abandoned(f, {c}) <==> h == f.open[x].timer || h in rest
             ensures h in rest ==> rest[h] == Abandoned(f, {c})[h] {
      AbandonedSplit(f, x, c, h);
    }
    AbandonedSplit(f, x, c, f.open[x].timer);
    MapFromParts(Abandoned(f, {c}), f.open[x].timer, Settlement(f.open[x], ByDisconnect), rest);
  }

  lemma MapFromParts<K, V>(m: map<K, V>, k: K, v: V, rest: map<K, V>)
    requires k in m && m[k] == v && k !in rest
    requires forall x :: x in m <==> x == k || x in rest
    requires forall x :: x in rest ==> rest[x] == m[x]
    ensures map[k := v] + rest == m
  {
  }

  lemma MapUpdateIsPlus<K, V>(m: map<K, V>, k: K, v: V)
    ensures m[k := v] == m + map[k := v]
  {
  }

  lemma AbandonedSplit(f: Flights, x: Slot, c: nat, h: nat)
    requires TimersExact(f) && x in f.open && f.open[x].connection == c
    ensures var rest := Abandoned(Close(f, x, ByDisconnect), {c});
      && (h in Abandoned(f, {c}) <==> h == f.open[x].timer || h in rest)
      && f.open[x].timer !in rest
      && (h in rest ==> rest[h] == Abandoned(f, {c})[h])
      && (h == f.open[x].timer ==> Abandoned(f, {c})[h] == Settlement(f.open[x], ByDisconnect))
  {
    HeldAfterClose(f, x, c, h);
    HeldAfterClose(f, x, c, f.open[x].timer);
  }

  lemma CommandsAfterClose(f: Flights, x: Slot, c: nat)
    requires x in f.open && f.open[x].connection == c
    ensures CommandsOf(f, {c}) ==
      CommandsOf(Close(f, x, ByDisconnect), {c}) + (if x.AnswerSlot? || x.DecideSlot? then {x.commandId} else {})
  {
    var d := Close(f, x, ByDisconnect);
    forall m | m in CommandsOf(f, {c})
      ensures m in CommandsOf(d, {c}) + (if x.AnswerSlot? || x.DecideSlot? then {x.commandId} else {})
    {
      var y :| y in f.open && f.open[y].connection in {c} && (y.AnswerSlot? || y.DecideSlot?) && y.commandId == m;
      assert y == x || y in d.open;
    }
  }

  lemma DropAbsent(f: Flights, c: nat)
    requires forall x :: x in f.open ==> f.open[x].connection != c
    ensures Drop(f, {c}) == f
    ensures CommandsOf(f, {c}) == {}
  {
    assert Unsent(f, {c}) == f.open;
    assert Armed(f, {c}) == f.timers;
    assert Abandoned(f, {c}) == map[];
    assert f.settled + map[] == f.settled;
  }
}
