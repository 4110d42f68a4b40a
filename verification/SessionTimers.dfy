/** The session machine's records and the timers they hold, as values: what the fields
    of a record mean, what a step makes of them, and that the live timers stay exactly
    the handles held. */
module SessionTimers {
  import opened Prelude
  import opened SessionRounds

  /** The fields of a session's record; a `None` status is idle. `idleSince` is the
      instant at which the live debounce timer was set. */
  datatype Fields = Fields(
    status: Option<Active>,
    busySince: Option<int>,
    idleTimer: Option<nat>,
    idleSince: Option<int>,
    pendingElapsedMs: Option<int>,
    heartbeatTimer: Option<nat>,
    terminalSent: bool,
    terminalOutcome: Option<Outcome>,
    pendingActions: set<ActionKey>)

  const BLANK := Fields(None, None, None, None, None, None, false, None, {})

  predicate Coherent(f: Fields) {
    && (f.idleTimer.Some? <==> f.pendingElapsedMs.Some?)
    && (f.idleTimer.Some? <==> f.idleSince.Some?)
    && (f.terminalSent <==> f.terminalOutcome.Some?)
    && (f.status.Some? ==> f.busySince.Some? && f.idleTimer.None?)
    && (f.status.None? && f.busySince.Some? ==> f.idleTimer.Some?)
    && (f.terminalSent ==> f.busySince.None? && f.idleTimer.None?)
  }

  /** The phase the fields stand for. */
  function Meaning(f: Fields): Session
    requires Coherent(f)
  {
    var phase :=
      if f.terminalSent then Over(f.terminalOutcome.value)
      else if f.idleTimer.Some? then Waiting(f.busySince, f.pendingElapsedMs.value, f.idleSince.value)
      else if f.status.Some? then Running(f.busySince.value, f.status.value)
      else Fresh;
    Session(phase, f.pendingActions)
  }

  class SessionState {
    var status: Option<Active>
    var busySince: Option<int>
    var idleTimer: Option<nat>
    ghost var idleSince: Option<int>
    var pendingElapsedMs: Option<int>
    var heartbeatTimer: Option<nat>
    var terminalSent: bool
    var terminalOutcome: Option<Outcome>
    var pendingActions: set<ActionKey>

    ghost function Value(): Fields
      reads this
    {
      Fields(status, busySince, idleTimer, idleSince, pendingElapsedMs, heartbeatTimer, terminalSent, terminalOutcome,
             pendingActions)
    }

    constructor ()
      ensures Value() == BLANK
    {
      status, busySince, idleTimer, idleSince, pendingElapsedMs, heartbeatTimer := None, None, None, None, None, None;
      terminalSent, terminalOutcome, pendingActions := false, None, {};
    }
  }

  datatype Purpose = Debounce | Beat

  /** One live timer: what its callback closed over, and when it is due. */
  datatype Alarm = Alarm(purpose: Purpose, sessionId: string, state: SessionState, due: int)

  type Alarms = map<nat, Alarm>

  // ------------------------------------------------------------------ the invariant

  type Records = map<string, Fields>

  /** The session whose heartbeat callback is running, and its record, if one is. */
  datatype Exempt = NoneCalling | Calling(sessionId: string, state: SessionState)

  /** Everything the machine holds: `bearers` are the record objects, `records` what is
      in them. */
  datatype Core = Core(
    records: Records,
    bearers: map<string, SessionState>,
    alarms: Alarms,
    next: nat,
    installed: bool,
    exempt: Exempt,
    debounceMs: int)

  function Holds(f: Fields, p: Purpose): Option<nat> {
    if p == Debounce then f.idleTimer else f.heartbeatTimer
  }

  /** With a heartbeat callback installed the heartbeat is armed exactly while the round
      is active; for the session whose callback is running, only then. */
  predicate Beats(f: Fields, installed: bool, exempt: bool) {
    && (f.heartbeatTimer.Some? ==> installed && f.status.Some?)
    && (installed && !exempt && f.status.Some? ==> f.heartbeatTimer.Some?)
  }

  predicate IsOwn(alarms: Alarms, h: nat, p: Purpose, sessionId: string, st: SessionState) {
    h in alarms && alarms[h].purpose == p && alarms[h].sessionId == sessionId && alarms[h].state == st
  }

  /** A live debounce is due when its window has passed since the idle. */
  predicate Timed(f: Fields, alarms: Alarms, debounceMs: int) {
    f.idleTimer.Some? && f.idleTimer.value in alarms && f.idleSince.Some? ==>
      alarms[f.idleTimer.value].due == f.idleSince.value + debounceMs
  }

  predicate Sound(f: Fields, installed: bool, exempt: bool, alarms: Alarms, debounceMs: int) {
    Coherent(f) && Beats(f, installed, exempt) && Timed(f, alarms, debounceMs)
  }

  predicate IsExempt(c: Core, sessionId: string)
    requires sessionId in c.bearers
  {
    c.exempt == Calling(sessionId, c.bearers[sessionId])
  }

  ghost predicate RecordsSound(c: Core)
    requires c.records.Keys == c.bearers.Keys
  {
    forall s {:trigger IsExempt(c, s)} ::
      s in c.records ==> Sound(c.records[s], c.installed, IsExempt(c, s), c.alarms, c.debounceMs)
  }

  /** Every live timer is held by the record of its session. */
  ghost predicate AlarmsAreHeld(records: Records, alarms: Alarms, next: nat) {
    forall h :: h in alarms ==>
      && h < next
      && alarms[h].sessionId in records
      && Holds(records[alarms[h].sessionId], alarms[h].purpose) == Some(h)
  }

  /** Every handle held is a live timer of its holder. */
  ghost predicate HandlesAreLive(records: Records, bearers: map<string, SessionState>, alarms: Alarms)
    requires records.Keys == bearers.Keys
  {
    forall s, p :: s in records && Holds(records[s], p).Some? ==>
      IsOwn(alarms, Holds(records[s], p).value, p, s, bearers[s])
  }

  ghost predicate Consistent(c: Core) {
    && c.records.Keys == c.bearers.Keys
    && RecordsSound(c)
    && AlarmsAreHeld(c.records, c.alarms, c.next)
    && HandlesAreLive(c.records, c.bearers, c.alarms)
  }

  function Look(rs: Records, sessionId: string): Session {
    if sessionId in rs && Coherent(rs[sessionId]) then Meaning(rs[sessionId]) else UNKNOWN
  }

  /** All records but this session's are the same. */
  predicate Spared(a: Records, b: Records, sessionId: string) {
    a - {sessionId} == b - {sessionId}
  }

  lemma SparedLooks(a: Records, b: Records, sessionId: string, s: string)
    requires Spared(a, b, sessionId) && s != sessionId
    ensures Look(a, s) == Look(b, s)
  {
    assert s in a <==> s in a - {sessionId};
    assert s in b <==> s in b - {sessionId};
    assert s in a ==> a[s] == (a - {sessionId})[s] && b[s] == (b - {sessionId})[s];
  }

  /** At rest a session has at most one live timer: the debounce while it waits, due when
      the window has passed since the idle, and the heartbeat while it runs and somebody
      listens. */
  lemma TimersMatchPhases(c: Core, sessionId: string)
    requires Consistent(c) && c.exempt.NoneCalling?
    ensures var phase := Look(c.records, sessionId).phase;
      && ((exists h :: IsAlarmOf(c.alarms, h, sessionId, Debounce)) <==> phase.Waiting?)
      && ((exists h :: IsAlarmOf(c.alarms, h, sessionId, Beat)) <==> c.installed && phase.Running?)
      && forall h :: IsAlarmOf(c.alarms, h, sessionId, Debounce) ==> c.alarms[h].due == phase.idleSince + c.debounceMs
    ensures forall g, h, p, q :: IsAlarmOf(c.alarms, g, sessionId, p) && IsAlarmOf(c.alarms, h, sessionId, q) ==> g == h
  {
    if sessionId in c.records {
      var f, st := c.records[sessionId], c.bearers[sessionId];
      RecordOwns(c, sessionId);
      assert Holds(f, Debounce) == f.idleTimer && Holds(f, Beat) == f.heartbeatTimer;
      if f.idleTimer.Some? {
        assert IsOwn(c.alarms, f.idleTimer.value, Debounce, sessionId, st);
        assert IsAlarmOf(c.alarms, f.idleTimer.value, sessionId, Debounce);
      }
      if f.heartbeatTimer.Some? {
        assert IsOwn(c.alarms, f.heartbeatTimer.value, Beat, sessionId, st);
        assert IsAlarmOf(c.alarms, f.heartbeatTimer.value, sessionId, Beat);
      }
    }
  }

  predicate IsAlarmOf(alarms: Alarms, h: nat, sessionId: string, p: Purpose) {
    h in alarms && alarms[h].sessionId == sessionId && alarms[h].purpose == p
  }

  /** The debounce window may close: the session has been idle for its length. */
  predicate WindowPassed(p: Phase, now: int, debounceMs: int) {
    p.Waiting? && p.idleSince + debounceMs <= now
  }

  /** The record's debounce timer, if it is live and due. */
  predicate DebounceIsDue(f: Fields, alarms: Alarms, now: int) {
    f.idleTimer.Some? && f.idleTimer.value in alarms && alarms[f.idleTimer.value].due <= now
  }

  lemma DueMeansPassed(c: Core, sessionId: string, now: int)
    requires Consistent(c)
    ensures (sessionId in c.records && DebounceIsDue(c.records[sessionId], c.alarms, now))
        <==> WindowPassed(Look(c.records, sessionId).phase, now, c.debounceMs)
  {
    if sessionId in c.records {
      RecordOwns(c, sessionId);
      var f := c.records[sessionId];
      assert Holds(f, Debounce) == f.idleTimer;
    }
  }

  // ----------------------------------------------------- one record and its timers

  /** A session's record together with the scheduler, as a step leaves them. */
  datatype Slate = Slate(fields: Fields, alarms: Alarms, next: nat)

  function SlateOf(c: Core, sessionId: string): Slate
    requires sessionId in c.records
  {
    Slate(c.records[sessionId], c.alarms, c.next)
  }

  function DebounceCancelled(x: Slate): Slate {
    if x.fields.idleTimer.None? then x
    else Slate(x.fields.(idleTimer := None, idleSince := None), x.alarms - {x.fields.idleTimer.value}, x.next)
  }

  function BeatCleared(x: Slate): Slate {
    if x.fields.heartbeatTimer.None? then x
    else Slate(x.fields.(heartbeatTimer := None), x.alarms - {x.fields.heartbeatTimer.value}, x.next)
  }

  function BeatArmed(x: Slate, installed: bool, alarm: Alarm): Slate {
    if !installed || x.fields.heartbeatTimer.Some? then x
    else Slate(x.fields.(heartbeatTimer := Some(x.next)), x.alarms[x.next := alarm], x.next + 1)
  }

  function Activated(x: Slate, status: Active, now: int, installed: bool, alarm: Alarm): Slate {
    var y := DebounceCancelled(x);
    var f := y.fields.(pendingElapsedMs := None);
    var g := if f.busySince.Some? then f
             else f.(busySince := Some(now), terminalSent := false, terminalOutcome := None);
    BeatArmed(y.(fields := g.(status := Some(status))), installed, alarm)
  }

  function Idled(x: Slate, now: int, alarm: Alarm): Slate {
    var y := BeatCleared(x.(fields := x.fields.(status := None)));
    var f := y.fields;
    if f.idleTimer.Some? || f.terminalSent then y
    else
      var elapsed := if f.busySince.None? then 0 else Max(0, now - f.busySince.value);
      Slate(f.(pendingElapsedMs := Some(elapsed), idleTimer := Some(y.next), idleSince := Some(now)),
            y.alarms[y.next := alarm], y.next + 1)
  }

  function Quieted(x: Slate): Slate {
    var y := DebounceCancelled(x);
    BeatCleared(y.(fields := y.fields.(pendingElapsedMs := None)))
  }

  function Ended(x: Slate, outcome: Outcome): Slate {
    var z := Quieted(x);
    var best := z.fields.terminalOutcome;
    z.(fields := z.fields.(busySince := None, status := None, pendingActions := {}, terminalSent := true,
       terminalOutcome := if best.None? || Rank(outcome) > Rank(best.value) then Some(outcome) else best))
  }

  /** What a terminal reports, read off the fields. */
  function ReportOnEnd(f: Fields, outcome: Outcome, now: int): Option<Output> {
    if f.terminalSent then None
    else
      var elapsed := if f.pendingElapsedMs.Some? then f.pendingElapsedMs.value
                     else if f.busySince.None? then 0 else Max(0, now - f.busySince.value);
      Some(Terminal(outcome, elapsed))
  }

  function Finished(f: Fields): Fields {
    if f.terminalSent then f
    else f.(terminalSent := true, terminalOutcome := Some(Completed), busySince := None, pendingActions := {},
            pendingElapsedMs := None)
  }

  function WindowClosed(x: Slate): Slate {
    if x.fields.idleTimer.None? then x
    else
      var y := DebounceCancelled(x);
      y.(fields := Finished(y.fields))
  }

  /** What the closing of the window reports, read off the fields. */
  function ReportOnClose(f: Fields): Option<Output> {
    if f.idleTimer.None? || f.terminalSent then None
    else Some(Terminal(Completed, if f.pendingElapsedMs.Some? then f.pendingElapsedMs.value else 0))
  }

  function WithPending(x: Slate, pending: set<ActionKey>): Slate {
    x.(fields := x.fields.(pendingActions := pending))
  }

  function HandlesOf(f: Fields): set<nat> {
    (if f.idleTimer.Some? then {f.idleTimer.value} else {})
    + (if f.heartbeatTimer.Some? then {f.heartbeatTimer.value} else {})
  }

  /** Of the timers, only those the record held or holds differ. */
  ghost predicate OwnAlarmsOnly(x: Slate, y: Slate, sessionId: string, st: SessionState) {
    && x.next <= y.next
    && (forall h :: h in y.alarms <==> (h in x.alarms && h !in HandlesOf(x.fields)) || h in HandlesOf(y.fields))
    && (forall h :: h in x.alarms && h !in HandlesOf(x.fields) ==> y.alarms[h] == x.alarms[h])
    && (forall h :: h in HandlesOf(y.fields) ==> (h in HandlesOf(x.fields) || x.next <= h) && h < y.next)
    && (y.fields.idleTimer.Some? ==> IsOwn(y.alarms, y.fields.idleTimer.value, Debounce, sessionId, st))
    && (y.fields.heartbeatTimer.Some? ==> IsOwn(y.alarms, y.fields.heartbeatTimer.value, Beat, sessionId, st))
  }

  /** The handles a record of a consistent machine holds are its own live timers. */
  ghost predicate Owns(x: Slate, sessionId: string, st: SessionState) {
    var f := x.fields;
    && (forall h :: h in x.alarms ==> h < x.next)
    && (f.idleTimer.Some? ==> IsOwn(x.alarms, f.idleTimer.value, Debounce, sessionId, st))
    && (f.heartbeatTimer.Some? ==> IsOwn(x.alarms, f.heartbeatTimer.value, Beat, sessionId, st))
  }

  /** What a step may assume of the record it finds, and what it must leave. */
  predicate Rules(x: Slate, installed: bool, exempt: bool, debounceMs: int) {
    Sound(x.fields, installed, exempt, x.alarms, debounceMs)
  }

  lemma ActivatedMeans(x: Slate, status: Active, now: int, installed: bool, exempt: bool, debounceMs: int, alarm: Alarm)
    requires Owns(x, alarm.sessionId, alarm.state) && Rules(x, installed, exempt, debounceMs) && alarm.purpose == Beat
    ensures var y := Activated(x, status, now, installed, alarm);
      && OwnAlarmsOnly(x, y, alarm.sessionId, alarm.state)
      && Rules(y, installed, exempt, debounceMs)
      && Meaning(y.fields) == Session(Running(Since(Meaning(x.fields).phase, now), status), Meaning(x.fields).pending)
  {
  }

  lemma IdledMeans(x: Slate, now: int, installed: bool, exempt: bool, debounceMs: int, alarm: Alarm)
    requires Owns(x, alarm.sessionId, alarm.state) && Rules(x, installed, exempt, debounceMs)
    requires alarm.purpose == Debounce && alarm.due == now + debounceMs
    ensures var y := Idled(x, now, alarm);
      && OwnAlarmsOnly(x, y, alarm.sessionId, alarm.state)
      && Rules(y, installed, exempt, debounceMs)
      && Meaning(y.fields) == OnIdle(Meaning(x.fields), now)
  {
  }

  lemma EndedMeans(x: Slate, outcome: Outcome, now: int, installed: bool, exempt: bool, debounceMs: int,
                   sessionId: string, st: SessionState)
    requires Owns(x, sessionId, st) && Rules(x, installed, exempt, debounceMs)
    ensures var y := Ended(x, outcome);
      && OwnAlarmsOnly(x, y, sessionId, st)
      && Rules(y, installed, exempt, debounceMs)
      && Reaction(Meaning(y.fields), ReportOnEnd(x.fields, outcome, now)) == OnEnds(Meaning(x.fields), outcome, now)
  {
  }

  lemma WindowClosedMeans(x: Slate, installed: bool, exempt: bool, debounceMs: int, sessionId: string, st: SessionState)
    requires Owns(x, sessionId, st) && Rules(x, installed, exempt, debounceMs)
    ensures var y := WindowClosed(x);
      && OwnAlarmsOnly(x, y, sessionId, st)
      && Rules(y, installed, exempt, debounceMs)
      && Reaction(Meaning(y.fields), ReportOnClose(x.fields)) == OnWindowCloses(Meaning(x.fields))
  {
  }

  lemma PendingMeans(x: Slate, pending: set<ActionKey>, installed: bool, exempt: bool, debounceMs: int,
                     sessionId: string, st: SessionState)
    requires Owns(x, sessionId, st) && Rules(x, installed, exempt, debounceMs)
    ensures var y := WithPending(x, pending);
      && OwnAlarmsOnly(x, y, sessionId, st)
      && Rules(y, installed, exempt, debounceMs)
      && Meaning(y.fields) == Meaning(x.fields).(pending := pending)
  {
  }

  // --------------------------------------------------------- a step on the machine

  lemma AlarmIsHeld(c: Core, h: nat)
    requires Consistent(c) && h in c.alarms
    ensures var a := c.alarms[h];
      a.sessionId in c.records && Holds(c.records[a.sessionId], a.purpose) == Some(h)
      && c.bearers[a.sessionId] == a.state
  {
    var a := c.alarms[h];
    assert Holds(c.records[a.sessionId], a.purpose) == Some(h);
    assert IsOwn(c.alarms, h, a.purpose, a.sessionId, c.bearers[a.sessionId]);
  }

  lemma HandleIsLive(c: Core, sessionId: string, p: Purpose)
    requires Consistent(c) && sessionId in c.records && Holds(c.records[sessionId], p).Some?
    ensures IsOwn(c.alarms, Holds(c.records[sessionId], p).value, p, sessionId, c.bearers[sessionId])
  {
  }

  /** A session's heartbeat timer is the one its record holds. */
  lemma HeldBeat(c: Core, sessionId: string)
    requires Consistent(c)
    ensures forall h :: h in c.alarms ==>
      (IsAlarmOf(c.alarms, h, sessionId, Beat)
       <==> (sessionId in c.records && c.records[sessionId].heartbeatTimer == Some(h)))
    ensures sessionId in c.records && c.records[sessionId].heartbeatTimer.Some? ==>
      c.records[sessionId].heartbeatTimer.value in c.alarms
  {
    if sessionId in c.records && c.records[sessionId].heartbeatTimer.Some? {
      assert Holds(c.records[sessionId], Beat).Some?;
      HandleIsLive(c, sessionId, Beat);
    }
  }

  lemma RecordOwns(c: Core, sessionId: string)
    requires Consistent(c) && sessionId in c.records
    ensures Owns(SlateOf(c, sessionId), sessionId, c.bearers[sessionId])
    ensures Rules(SlateOf(c, sessionId), c.installed, IsExempt(c, sessionId), c.debounceMs)
    ensures Look(c.records, sessionId) == Meaning(c.records[sessionId])
  {
    assert Holds(c.records[sessionId], Debounce) == c.records[sessionId].idleTimer;
    assert Holds(c.records[sessionId], Beat) == c.records[sessionId].heartbeatTimer;
  }

  function Put(c: Core, sessionId: string, y: Slate): Core {
    c.(records := c.records[sessionId := y.fields], alarms := y.alarms, next := y.next)
  }

  /** Any change of one record and its own timers keeps the live timers exactly the
      handles held. */
  lemma PutStaysConsistent(c: Core, sessionId: string, y: Slate)
    requires Consistent(c) && sessionId in c.records
    requires Rules(y, c.installed, IsExempt(c, sessionId), c.debounceMs)
    requires OwnAlarmsOnly(SlateOf(c, sessionId), y, sessionId, c.bearers[sessionId])
    ensures var d := Put(c, sessionId, y);
      Consistent(d) && Look(d.records, sessionId) == Meaning(y.fields) && Spared(c.records, d.records, sessionId)
  {
    PutAlarmsAreHeld(c, sessionId, y);
    PutHandlesAreLive(c, sessionId, y);
    PutRecordsAreSound(c, sessionId, y);
  }

  lemma PutAlarmsAreHeld(c: Core, sessionId: string, y: Slate)
    requires Consistent(c) && sessionId in c.records
    requires OwnAlarmsOnly(SlateOf(c, sessionId), y, sessionId, c.bearers[sessionId])
    ensures AlarmsAreHeld(c.records[sessionId := y.fields], y.alarms, y.next)
  {
    var f := c.records[sessionId];
    forall h | h in y.alarms && h !in HandlesOf(y.fields)
      ensures h in c.alarms && h !in HandlesOf(f)
      ensures c.alarms[h].sessionId != sessionId
    {
      assert Holds(c.records[c.alarms[h].sessionId], c.alarms[h].purpose) == Some(h);
    }
  }

  /** What another session holds is not among this one's handles. */
  lemma OtherHandlesStay(c: Core, sessionId: string, y: Slate, s: string, p: Purpose)
    requires Consistent(c) && sessionId in c.records && s in c.records && s != sessionId
    requires Holds(c.records[s], p).Some?
    requires OwnAlarmsOnly(SlateOf(c, sessionId), y, sessionId, c.bearers[sessionId])
    ensures var h := Holds(c.records[s], p).value;
      IsOwn(c.alarms, h, p, s, c.bearers[s]) && h in y.alarms && y.alarms[h] == c.alarms[h]
  {
    var f, h := c.records[sessionId], Holds(c.records[s], p).value;
    assert IsOwn(c.alarms, h, p, s, c.bearers[s]);
    assert h in HandlesOf(f) ==> Holds(f, Debounce) == Some(h) || Holds(f, Beat) == Some(h);
  }

  lemma PutHandlesAreLive(c: Core, sessionId: string, y: Slate)
    requires Consistent(c) && sessionId in c.records
    requires OwnAlarmsOnly(SlateOf(c, sessionId), y, sessionId, c.bearers[sessionId])
    ensures HandlesAreLive(c.records[sessionId := y.fields], c.bearers, y.alarms)
  {
    var rs := c.records[sessionId := y.fields];
    forall s, p | s in rs && Holds(rs[s], p).Some?
      ensures IsOwn(y.alarms, Holds(rs[s], p).value, p, s, c.bearers[s])
    {
      if s != sessionId {
        OtherHandlesStay(c, sessionId, y, s, p);
      }
    }
  }

  lemma PutRecordsAreSound(c: Core, sessionId: string, y: Slate)
    requires Consistent(c) && sessionId in c.records
    requires Rules(y, c.installed, IsExempt(c, sessionId), c.debounceMs)
    requires OwnAlarmsOnly(SlateOf(c, sessionId), y, sessionId, c.bearers[sessionId])
    ensures RecordsSound(Put(c, sessionId, y))
  {
    forall s | s in c.records && s != sessionId
      ensures Sound(c.records[s], c.installed, IsExempt(c, s), y.alarms, c.debounceMs)
    {
      assert Sound(c.records[s], c.installed, IsExempt(c, s), c.alarms, c.debounceMs);
      if c.records[s].idleTimer.Some? {
        assert Holds(c.records[s], Debounce) == c.records[s].idleTimer;
        OtherHandlesStay(c, sessionId, y, s, Debounce);
      }
    }
  }

  /** The machine with a record for the session, a blank one if it had none. */
  function Ensured(c: Core, sessionId: string, st: SessionState): (d: Core)
    ensures sessionId in d.records
  {
    if sessionId in c.records then c
    else c.(records := c.records[sessionId := BLANK], bearers := c.bearers[sessionId := st])
  }

  predicate Mine(c: Core, sessionId: string, st: SessionState) {
    sessionId in c.bearers ==> c.bearers[sessionId] == st
  }

  lemma EnsuredStaysConsistent(c: Core, sessionId: string, st: SessionState)
    requires Consistent(c)
    ensures var d := Ensured(c, sessionId, st);
      && Consistent(d) && Spared(c.records, d.records, sessionId)
      && Look(d.records, sessionId) == Look(c.records, sessionId)
  {
    if sessionId !in c.records {
      var d := Ensured(c, sessionId, st);
      forall s | s in d.records
        ensures Sound(d.records[s], d.installed, IsExempt(d, s), d.alarms, d.debounceMs)
      {
        assert s in c.records ==> Sound(c.records[s], c.installed, IsExempt(c, s), c.alarms, c.debounceMs);
      }
      EnsuredKeepsHandles(c, sessionId, st);
    }
  }

  lemma EnsuredKeepsHandles(c: Core, sessionId: string, st: SessionState)
    requires Consistent(c) && sessionId !in c.records
    ensures var d := Ensured(c, sessionId, st); HandlesAreLive(d.records, d.bearers, d.alarms)
  {
    var d := Ensured(c, sessionId, st);
    forall s, p | s in d.records && Holds(d.records[s], p).Some?
      ensures IsOwn(d.alarms, Holds(d.records[s], p).value, p, s, d.bearers[s])
    {
      assert s in c.records && IsOwn(c.alarms, Holds(c.records[s], p).value, p, s, c.bearers[s]);
    }
  }

  function Found(c: Core, sessionId: string, st: SessionState): Slate {
    SlateOf(Ensured(c, sessionId, st), sessionId)
  }

  /** The machine after a step on the session's record. */
  function Changed(c: Core, sessionId: string, st: SessionState, y: Slate): Core {
    Put(Ensured(c, sessionId, st), sessionId, y)
  }

  lemma FoundIsPut(c: Core, sessionId: string, st: SessionState)
    ensures Changed(c, sessionId, st, Found(c, sessionId, st)) == Ensured(c, sessionId, st)
  {
    var e := Ensured(c, sessionId, st);
    assert e.records[sessionId := e.records[sessionId]] == e.records;
  }

  /** A step keeps the machine consistent, leads the session to `s` and spares the
      others. */
  ghost predicate Leads(c: Core, d: Core, sessionId: string, s: Session) {
    Consistent(d) && Look(d.records, sessionId) == s && Spared(c.records, d.records, sessionId)
  }

  lemma FoundOwns(c: Core, sessionId: string, st: SessionState)
    requires Consistent(c) && Mine(c, sessionId, st)
    ensures Owns(Found(c, sessionId, st), sessionId, st)
    ensures Rules(Found(c, sessionId, st), c.installed, c.exempt == Calling(sessionId, st), c.debounceMs)
    ensures Look(c.records, sessionId) == Meaning(Found(c, sessionId, st).fields)
  {
    EnsuredStaysConsistent(c, sessionId, st);
    RecordOwns(Ensured(c, sessionId, st), sessionId);
  }

  lemma ChangeLeads(c: Core, sessionId: string, st: SessionState, y: Slate)
    requires Consistent(c) && Mine(c, sessionId, st)
    requires Rules(y, c.installed, c.exempt == Calling(sessionId, st), c.debounceMs)
    requires OwnAlarmsOnly(Found(c, sessionId, st), y, sessionId, st)
    ensures Leads(c, Changed(c, sessionId, st, y), sessionId, Meaning(y.fields))
  {
    EnsuredStaysConsistent(c, sessionId, st);
    PutStaysConsistent(Ensured(c, sessionId, st), sessionId, y);
  }

  lemma ActivationLeads(c: Core, sessionId: string, st: SessionState, status: Active, now: int, alarm: Alarm)
    requires Consistent(c) && Mine(c, sessionId, st)
    requires alarm.purpose == Beat && alarm.sessionId == sessionId && alarm.state == st
    ensures var s := Look(c.records, sessionId);
      var y := Activated(Found(c, sessionId, st), status, now, c.installed, alarm);
      Leads(c, Changed(c, sessionId, st, y), sessionId, Session(Running(Since(s.phase, now), status), s.pending))
  {
    var x, exempt := Found(c, sessionId, st), c.exempt == Calling(sessionId, st);
    FoundOwns(c, sessionId, st);
    ActivatedMeans(x, status, now, c.installed, exempt, c.debounceMs, alarm);
    ChangeLeads(c, sessionId, st, Activated(x, status, now, c.installed, alarm));
  }

  lemma IdlingLeads(c: Core, sessionId: string, st: SessionState, now: int, alarm: Alarm)
    requires Consistent(c) && Mine(c, sessionId, st) && alarm == Alarm(Debounce, sessionId, st, now + c.debounceMs)
    ensures Leads(c, Changed(c, sessionId, st, Idled(Found(c, sessionId, st), now, alarm)), sessionId,
                  OnIdle(Look(c.records, sessionId), now))
  {
    var x, exempt := Found(c, sessionId, st), c.exempt == Calling(sessionId, st);
    FoundOwns(c, sessionId, st);
    IdledMeans(x, now, c.installed, exempt, c.debounceMs, alarm);
    ChangeLeads(c, sessionId, st, Idled(x, now, alarm));
  }

  lemma EndingLeads(c: Core, sessionId: string, st: SessionState, outcome: Outcome, now: int)
    requires Consistent(c) && Mine(c, sessionId, st)
    ensures var x, r := Found(c, sessionId, st), OnEnds(Look(c.records, sessionId), outcome, now);
      && Leads(c, Changed(c, sessionId, st, Ended(x, outcome)), sessionId, r.session)
      && ReportOnEnd(x.fields, outcome, now) == r.output
  {
    var x, exempt := Found(c, sessionId, st), c.exempt == Calling(sessionId, st);
    FoundOwns(c, sessionId, st);
    EndedMeans(x, outcome, now, c.installed, exempt, c.debounceMs, sessionId, st);
    ChangeLeads(c, sessionId, st, Ended(x, outcome));
  }

  lemma ClosingLeads(c: Core, sessionId: string, st: SessionState)
    requires Consistent(c) && Mine(c, sessionId, st)
    ensures var x, r := Found(c, sessionId, st), OnWindowCloses(Look(c.records, sessionId));
      && Leads(c, Changed(c, sessionId, st, WindowClosed(x)), sessionId, r.session)
      && ReportOnClose(x.fields) == r.output
  {
    var x, exempt := Found(c, sessionId, st), c.exempt == Calling(sessionId, st);
    FoundOwns(c, sessionId, st);
    WindowClosedMeans(x, c.installed, exempt, c.debounceMs, sessionId, st);
    ChangeLeads(c, sessionId, st, WindowClosed(x));
  }

  lemma PendingLeads(c: Core, sessionId: string, st: SessionState, pending: set<ActionKey>)
    requires Consistent(c) && Mine(c, sessionId, st)
    ensures Leads(c, Changed(c, sessionId, st, WithPending(Found(c, sessionId, st), pending)), sessionId,
                  Look(c.records, sessionId).(pending := pending))
  {
    var x, exempt := Found(c, sessionId, st), c.exempt == Calling(sessionId, st);
    FoundOwns(c, sessionId, st);
    PendingMeans(x, pending, c.installed, exempt, c.debounceMs, sessionId, st);
    ChangeLeads(c, sessionId, st, WithPending(x, pending));
  }

  function Removed(c: Core, sessionId: string): Core
    requires sessionId in c.records
  {
    c.(records := c.records - {sessionId}, bearers := c.bearers - {sessionId},
       alarms := c.alarms - HandlesOf(c.records[sessionId]))
  }

  /** Forgetting a session clears its timers and spares the others. */
  lemma RemovedStaysConsistent(c: Core, sessionId: string)
    requires Consistent(c) && sessionId in c.records
    ensures Leads(c, Removed(c, sessionId), sessionId, UNKNOWN)
  {
    var f, d := c.records[sessionId], Removed(c, sessionId);
    forall h | h in d.alarms ensures d.alarms[h].sessionId != sessionId {
      assert Holds(c.records[c.alarms[h].sessionId], c.alarms[h].purpose) == Some(h);
    }
    RemovedKeepsHandles(c, sessionId);
    forall s | s in d.records
      ensures Sound(d.records[s], d.installed, IsExempt(d, s), d.alarms, d.debounceMs)
    {
      assert Sound(c.records[s], c.installed, IsExempt(c, s), c.alarms, c.debounceMs);
    }
  }

  lemma RemovedKeepsHandles(c: Core, sessionId: string)
    requires Consistent(c) && sessionId in c.records
    ensures var d := Removed(c, sessionId); HandlesAreLive(d.records, d.bearers, d.alarms)
  {
    var f, d := c.records[sessionId], Removed(c, sessionId);
    forall s, p | s in d.records && Holds(d.records[s], p).Some?
      ensures IsOwn(d.alarms, Holds(d.records[s], p).value, p, s, d.bearers[s])
    {
      var h := Holds(c.records[s], p).value;
      assert IsOwn(c.alarms, h, p, s, c.bearers[s]);
      assert h in HandlesOf(f) ==> Holds(f, Debounce) == Some(h) || Holds(f, Beat) == Some(h);
    }
  }

  lemma NoRecordNoTimer(c: Core)
    requires Consistent(c) && c.records == map[]
    ensures c.alarms == map[]
  {
    if h :| h in c.alarms {
      AlarmIsHeld(c, h);
    }
  }

  // ------------------------------------------------------------- a heartbeat that fires

  /** The session's heartbeat timer is spent and its callback about to run. */
  function BeatSpent(c: Core, sessionId: string, st: SessionState): Core
    requires sessionId in c.records
  {
    Put(c, sessionId, BeatCleared(SlateOf(c, sessionId))).(exempt := Calling(sessionId, st))
  }

  ghost predicate SameLooks(a: Records, b: Records) {
    forall s :: Look(a, s) == Look(b, s)
  }

  lemma SparedAlike(a: Records, b: Records, sessionId: string)
    requires Spared(a, b, sessionId) && Look(a, sessionId) == Look(b, sessionId)
    ensures SameLooks(a, b)
  {
    forall s ensures Look(a, s) == Look(b, s) {
      if s != sessionId {
        SparedLooks(a, b, sessionId, s);
      }
    }
  }

  lemma ExemptingStaysConsistent(c: Core, sessionId: string, st: SessionState)
    requires Consistent(c) && c.exempt.NoneCalling?
    ensures Consistent(c.(exempt := Calling(sessionId, st)))
  {
    var d := c.(exempt := Calling(sessionId, st));
    forall s | s in d.records
      ensures Sound(d.records[s], d.installed, IsExempt(d, s), d.alarms, d.debounceMs)
    {
      assert Sound(c.records[s], c.installed, IsExempt(c, s), c.alarms, c.debounceMs);
    }
  }

  /** A heartbeat that fires belongs to a running session and leaves it as it is. */
  lemma SpentBeat(c: Core, h: nat)
    requires Consistent(c) && c.exempt.NoneCalling? && h in c.alarms && c.alarms[h].purpose == Beat
    ensures var a := c.alarms[h];
      && a.sessionId in c.records && c.bearers[a.sessionId] == a.state
      && var f, d := c.records[a.sessionId], BeatSpent(c, a.sessionId, a.state);
      && f.heartbeatTimer == Some(h) && Coherent(f) && f.status.Some?
      && Consistent(d) && SameLooks(c.records, d.records)
  {
    var a := c.alarms[h];
    AlarmIsHeld(c, h);
    RecordOwns(c, a.sessionId);
    ExemptingStaysConsistent(c, a.sessionId, a.state);
    var e, x := c.(exempt := Calling(a.sessionId, a.state)), SlateOf(c, a.sessionId);
    PutStaysConsistent(e, a.sessionId, BeatCleared(x));
    SparedAlike(c.records, BeatSpent(c, a.sessionId, a.state).records, a.sessionId);
  }

  /** The session's heartbeat is set again and its callback done. */
  function BeatResumed(c: Core, sessionId: string, alarm: Alarm): Core
    requires sessionId in c.records
  {
    Put(c, sessionId, BeatArmed(SlateOf(c, sessionId), c.installed, alarm)).(exempt := NoneCalling)
  }

  lemma ResumedBeat(c: Core, sessionId: string, alarm: Alarm)
    requires Consistent(c) && sessionId in c.records && c.exempt.Calling? && IsExempt(c, sessionId)
    requires c.records[sessionId].status.Some? && c.records[sessionId].heartbeatTimer.None?
    requires alarm.purpose == Beat && alarm.sessionId == sessionId && alarm.state == c.bearers[sessionId]
    ensures var d := BeatResumed(c, sessionId, alarm); Consistent(d) && SameLooks(c.records, d.records)
  {
    var x := SlateOf(c, sessionId);
    var y := BeatArmed(x, c.installed, alarm);
    RecordOwns(c, sessionId);
    PutStaysConsistent(c, sessionId, y);
    ReleasingStaysConsistent(Put(c, sessionId, y));
    SparedAlike(c.records, BeatResumed(c, sessionId, alarm).records, sessionId);
  }

  lemma ReleasingStaysConsistent(c: Core)
    requires Consistent(c)
    requires forall s :: s in c.records && IsExempt(c, s) ==> Beats(c.records[s], c.installed, false)
    ensures Consistent(c.(exempt := NoneCalling))
  {
    var d := c.(exempt := NoneCalling);
    forall s | s in d.records
      ensures Sound(d.records[s], d.installed, IsExempt(d, s), d.alarms, d.debounceMs)
    {
      assert Sound(c.records[s], c.installed, IsExempt(c, s), c.alarms, c.debounceMs);
    }
  }

  /** Nothing to beat for: the session is gone, replaced, no longer active or armed. */
  lemma NothingToBeatFor(c: Core, sessionId: string, st: SessionState)
    requires Consistent(c) && c.exempt == Calling(sessionId, st)
    requires sessionId in c.records && c.bearers[sessionId] == st ==>
      var f := c.records[sessionId]; f.busySince.None? || f.status.None? || f.heartbeatTimer.Some?
    ensures Consistent(c.(exempt := NoneCalling))
  {
    forall s | s in c.records && IsExempt(c, s) ensures Beats(c.records[s], c.installed, false) {
      assert Sound(c.records[s], c.installed, IsExempt(c, s), c.alarms, c.debounceMs);
    }
    ReleasingStaysConsistent(c);
  }
}
