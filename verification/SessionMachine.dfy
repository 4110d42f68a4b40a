/** The plugin's session machine as the object it is: a record per session, updated
    in place, and a scheduler whose live timers are handles held by those records.
    Every method is proved to do to its session what SessionRounds says, and to
    leave every other session alone. */
module SessionMachine {
  import opened Prelude
  import opened SessionRounds
  import opened SessionTimers
  import opened SessionCalls

  /** Each record object belongs to one session. */
  ghost predicate Distinct(m: map<string, SessionState>) {
    forall a, b :: a in m && b in m && m[a] == m[b] ==> a == b
  }

  class SessionMachine {
    const idleDebounceMs: int
    const heartbeatMs: int
    const hasHeartbeat: bool
    var sessions: map<string, SessionState>
    var alarms: Alarms
    var nextHandle: nat
    ghost var records: Records
    ghost var exempt: Exempt

    constructor (idleDebounceMs: int, heartbeatMs: int, hasHeartbeat: bool)
      ensures Valid() && exempt.NoneCalling? && records == map[] && alarms == map[]
      ensures this.idleDebounceMs == idleDebounceMs && this.heartbeatMs == heartbeatMs
      ensures this.hasHeartbeat == hasHeartbeat
    {
      this.idleDebounceMs, this.heartbeatMs, this.hasHeartbeat := idleDebounceMs, heartbeatMs, hasHeartbeat;
      sessions, alarms, nextHandle := map[], map[], 0;
      records, exempt := map[], NoneCalling;
    }

    ghost function Bearers(): set<SessionState>
      reads this`sessions
    {
      set s | s in sessions :: sessions[s]
    }

    ghost function Repr(): set<object>
      reads this`sessions
    {
      {this} + Bearers()
    }

    ghost function Holding(): Core
      reads this
    {
      Core(records, sessions, alarms, nextHandle, hasHeartbeat, exempt, idleDebounceMs)
    }

    /** `records` is what is in the record objects. */
    ghost predicate Linked()
      reads Repr()
    {
      && sessions.Keys == records.Keys
      && Distinct(sessions)
      && forall s :: s in sessions ==> sessions[s].Value() == records[s]
    }

    /** Holds before and after every call, also of those made while `exempt`'s heartbeat
        callback runs. */
    ghost predicate Valid()
      reads Repr()
    {
      Linked() && Consistent(Holding())
    }

    ghost function View(sessionId: string): Session
      reads this
    {
      Look(records, sessionId)
    }

    // ---------------------------------------------------------------- the scheduler

    method SetAlarm(alarm: Alarm) returns (h: nat)
      modifies this`alarms, this`nextHandle
      ensures h == old(nextHandle) && nextHandle == h + 1 && alarms == old(alarms)[h := alarm]
    {
      h := nextHandle;
      alarms := alarms[h := alarm];
      nextHandle := nextHandle + 1;
    }

    method ClearAlarm(h: nat)
      modifies this`alarms
      ensures alarms == old(alarms) - {h}
    {
      alarms := alarms - {h};
    }

    // ------------------------------------------------------------ on a session's record

    ghost function SlateOn(st: SessionState): Slate
      reads this, st
    {
      Slate(st.Value(), alarms, nextHandle)
    }

    method CancelDebounce(st: SessionState)
      modifies this`alarms, st`idleTimer, st`idleSince
      ensures SlateOn(st) == DebounceCancelled(old(SlateOn(st)))
    {
      if st.idleTimer.Some? {
        ClearAlarm(st.idleTimer.value);
        st.idleTimer := None;
        st.idleSince := None;
      }
    }

    method ClearHeartbeat(st: SessionState)
      modifies this`alarms, st`heartbeatTimer
      ensures SlateOn(st) == BeatCleared(old(SlateOn(st)))
    {
      if st.heartbeatTimer.Some? {
        ClearAlarm(st.heartbeatTimer.value);
        st.heartbeatTimer := None;
      }
    }

    ghost function BeatAlarm(sessionId: string, st: SessionState, now: int): Alarm {
      Alarm(Beat, sessionId, st, now + heartbeatMs)
    }

    method ArmHeartbeat(sessionId: string, st: SessionState, now: int)
      modifies this`alarms, this`nextHandle, st`heartbeatTimer
      ensures SlateOn(st) == BeatArmed(old(SlateOn(st)), hasHeartbeat, BeatAlarm(sessionId, st, now))
    {
      if !hasHeartbeat || st.heartbeatTimer.Some? {
        return;
      }
      var h := SetAlarm(Alarm(Beat, sessionId, st, now + heartbeatMs));
      st.heartbeatTimer := Some(h);
    }

    method Activate(sessionId: string, st: SessionState, status: Active, now: int)
      modifies this`alarms, this`nextHandle, st
      ensures SlateOn(st) == Activated(old(SlateOn(st)), status, now, hasHeartbeat, BeatAlarm(sessionId, st, now))
    {
      CancelDebounce(st);
      st.pendingElapsedMs := None;
      if st.busySince.None? {
        st.busySince := Some(now);
        st.terminalSent := false;
        st.terminalOutcome := None;
      }
      st.status := Some(status);
      ArmHeartbeat(sessionId, st, now);
    }

    ghost function DebounceAlarm(sessionId: string, st: SessionState, now: int): Alarm {
      Alarm(Debounce, sessionId, st, now + idleDebounceMs)
    }

    method EnterIdle(sessionId: string, st: SessionState, now: int)
      modifies this`alarms, this`nextHandle, st
      ensures SlateOn(st) == Idled(old(SlateOn(st)), now, DebounceAlarm(sessionId, st, now))
    {
      st.status := None;
      ClearHeartbeat(st);
      if st.idleTimer.Some? || st.terminalSent {
        return;
      }
      st.pendingElapsedMs := Some(if st.busySince.None? then 0 else Max(0, now - st.busySince.value));
      var h := SetAlarm(Alarm(Debounce, sessionId, st, now + idleDebounceMs));
      st.idleTimer := Some(h);
      st.idleSince := Some(now);
    }

    method ClearTimers(st: SessionState)
      modifies this`alarms, st
      ensures alarms == old(alarms) - HandlesOf(old(st.Value()))
    {
      CancelDebounce(st);
      ClearHeartbeat(st);
    }

    /** Neither debounce nor heartbeat, and no frozen time. */
    method Quiet(st: SessionState)
      modifies this`alarms, st`idleTimer, st`idleSince, st`pendingElapsedMs, st`heartbeatTimer
      ensures SlateOn(st) == Quieted(old(SlateOn(st)))
    {
      CancelDebounce(st);
      st.pendingElapsedMs := None;
      ClearHeartbeat(st);
    }

    /** Also says whether, and with what elapsed time, the terminal is reported. */
    method EndRound(st: SessionState, outcome: Outcome, now: int) returns (out: Option<Output>)
      modifies this`alarms, st
      ensures SlateOn(st) == Ended(old(SlateOn(st)), outcome)
      ensures out == ReportOnEnd(old(st.Value()), outcome, now)
    {
      var elapsed := if st.pendingElapsedMs.Some? then st.pendingElapsedMs.value
                     else if st.busySince.None? then 0 else Max(0, now - st.busySince.value);
      Quiet(st);
      st.busySince := None;
      st.status := None;
      st.pendingActions := {};
      if st.terminalOutcome.None? || Rank(outcome) > Rank(st.terminalOutcome.value) {
        st.terminalOutcome := Some(outcome);
      }
      out := None;
      if !st.terminalSent {
        st.terminalSent := true;
        out := Some(Terminal(outcome, elapsed));
      }
    }

    method CompletePendingIdle(st: SessionState) returns (out: Option<Output>)
      modifies st
      ensures st.Value() == Finished(old(st.Value()))
      ensures out == if old(st.terminalSent) then None else
        Some(Terminal(Completed, if old(st.pendingElapsedMs).Some? then old(st.pendingElapsedMs).value else 0))
    {
      if st.terminalSent {
        return None;
      }
      st.terminalSent := true;
      st.terminalOutcome := Some(Completed);
      st.busySince := None;
      st.pendingActions := {};
      var elapsed := if st.pendingElapsedMs.Some? then st.pendingElapsedMs.value else 0;
      st.pendingElapsedMs := None;
      return Some(Terminal(Completed, elapsed));
    }

    /** `flushPendingCompletions` for one session. */
    method CloseWindow(st: SessionState) returns (out: Option<Output>)
      modifies this`alarms, st
      ensures SlateOn(st) == WindowClosed(old(SlateOn(st)))
      ensures out == ReportOnClose(old(st.Value()))
    {
      if st.idleTimer.None? {
        return None;
      }
      CancelDebounce(st);
      out := CompletePendingIdle(st);
    }

    // ------------------------------------------------- the record as the session's own

    /** Notes what became of the record of a session. */
    ghost method Note(sessionId: string, st: SessionState)
      requires sessions.Keys == records.Keys && Distinct(sessions) && sessionId in sessions && sessions[sessionId] == st
      requires forall s :: s in sessions && s != sessionId ==> sessions[s].Value() == records[s]
      modifies this`records
      ensures Linked() && records == old(records)[sessionId := st.Value()]
    {
      records := records[sessionId := st.Value()];
    }

    method StateFor(sessionId: string) returns (st: SessionState)
      requires Linked()
      modifies this`sessions, this`records
      ensures Linked() && sessionId in sessions && sessions[sessionId] == st
      ensures Mine(old(Holding()), sessionId, st) && (sessionId in old(sessions) || fresh(st))
      ensures Holding() == Ensured(old(Holding()), sessionId, st)
    {
      if sessionId in sessions {
        return sessions[sessionId];
      }
      st := new SessionState();
      sessions := sessions[sessionId := st];
      records := records[sessionId := BLANK];
    }

    ghost function SlateIn(sessionId: string): Slate
      requires sessionId in records
      reads this
    {
      SlateOf(Holding(), sessionId)
    }

    method ActivateIn(sessionId: string, st: SessionState, status: Active, now: int)
      requires Linked() && sessionId in sessions && sessions[sessionId] == st
      modifies this`alarms, this`nextHandle, this`records, st
      ensures Linked()
      ensures Holding() == Put(old(Holding()), sessionId,
        Activated(old(SlateIn(sessionId)), status, now, hasHeartbeat, BeatAlarm(sessionId, st, now)))
    {
      Activate(sessionId, st, status, now);
      Note(sessionId, st);
    }

    method EnterIdleIn(sessionId: string, st: SessionState, now: int)
      requires Linked() && sessionId in sessions && sessions[sessionId] == st
      modifies this`alarms, this`nextHandle, this`records, st
      ensures Linked()
      ensures Holding() == Put(old(Holding()), sessionId,
        Idled(old(SlateIn(sessionId)), now, DebounceAlarm(sessionId, st, now)))
    {
      EnterIdle(sessionId, st, now);
      Note(sessionId, st);
    }

    method EndRoundIn(sessionId: string, st: SessionState, outcome: Outcome, now: int) returns (out: Option<Output>)
      requires Linked() && sessionId in sessions && sessions[sessionId] == st
      modifies this`alarms, this`records, st
      ensures Linked()
      ensures Holding() == Put(old(Holding()), sessionId, Ended(old(SlateIn(sessionId)), outcome))
      ensures out == ReportOnEnd(old(records)[sessionId], outcome, now)
    {
      out := EndRound(st, outcome, now);
      Note(sessionId, st);
    }

    method CloseWindowIn(sessionId: string, st: SessionState) returns (out: Option<Output>)
      requires Linked() && sessionId in sessions && sessions[sessionId] == st
      modifies this`alarms, this`records, st
      ensures Linked()
      ensures Holding() == Put(old(Holding()), sessionId, WindowClosed(old(SlateIn(sessionId))))
      ensures out == ReportOnClose(old(records)[sessionId])
    {
      out := CloseWindow(st);
      Note(sessionId, st);
    }

    method SetPending(sessionId: string, st: SessionState, pending: set<ActionKey>)
      requires Linked() && sessionId in sessions && sessions[sessionId] == st
      modifies this`records, st`pendingActions
      ensures Linked()
      ensures Holding() == Put(old(Holding()), sessionId, WithPending(old(SlateIn(sessionId)), pending))
    {
      st.pendingActions := pending;
      Note(sessionId, st);
    }

    method GoActive(sessionId: string, status: Active, now: int) returns (st: SessionState)
      requires Linked()
      modifies this, Repr()
      ensures Linked() && fresh(Repr() - old(Repr())) && Mine(old(Holding()), sessionId, st) && sessionId in sessions
      ensures var x := Found(old(Holding()), sessionId, st);
        Holding() == Changed(old(Holding()), sessionId, st,
          Activated(x, status, now, hasHeartbeat, BeatAlarm(sessionId, st, now)))
    {
      st := StateFor(sessionId);
      ActivateIn(sessionId, st, status, now);
    }

    method GoIdle(sessionId: string, now: int) returns (st: SessionState)
      requires Linked()
      modifies this, Repr()
      ensures Linked() && fresh(Repr() - old(Repr())) && Mine(old(Holding()), sessionId, st)
      ensures var x := Found(old(Holding()), sessionId, st);
        Holding() == Changed(old(Holding()), sessionId, st, Idled(x, now, DebounceAlarm(sessionId, st, now)))
    {
      st := StateFor(sessionId);
      EnterIdleIn(sessionId, st, now);
    }

    method GoOver(sessionId: string, outcome: Outcome, now: int) returns (st: SessionState, out: Option<Output>)
      requires Linked()
      modifies this, Repr()
      ensures Linked() && fresh(Repr() - old(Repr())) && Mine(old(Holding()), sessionId, st)
      ensures var x := Found(old(Holding()), sessionId, st);
        && Holding() == Changed(old(Holding()), sessionId, st, Ended(x, outcome))
        && out == ReportOnEnd(x.fields, outcome, now)
    {
      st := StateFor(sessionId);
      out := EndRoundIn(sessionId, st, outcome, now);
    }

    /** Adds a pending action, or says that it is there already. */
    method Add(sessionId: string, key: ActionKey) returns (st: SessionState, added: bool)
      requires Linked()
      modifies this, Repr()
      ensures Linked() && fresh(Repr() - old(Repr())) && Mine(old(Holding()), sessionId, st)
      ensures var x := Found(old(Holding()), sessionId, st);
        && added == (key !in x.fields.pendingActions)
        && Holding() == Changed(old(Holding()), sessionId, st, WithPending(x, x.fields.pendingActions + {key}))
    {
      st := StateFor(sessionId);
      added := key !in st.pendingActions;
      if added {
        SetPending(sessionId, st, st.pendingActions + {key});
      } else {
        assert st.pendingActions + {key} == st.pendingActions;
        FoundIsPut(old(Holding()), sessionId, st);
      }
    }

    /** Removes a pending action, or says that it is not there. */
    method Remove(sessionId: string, key: ActionKey) returns (st: SessionState, removed: bool)
      requires Linked()
      modifies this, Repr()
      ensures Linked() && fresh(Repr() - old(Repr())) && Mine(old(Holding()), sessionId, st)
      ensures var x := Found(old(Holding()), sessionId, st);
        && removed == (key in x.fields.pendingActions)
        && Holding() == Changed(old(Holding()), sessionId, st, WithPending(x, x.fields.pendingActions - {key}))
    {
      st := StateFor(sessionId);
      removed := key in st.pendingActions;
      if removed {
        SetPending(sessionId, st, st.pendingActions - {key});
      } else {
        assert st.pendingActions - {key} == st.pendingActions;
        FoundIsPut(old(Holding()), sessionId, st);
      }
    }

    method DropSession(sessionId: string)
      requires Linked() && sessionId in sessions
      modifies this`sessions, this`alarms, this`records, sessions[sessionId]
      ensures Linked()
      ensures Holding() == Removed(old(Holding()), sessionId)
    {
      ClearTimers(sessions[sessionId]);
      sessions := sessions - {sessionId};
      records := records - {sessionId};
    }

    // --------------------------------------------------------------------- the signals

    method OnActive(sessionId: string, status: Active, now: int)
      requires Valid()
      modifies this, Repr()
      ensures Valid() && exempt == old(exempt) && fresh(Repr() - old(Repr())) && sessionId in sessions
      ensures View(sessionId)
        == Session(Running(Since(old(View(sessionId)).phase, now), status), old(View(sessionId)).pending)
      ensures Spared(old(records), records, sessionId)
    {
      var st := GoActive(sessionId, status, now);
      ActivationLeads(old(Holding()), sessionId, st, status, now, BeatAlarm(sessionId, st, now));
    }

    method OnIdle(sessionId: string, now: int)
      requires Valid()
      modifies this, Repr()
      ensures Valid() && exempt == old(exempt) && fresh(Repr() - old(Repr()))
      ensures View(sessionId) == SessionRounds.OnIdle(old(View(sessionId)), now)
      ensures Spared(old(records), records, sessionId)
    {
      var st := GoIdle(sessionId, now);
      IdlingLeads(old(Holding()), sessionId, st, now, DebounceAlarm(sessionId, st, now));
    }

    /** `onFailed` and `onStopped`. */
    method OnTerminalSignal(sessionId: string, outcome: Outcome, now: int) returns (out: Option<Output>)
      requires Valid()
      modifies this, Repr()
      ensures Valid() && exempt == old(exempt) && fresh(Repr() - old(Repr()))
      ensures Reaction(View(sessionId), out) == OnEnds(old(View(sessionId)), outcome, now)
      ensures Spared(old(records), records, sessionId)
    {
      var st;
      st, out := GoOver(sessionId, outcome, now);
      EndingLeads(old(Holding()), sessionId, st, outcome, now);
    }

    method OnBusy(sessionId: string, now: int)
      requires Valid()
      modifies this, Repr()
      ensures Valid() && exempt == old(exempt) && fresh(Repr() - old(Repr()))
      ensures View(sessionId) == OnWorking(old(View(sessionId)), Busy, None, now).session
      ensures Spared(old(records), records, sessionId)
    {
      OnActive(sessionId, Busy, now);
      ClearPendingProvider(sessionId, {});
    }

    /** What is pending of the session, but for its provider action, and these. */
    method ClearPendingProvider(sessionId: string, keys: set<ActionKey>)
      requires Valid() && sessionId in sessions
      modifies this`records, sessions[sessionId]
      ensures Valid()
      ensures View(sessionId)
        == old(View(sessionId)).(pending := WithoutProvider(old(View(sessionId)).pending) + keys)
      ensures Spared(old(records), records, sessionId)
    {
      var st := sessions[sessionId];
      FoundOwns(Holding(), sessionId, st);
      var pending := WithoutProvider(st.pendingActions) + keys;
      SetPending(sessionId, st, pending);
      PendingLeads(old(Holding()), sessionId, st, pending);
    }

    method OnRetry(sessionId: string, action: Option<ProviderAction>, now: int) returns (out: Option<Output>)
      requires Valid()
      modifies this, Repr()
      ensures Valid() && exempt == old(exempt) && fresh(Repr() - old(Repr()))
      ensures Reaction(View(sessionId), out) == OnWorking(old(View(sessionId)), Retry, action, now)
      ensures Spared(old(records), records, sessionId)
    {
      OnActive(sessionId, Retry, now);
      if action.None? {
        return None;
      }
      RecordOwns(Holding(), sessionId);
      var key := ProviderKeyOf(action.value);
      if key in sessions[sessionId].pendingActions {
        return None;
      }
      ClearPendingProvider(sessionId, {key});
      return Some(Required(key, DetailsOf(action.value)));
    }

    /** `onQuestionAsked` and `onPermissionAsked`. */
    method OnAsked(sessionId: string, kind: Kind, requestId: string, text: string) returns (out: Option<Output>)
      requires Valid()
      modifies this, Repr()
      ensures Valid() && exempt == old(exempt) && fresh(Repr() - old(Repr()))
      ensures var key, was := RequestKey(kind, requestId), old(View(sessionId));
        && View(sessionId) == was.(pending := was.pending + {key})
        && out == if key in was.pending then None else Some(Required(key, Ask(text)))
      ensures Spared(old(records), records, sessionId)
    {
      var key := RequestKey(kind, requestId);
      var st, added := Add(sessionId, key);
      FoundOwns(old(Holding()), sessionId, st);
      PendingLeads(old(Holding()), sessionId, st, old(View(sessionId)).pending + {key});
      out := if added then Some(Required(key, Ask(text))) else None;
    }

    method OnResolved(sessionId: string, kind: Kind, requestId: string) returns (out: Option<Output>)
      requires Valid()
      modifies this, Repr()
      ensures Valid() && exempt == old(exempt) && fresh(Repr() - old(Repr()))
      ensures var key, was := RequestKey(kind, requestId), old(View(sessionId));
        && View(sessionId) == was.(pending := was.pending - {key})
        && out == if key in was.pending then Some(Resolved(key)) else None
      ensures Spared(old(records), records, sessionId)
    {
      var key := RequestKey(kind, requestId);
      var st, removed := Remove(sessionId, key);
      FoundOwns(old(Holding()), sessionId, st);
      PendingLeads(old(Holding()), sessionId, st, old(View(sessionId)).pending - {key});
      out := if removed then Some(Resolved(key)) else None;
    }

    /** Clear both timers, forget the record. */
    method DisposeSession(sessionId: string)
      requires Valid()
      modifies this, Repr()
      ensures Valid() && exempt == old(exempt) && sessions == old(sessions) - {sessionId}
      ensures View(sessionId) == UNKNOWN && Spared(old(records), records, sessionId)
    {
      if sessionId in sessions {
        RemovedStaysConsistent(Holding(), sessionId);
        DropSession(sessionId);
      }
    }

    method DisposeAllSessions()
      requires Valid()
      modifies this, Repr()
      ensures Valid() && exempt == old(exempt)
      ensures sessions == map[] && records == map[] && alarms == map[]
    {
      while sessions != map[]
        invariant Valid() && exempt == old(exempt)
        invariant Bearers() <= old(Bearers())
        decreases |sessions|
      {
        var sessionId :| sessionId in sessions;
        assert sessionId in sessions.Keys;
        DisposeSession(sessionId);
      }
      NoRecordNoTimer(Holding());
    }

    method FlushOne(sessionId: string) returns (out: Option<Output>)
      requires Valid() && sessionId in sessions
      modifies this`alarms, this`records, sessions[sessionId]
      ensures Valid()
      ensures Reaction(View(sessionId), out) == OnWindowCloses(old(View(sessionId)))
      ensures Spared(old(records), records, sessionId)
    {
      out := CloseWindowIn(sessionId, sessions[sessionId]);
      ClosingLeads(old(Holding()), sessionId, sessions[sessionId]);
    }

    method FlushNext(sessionId: string, outs: Outputs, ghost was: Records, ghost rest: set<string>)
      returns (outs': Outputs)
      requires Valid() && sessionId in rest && sessionId in sessions && Flushed(was, records, outs, rest)
      modifies this`alarms, this`records, sessions[sessionId]
      ensures Valid() && Flushed(was, records, outs', rest - {sessionId})
    {
      ghost var rs := records;
      var out := FlushOne(sessionId);
      FlushedStep(was, rs, outs, rest, sessionId, records, out);
      outs' := outs + Only(sessionId, out);
    }

    /** `flushPendingCompletions`; `outs` are the completions reported. */
    method Flush() returns (outs: Outputs)
      requires Valid()
      modifies this`alarms, this`records, Bearers()
      ensures Valid() && sessions == old(sessions)
      ensures Flushed(old(records), records, outs, {})
    {
      outs := map[];
      var rest := sessions.Keys;
      NothingFlushed(records);
      while rest != {}
        invariant Valid() && sessions == old(sessions)
        invariant rest <= sessions.Keys
        invariant Flushed(old(records), records, outs, rest)
        decreases |rest|
      {
        var sessionId :| sessionId in rest;
        outs := FlushNext(sessionId, outs, old(records), rest);
        rest := rest - {sessionId};
      }
    }

    // ----------------------------------------------------------------------- any call

    method HearSignal(sessionId: string, input: Input, now: int) returns (out: Option<Output>)
      requires Valid() && IsCall(Signal(sessionId, input, now))
      modifies this, Repr()
      ensures Valid() && exempt == old(exempt) && fresh(Repr() - old(Repr()))
      ensures Reaction(View(sessionId), out) == React(old(View(sessionId)), input, now)
      ensures Spared(old(records), records, sessionId)
    {
      out := None;
      match input {
        case Working(Busy, _) => OnBusy(sessionId, now);
        case Working(Retry, action) => out := OnRetry(sessionId, action, now);
        case Idle => OnIdle(sessionId, now);
        case Ends(outcome) => out := OnTerminalSignal(sessionId, outcome, now);
        case Asked(kind, requestId, text) => out := OnAsked(sessionId, kind, requestId, text);
        case Replied(kind, requestId) => out := OnResolved(sessionId, kind, requestId);
        case Dispose => DisposeSession(sessionId);
      }
    }

    /** Any call does to every session what its own history says. */
    method Hear(c: Call) returns (outs: Outputs)
      requires Valid() && IsCall(c)
      modifies this, Repr()
      ensures Valid() && exempt == old(exempt) && fresh(Repr() - old(Repr()))
      ensures Obeyed(old(records), records, outs, c)
    {
      match c {
        case Signal(sessionId, input, now) =>
          var out := HearSignal(sessionId, input, now);
          outs := Only(sessionId, out);
          SignalObeyed(old(records), records, sessionId, input, now, out);
        case FlushPendingCompletions =>
          outs := Flush();
          FlushObeyed(old(records), records, outs);
        case DisposeAll =>
          DisposeAllSessions();
          outs := map[];
          DisposalObeyed(old(records));
      }
    }

    /** Any calls at all, one after the other. */
    method RunCalls(calls: seq<Call>) returns (outs: seq<Outputs>)
      requires Valid() && AreCalls(calls)
      modifies this, Repr()
      ensures Valid() && exempt == old(exempt) && fresh(Repr() - old(Repr()))
      ensures Accounts(old(records), records, calls, outs)
    {
      var i := 0;
      outs := [];
      NothingToAccountFor(records);
      while i < |calls|
        invariant i <= |calls|
        invariant Valid() && exempt == old(exempt) && fresh(Repr() - old(Repr()))
        invariant Accounts(old(records), records, calls[..i], outs)
      {
        ghost var rs := records;
        var out := Hear(calls[i]);
        OneAccount(rs, records, calls[i], out);
        AccountsAddUp(old(records), rs, records, calls[..i], outs, [calls[i]], [out]);
        assert calls[..i] + [calls[i]] == calls[..i + 1];
        outs := outs + [out];
        i := i + 1;
      }
      assert calls[..i] == calls;
    }

    // ---------------------------------------------------------------------- the timers

    /** The callback of a debounce timer. */
    method FireDebounce(h: nat, now: int) returns (out: Option<Output>)
      requires Valid() && h in alarms && alarms[h].purpose == Debounce && alarms[h].due <= now
      modifies this`alarms, this`records, alarms[h].state
      ensures Valid() && h !in alarms
      ensures var id, was := old(alarms[h].sessionId), old(View(alarms[h].sessionId));
        && WindowPassed(was.phase, now, idleDebounceMs)
        && out == Some(Terminal(Completed, was.phase.frozen))
        && View(id) == OnWindowCloses(was).session
        && Spared(old(records), records, id)
    {
      var Alarm(_, sessionId, st, _) := alarms[h];
      AlarmIsHeld(Holding(), h);
      DueMeansPassed(Holding(), sessionId, now);
      out := SpendDebounce(h, sessionId, st);
      ClosingLeads(old(Holding()), sessionId, st);
    }

    method RunDebounce(h: nat, st: SessionState) returns (out: Option<Output>)
      requires st.idleTimer == Some(h)
      modifies this`alarms, st
      ensures h !in alarms && SlateOn(st) == WindowClosed(old(SlateOn(st)))
      ensures out == ReportOnClose(old(st.Value()))
    {
      alarms := alarms - {h};
      st.idleTimer := None;
      st.idleSince := None;
      out := CompletePendingIdle(st);
    }

    method SpendDebounce(h: nat, sessionId: string, st: SessionState) returns (out: Option<Output>)
      requires Linked() && sessionId in sessions && sessions[sessionId] == st && st.idleTimer == Some(h)
      modifies this`alarms, this`records, st
      ensures Linked() && h !in alarms
      ensures Holding() == Put(old(Holding()), sessionId, WindowClosed(old(SlateIn(sessionId))))
      ensures out == ReportOnClose(old(records)[sessionId])
    {
      out := RunDebounce(h, st);
      Note(sessionId, st);
    }

    ghost predicate IsRunning(st: SessionState, phase: Phase)
      reads st
    {
      phase.Running? && st.status == Some(phase.status) && st.busySince == Some(phase.since)
    }

    /** The heartbeat timer of a session has fired: its handle is spent. */
    method StopBeat(h: nat, sessionId: string, st: SessionState) returns (ghost phase: Phase)
      requires Valid() && exempt.NoneCalling?
      requires h in alarms && alarms[h].purpose == Beat && alarms[h].sessionId == sessionId && alarms[h].state == st
      modifies this`alarms, this`records, this`exempt, st`heartbeatTimer
      ensures Valid() && exempt == Calling(sessionId, st) && sessionId in sessions && sessions[sessionId] == st
      ensures phase == old(View(sessionId)).phase && IsRunning(st, phase)
      ensures SameLooks(old(records), records)
    {
      SpentBeat(Holding(), h);
      phase := View(sessionId).phase;
      SpendBeat(h, sessionId, st);
    }

    method SpendBeat(h: nat, sessionId: string, st: SessionState)
      requires Linked() && sessionId in sessions && sessions[sessionId] == st && st.heartbeatTimer == Some(h)
      modifies this`alarms, this`records, this`exempt, st`heartbeatTimer
      ensures Linked() && Holding() == BeatSpent(old(Holding()), sessionId, st)
    {
      alarms := alarms - {h};
      st.heartbeatTimer := None;
      exempt := Calling(sessionId, st);
      Note(sessionId, st);
    }

    method BeatAgain(sessionId: string, st: SessionState, now: int)
      requires Valid() && sessionId in sessions && sessions[sessionId] == st && exempt == Calling(sessionId, st)
      requires st.status.Some? && st.heartbeatTimer.None?
      modifies this`alarms, this`nextHandle, this`records, this`exempt, st`heartbeatTimer
      ensures Valid() && exempt.NoneCalling?
      ensures SameLooks(old(records), records)
    {
      ResumedBeat(Holding(), sessionId, BeatAlarm(sessionId, st, now));
      ResumeBeat(sessionId, st, now);
    }

    method ResumeBeat(sessionId: string, st: SessionState, now: int)
      requires Linked() && sessionId in sessions && sessions[sessionId] == st
      modifies this`alarms, this`nextHandle, this`records, this`exempt, st`heartbeatTimer
      ensures Linked() && Holding() == BeatResumed(old(Holding()), sessionId, BeatAlarm(sessionId, st, now))
    {
      ArmHeartbeat(sessionId, st, now);
      exempt := NoneCalling;
      Note(sessionId, st);
    }

    /** After the report: arm again if there is a round to beat for. */
    method KeepBeating(sessionId: string, st: SessionState, now: int)
      requires Valid() && exempt == Calling(sessionId, st)
      modifies this`alarms, this`nextHandle, this`records, this`exempt, st`heartbeatTimer
      ensures Valid() && exempt.NoneCalling?
      ensures SameLooks(old(records), records)
    {
      if sessionId in sessions && sessions[sessionId] == st && st.busySince.Some? && st.status.Some?
         && st.heartbeatTimer.None? {
        BeatAgain(sessionId, st, now);
      } else {
        NothingToBeatFor(Holding(), sessionId, st);
        exempt := NoneCalling;
      }
    }

    /** The heartbeat callback with the calls made from inside it, and what follows. */
    method Report(sessionId: string, st: SessionState, now: int, calls: seq<Call>, later: int,
                  ghost phase: Phase, ghost was: Records)
      returns (tick: Option<Tick>, outs: seq<Outputs>)
      requires Valid() && sessionId in sessions && sessions[sessionId] == st && exempt == Calling(sessionId, st)
      requires IsRunning(st, phase) && AreCalls(calls) && SameLooks(was, records)
      modifies this, Repr()
      ensures Valid() && exempt.NoneCalling? && fresh(Repr() - old(Repr()))
      ensures tick == Some(Tick(sessionId, phase.status, Max(0, now - phase.since)))
      ensures Accounts(was, records, calls, outs)
    {
      tick := Some(Tick(sessionId, st.status.value, Max(0, now - st.busySince.value)));
      outs := RunCalls(calls);
      ghost var after := records;
      KeepBeating(sessionId, st, later);
      AccountsAlike(old(records), was, after, records, calls, outs);
    }

    method BeatOnce(h: nat, sessionId: string, st: SessionState, now: int, calls: seq<Call>, later: int)
      returns (tick: Option<Tick>, outs: seq<Outputs>)
      requires Valid() && exempt.NoneCalling? && AreCalls(calls)
      requires IsOwn(alarms, h, Beat, sessionId, st) && sessionId in sessions && sessions[sessionId] == st
      modifies this, Repr()
      ensures Valid() && exempt.NoneCalling? && fresh(Repr() - old(Repr()))
      ensures var was := old(View(sessionId));
        was.phase.Running? && tick == Some(Tick(sessionId, was.phase.status, Max(0, now - was.phase.since)))
      ensures Accounts(old(records), records, calls, outs)
    {
      ghost var phase := StopBeat(h, sessionId, st);
      tick, outs := Report(sessionId, st, now, calls, later, phase, old(records));
    }

    /** The callback of a heartbeat timer: report, with any calls at all made from inside
        the report, then arm again only if this record is still the session's and its
        round still active and unarmed. */
    method HeartbeatTick(h: nat, now: int, calls: seq<Call>, later: int)
      returns (tick: Option<Tick>, outs: seq<Outputs>)
      requires Valid() && exempt.NoneCalling? && AreCalls(calls)
      requires h in alarms && alarms[h].purpose == Beat && alarms[h].due <= now
      modifies this, Repr()
      ensures Valid() && exempt.NoneCalling? && fresh(Repr() - old(Repr()))
      ensures var id, was := old(alarms[h].sessionId), old(View(alarms[h].sessionId));
        was.phase.Running? && tick == Some(Tick(id, was.phase.status, Max(0, now - was.phase.since)))
      ensures Accounts(old(records), records, calls, outs)
    {
      AlarmIsHeld(Holding(), h);
      tick, outs := BeatOnce(h, alarms[h].sessionId, alarms[h].state, now, calls, later);
    }

    // ------------------------------------------------------------- runs of everything

    /** The session's debounce fires if it is due. */
    method LetDebounceFire(sessionId: string, now: int) returns (x: Happening)
      requires Valid()
      modifies this, Repr()
      ensures Valid() && exempt == old(exempt) && sessions == old(sessions)
      ensures Accounts(old(records), records, x.calls, x.outs)
      ensures Brings(old(View(sessionId)), DebounceFires(sessionId, now), x, idleDebounceMs)
    {
      DueMeansPassed(Holding(), sessionId, now);
      if sessionId in sessions && sessions[sessionId].idleTimer.Some? {
        var h := sessions[sessionId].idleTimer.value;
        HandleIsLive(Holding(), sessionId, Debounce);
        if alarms[h].due <= now {
          var out := FireDebounce(h, now);
          SignalObeyed(old(records), records, sessionId, WindowCloses, now, out);
          OneAccount(old(records), records, Signal(sessionId, WindowCloses, now), Only(sessionId, out));
          return Happening([Signal(sessionId, WindowCloses, now)], [Only(sessionId, out)], None);
        }
      }
      NothingToAccountFor(records);
      return NOTHING;
    }

    /** The session's heartbeat fires if it is due. */
    method LetBeatFire(sessionId: string, now: int, calls: seq<Call>, later: int) returns (x: Happening)
      requires Valid() && exempt.NoneCalling? && AreCalls(calls)
      modifies this, Repr()
      ensures Valid() && exempt.NoneCalling? && fresh(Repr() - old(Repr()))
      ensures Accounts(old(records), records, x.calls, x.outs)
      ensures Brings(old(View(sessionId)), BeatFires(sessionId, now, calls, later), x, idleDebounceMs)
      ensures x.tick.Some? <==> exists h :: IsAlarmOf(old(alarms), h, sessionId, Beat) && old(alarms)[h].due <= now
    {
      HeldBeat(Holding(), sessionId);
      if sessionId in sessions && sessions[sessionId].heartbeatTimer.Some? {
        var h := sessions[sessionId].heartbeatTimer.value;
        if alarms[h].due <= now {
          var tick, outs := HeartbeatTick(h, now, calls, later);
          return Happening(calls, outs, tick);
        }
      }
      NothingToAccountFor(records);
      return NOTHING;
    }

    /** A call, or a timer that fires if it is due. */
    method Play(m: Move) returns (x: Happening)
      requires Valid() && exempt.NoneCalling? && IsMove(m)
      modifies this, Repr()
      ensures Valid() && exempt.NoneCalling? && fresh(Repr() - old(Repr()))
      ensures Accounts(old(records), records, x.calls, x.outs)
      ensures Brings(old(View(Subject(m))), m, x, idleDebounceMs)
    {
      match m {
        case Say(c) =>
          var outs := Hear(c);
          OneAccount(old(records), records, c, outs);
          x := Happening([c], [outs], None);
        case DebounceFires(sessionId, now) =>
          x := LetDebounceFire(sessionId, now);
        case BeatFires(sessionId, now, calls, later) =>
          x := LetBeatFire(sessionId, now, calls, later);
      }
    }

    /** Any run of calls and timers, calls from inside the heartbeat callback included:
        every session is where its share of all that happened puts it, and the callbacks
        made are exactly those its history calls for. */
    method Run(moves: seq<Move>) returns (xs: seq<Happening>)
      requires Valid() && exempt.NoneCalling? && forall i :: 0 <= i < |moves| ==> IsMove(moves[i])
      modifies this, Repr()
      ensures Valid() && exempt.NoneCalling?
      ensures Runs(old(records), records, moves, xs, idleDebounceMs)
    {
      var i := 0;
      xs := [];
      NoRun(records, idleDebounceMs);
      while i < |moves|
        invariant i <= |moves|
        invariant Valid() && exempt.NoneCalling? && fresh(Repr() - old(Repr()))
        invariant Runs(old(records), records, moves[..i], xs, idleDebounceMs)
      {
        ghost var rs := records;
        var x := Play(moves[i]);
        RunsOn(old(records), rs, records, moves[..i], xs, moves[i], x, idleDebounceMs);
        assert moves[..i] + [moves[i]] == moves[..i + 1];
        xs := xs + [x];
        i := i + 1;
      }
      assert moves[..i] == moves;
    }
  }
}
