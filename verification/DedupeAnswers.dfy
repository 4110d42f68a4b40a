/** How a call of the dedupe is answered, in terms of the dispatches and successes of the
    run: at once, with another's dispatch, or with a dispatch of its own. */
module DedupeAnswers {
  import opened Prelude
  import opened EventDedupe

  /** The caller's own dispatch of the pair is under way, or settled and not yet put away. */
  predicate Dispatches(s: State, c: nat, key: Key) {
    && c < |s.callers| && s.callers[c].owner && s.callers[c].verdict == Pending
    && s.callers[c].run < |s.runs| && s.runs[s.callers[c].run].key == key
  }

  ghost predicate UnderWay(s: State, key: Key) {
    exists c :: Dispatches(s, c, key)
  }

  /** The pair was committed less than its time to live ago. */
  ghost predicate InWindow(s: State, key: Key, ttlMs: int) {
    exists i :: 0 <= i < |s.log| && s.log[i].key == key && s.clock < s.log[i].at + ttlMs
  }

  lemma StepOfRun(events: seq<Event>, e: Event, l: Limits)
    ensures After(events + [e], l) == Step(After(events, l), e, l) && Inv(After(events, l), l)
  {
    assert (events + [e])[..|events|] == events;
    EveryRunKeepsInv(events, l);
  }

  // ------------------------------------------------- in flight means under way

  ghost predicate FlightsAreOwned(s: State) {
    forall key :: key in s.inFlight ==> UnderWay(s, key)
  }

  lemma ArrivalKeepsOwners(s: State, key: Key)
    requires FlightsAreOwned(s)
    ensures FlightsAreOwned(Arrives(s, key))
  {
    var t := Arrives(s, key);
    forall k | k in t.inFlight ensures UnderWay(t, k) {
      if k in s.inFlight {
        var c :| Dispatches(s, c, k);
        assert Dispatches(t, c, k);
      } else {
        assert Dispatches(t, |s.callers|, k);
      }
    }
  }

  lemma SettlementKeepsOwners(s: State, run: nat, ok: bool)
    requires FlightsAreOwned(s)
    ensures FlightsAreOwned(Settles(s, run, ok))
  {
    var t := Settles(s, run, ok);
    forall k | k in t.inFlight ensures UnderWay(t, k) {
      var c :| Dispatches(s, c, k);
      assert Dispatches(t, c, k);
    }
  }

  lemma ResumptionKeepsOwners(s: State, caller: nat, l: Limits)
    requires FlightsAreOwned(s)
    ensures FlightsAreOwned(Resumes(s, caller, l))
  {
    var t := Resumes(s, caller, l);
    forall k | k in t.inFlight ensures UnderWay(t, k) {
      var c :| Dispatches(s, c, k);
      assert Dispatches(t, c, k);
    }
  }

  lemma {:induction false} EveryRunKeepsOwners(events: seq<Event>, l: Limits)
    ensures FlightsAreOwned(After(events, l))
    decreases |events|
  {
    if events != [] {
      var s := After(events[..|events| - 1], l);
      EveryRunKeepsOwners(events[..|events| - 1], l);
      match events[|events| - 1] {
        case Arrival(key) => ArrivalKeepsOwners(s, key);
        case Settlement(run, ok) => SettlementKeepsOwners(s, run, ok);
        case Resumption(caller) => ResumptionKeepsOwners(s, caller, l);
        case TimePasses(elapsed) =>
          var t := s.(clock := s.clock + elapsed);
          forall k | k in t.inFlight ensures UnderWay(t, k) {
            var c :| Dispatches(s, c, k);
            assert Dispatches(t, c, k);
          }
      }
    }
  }

  lemma InFlightMeansUnderWay(events: seq<Event>, l: Limits, key: Key)
    ensures var s := After(events, l);
      && (key in s.inFlight <==> UnderWay(s, key))
      && forall c: nat :: Dispatches(s, c, key) ==> key in s.inFlight && s.inFlight[key] == s.callers[c].run
  {
    EveryRunKeepsInv(events, l);
    EveryRunKeepsOwners(events, l);
    var s := After(events, l);
    forall c: nat | Dispatches(s, c, key) ensures key in s.inFlight && s.inFlight[key] == s.callers[c].run {
      assert InFlight(s, s.callers[c].run);
    }
  }

  // --------------------------------------------------------------- the three answers

  lemma LiveMeansInWindow(s: State, key: Key, l: Limits)
    requires Remembers(s, l) && IsLive(s.committed, key, s.clock)
    ensures InWindow(s, key, l.ttlMs)
  {
    var i :| 0 <= i < |s.committed| && s.committed[i].key == key && s.committed[i].expiresAt > s.clock;
    assert Left(s.committed[i], s.log, l.ttlMs);
  }

  /** A call is answered at once, as a duplicate, only if the pair was committed less than
      its time to live ago. */
  lemma AnsweredAtOnceOnlyInTheWindow(events: seq<Event>, l: Limits, key: Key)
    requires After(events + [Arrival(key)], l).callers == After(events, l).callers
    ensures InWindow(After(events, l), key, l.ttlMs)
  {
    var s := After(events, l);
    StepOfRun(events, Arrival(key), l);
    assert !IsLive(s.committed, key, s.clock) ==> |Arrives(s, key).callers| == |s.callers| + 1;
    LiveMeansInWindow(s, key, l);
  }

  /** And it is, if the last such commit was not followed by as many other pairs as the
      map may hold. */
  lemma AnsweredAtOnceInTheWindow(events: seq<Event>, l: Limits, key: Key, c: nat)
    requires var s := After(events, l);
      && c < |s.log| && s.log[c].key == key && (forall j :: c < j < |s.log| ==> s.log[j].key != key)
      && s.clock < s.log[c].at + l.ttlMs && |NewerKeys(s.log, c)| < l.maxSize
    ensures After(events + [Arrival(key)], l) == After(events, l)
  {
    var s := After(events, l);
    StepOfRun(events, Arrival(key), l);
    LastIsLast(s.log, key, c);
    assert LastOf(s.log, key) == c && !LostTrack(s.log, c, s.clock, l.ttlMs, l.maxSize);
    assert HasKey(s.committed, key);
    var i :| 0 <= i < |s.committed| && s.committed[i].key == key;
    assert Left(s.committed[i], s.log, l.ttlMs);
    assert IsLive(s.committed, key, s.clock);
  }

  /** When no dispatch of the pair is under way and every commit of it is as old as its
      time to live, the call starts a dispatch, which is its own. */
  lemma OutsideTheWindowADispatchStarts(events: seq<Event>, l: Limits, key: Key)
    requires !UnderWay(After(events, l), key) && !InWindow(After(events, l), key, l.ttlMs)
    ensures var s, t := After(events, l), After(events + [Arrival(key)], l);
      && t.runs == s.runs + [Run(key, s.clock, |s.log|, Flying)]
      && t.callers == s.callers + [Caller(|s.runs|, true, Pending)]
  {
    var s := After(events, l);
    StepOfRun(events, Arrival(key), l);
    InFlightMeansUnderWay(events, l, key);
    if IsLive(s.committed, key, s.clock) {
      LiveMeansInWindow(s, key, l);
    }
  }

  /** When one is under way and no commit is in force, the call waits for it. */
  lemma OutsideTheWindowACallWaits(events: seq<Event>, l: Limits, key: Key, c: nat)
    requires Dispatches(After(events, l), c, key) && !InWindow(After(events, l), key, l.ttlMs)
    ensures var s, t := After(events, l), After(events + [Arrival(key)], l);
      t.runs == s.runs && t.callers == s.callers + [Caller(s.callers[c].run, false, Pending)]
  {
    var s := After(events, l);
    StepOfRun(events, Arrival(key), l);
    InFlightMeansUnderWay(events, l, key);
    if IsLive(s.committed, key, s.clock) {
      LiveMeansInWindow(s, key, l);
    }
  }

  /** What the owner of a settled dispatch is told, and leaves behind: a success is
      committed at that instant, a failure is not, and either way the pair is free. */
  lemma OwnerPutsItsDispatchAway(events: seq<Event>, l: Limits, c: nat, key: Key)
    requires var s := After(events, l); Dispatches(s, c, key) && s.runs[s.callers[c].run].status != Flying
    ensures var s, t := After(events, l), After(events + [Resumption(c)], l);
      var run := s.callers[c].run;
      && !UnderWay(t, key) && |t.callers| == |s.callers|
      && (if s.runs[run].status == Landed
          then t.callers[c].verdict == Dispatched && t.log == s.log + [Commit(key, s.clock, run)]
          else t.callers[c].verdict == Failed && t.log == s.log)
  {
    var s := After(events, l);
    StepOfRun(events, Resumption(c), l);
    InFlightMeansUnderWay(events + [Resumption(c)], l, key);
  }
}
