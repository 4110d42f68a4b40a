/** One session's rounds: what the plugin reports of a session, as a function of the
    signals it heard about it. No timers and no handles: a session is in one of four
    phases, and the debounce window is a phase of its own. */
module SessionRounds {
  import opened Prelude

  datatype ProviderAction = ProviderAction(
    provider: string, title: string, message: string, caption: string, link: Option<string>, reason: Option<string>)

  /** What a pending action is remembered under. The digest of a provider action's
      identity is taken as the identity itself. */
  datatype ActionKey =
    | RequestKey(kind: Kind, requestId: string)
    | ProviderKey(provider: string, reason: string, caption: string)

  function ProviderKeyOf(a: ProviderAction): ActionKey {
    ProviderKey(a.provider, if a.reason.Some? then a.reason.value else a.title, a.caption)
  }

  datatype Details =
    | Ask(text: string)
    | Act(provider: string, title: string, message: string, caption: string, link: Option<string>)

  datatype Active = Busy | Retry

  datatype Outcome = Completed | Failed | Stopped

  function Rank(o: Outcome): nat {
    match o
    case Completed => 1
    case Failed => 2
    case Stopped => 3
  }

  function Higher(a: Outcome, b: Outcome): Outcome {
    if Rank(b) > Rank(a) then b else a
  }

  datatype Input =
    | Working(status: Active, action: Option<ProviderAction>)
    | Idle
    | Ends(outcome: Outcome)
    | Asked(kind: Kind, requestId: string, text: string)
    | Replied(kind: Kind, requestId: string)
    | WindowCloses
    | Dispose

  datatype Output =
    | Terminal(outcome: Outcome, elapsed: int)
    | Required(key: ActionKey, details: Details)
    | Resolved(key: ActionKey)

  /** Fresh: nothing heard. Running: at work since. Waiting: idle since, the round's
      elapsed time frozen, the completion not yet reported. Over: reported. */
  datatype Phase =
    | Fresh
    | Running(since: int, status: Active)
    | Waiting(begun: Option<int>, frozen: int, idleSince: int)
    | Over(best: Outcome)

  datatype Session = Session(phase: Phase, pending: set<ActionKey>)

  const UNKNOWN := Session(Fresh, {})

  datatype Reaction = Reaction(session: Session, output: Option<Output>)

  function Max(a: int, b: int): int {
    if a < b then b else a
  }

  function Since(p: Phase, now: int): int {
    match p
    case Running(b, _) => b
    case Waiting(Some(b), _, _) => b
    case _ => now
  }

  function Elapsed(p: Phase, now: int): int {
    match p
    case Running(b, _) => Max(0, now - b)
    case Waiting(_, frozen, _) => frozen
    case _ => 0
  }

  function WithoutProvider(pending: set<ActionKey>): set<ActionKey> {
    set k | k in pending && !k.ProviderKey?
  }

  function DetailsOf(a: ProviderAction): Details {
    Act(a.provider, a.title, a.message, a.caption, a.link)
  }

  function OnWorking(s: Session, status: Active, action: Option<ProviderAction>, now: int): Reaction {
    var phase := Running(Since(s.phase, now), status);
    if status == Busy then Reaction(Session(phase, WithoutProvider(s.pending)), None)
    else if action.None? || ProviderKeyOf(action.value) in s.pending then Reaction(Session(phase, s.pending), None)
    else
      var key := ProviderKeyOf(action.value);
      Reaction(Session(phase, WithoutProvider(s.pending) + {key}), Some(Required(key, DetailsOf(action.value))))
  }

  function OnIdle(s: Session, now: int): Session {
    match s.phase
    case Fresh => s.(phase := Waiting(None, 0, now))
    case Running(b, _) => s.(phase := Waiting(Some(b), Max(0, now - b), now))
    case _ => s
  }

  function OnEnds(s: Session, outcome: Outcome, now: int): Reaction {
    match s.phase
    case Over(best) => Reaction(Session(Over(Higher(best, outcome)), {}), None)
    case p => Reaction(Session(Over(outcome), {}), Some(Terminal(outcome, Elapsed(p, now))))
  }

  function OnWindowCloses(s: Session): Reaction {
    match s.phase
    case Waiting(_, frozen, _) => Reaction(Session(Over(Completed), {}), Some(Terminal(Completed, frozen)))
    case _ => Reaction(s, None)
  }

  function React(s: Session, i: Input, now: int): Reaction {
    match i
    case Working(status, action) => OnWorking(s, status, action, now)
    case Idle => Reaction(OnIdle(s, now), None)
    case Ends(outcome) => OnEnds(s, outcome, now)
    case Asked(kind, id, text) =>
      var key := RequestKey(kind, id);
      if key in s.pending then Reaction(s, None)
      else Reaction(s.(pending := s.pending + {key}), Some(Required(key, Ask(text))))
    case Replied(kind, id) =>
      var key := RequestKey(kind, id);
      if key in s.pending then Reaction(s.(pending := s.pending - {key}), Some(Resolved(key))) else Reaction(s, None)
    case WindowCloses => OnWindowCloses(s)
    case Dispose => Reaction(UNKNOWN, None)
  }

  // -------------------------------------------------------------------- histories

  datatype Heard = Heard(input: Input, at: int)

  type History = seq<Heard>

  /** The session after the first n inputs. */
  function After(h: History, n: nat): Session
    requires n <= |h|
  {
    if n == 0 then UNKNOWN else React(After(h, n - 1), h[n - 1].input, h[n - 1].at).session
  }

  /** What the i-th input made it report. */
  function Reported(h: History, i: nat): Option<Output>
    requires i < |h|
  {
    React(After(h, i), h[i].input, h[i].at).output
  }

  predicate IsActive(h: History, i: nat)
    requires i < |h|
  {
    h[i].input.Working?
  }

  /** The i-th input ends the round: a failure, a stop, a disposal or a completion. */
  predicate EndsRound(h: History, i: nat)
    requires i < |h|
  {
    h[i].input.Ends? || h[i].input.Dispose? || IsCompletion(h, i)
  }

  predicate IsCompletion(h: History, i: nat)
    requires i < |h|
  {
    match Reported(h, i)
    case Some(Terminal(Completed, _)) => true
    case _ => false
  }

  predicate IsTerminal(h: History, i: nat)
    requires i < |h|
  {
    Reported(h, i).Some? && Reported(h, i).value.Terminal?
  }

  /** Where the round that the n-th input falls into begins: after the last input that
      ended one. */
  function RoundStart(h: History, n: nat): (k: nat)
    requires n <= |h|
    ensures k <= n
  {
    if n == 0 then 0 else if EndsRound(h, n - 1) then n else RoundStart(h, n - 1)
  }

  /** The first busy or retry of the round. */
  function FirstActive(h: History, k: nat, n: nat): (a: Option<nat>)
    requires k <= n <= |h|
    ensures a.Some? ==> k <= a.value < n
  {
    if n == k then None
    else
      match FirstActive(h, k, n - 1)
      case Some(a) => Some(a)
      case None => if IsActive(h, n - 1) then Some(n - 1) else None
  }

  /** The first idle since the last busy or retry of the round. */
  function OpenIdle(h: History, k: nat, n: nat): (j: Option<nat>)
    requires k <= n <= |h|
    ensures j.Some? ==> k <= j.value < n
  {
    if n == k then None
    else if IsActive(h, n - 1) then None
    else
      match OpenIdle(h, k, n - 1)
      case Some(j) => Some(j)
      case None => if h[n - 1].input.Idle? then Some(n - 1) else None
  }

  /** What the three searches find. */
  lemma {:induction false} RoundStartMeans(h: History, n: nat)
    requires n <= |h|
    ensures var k := RoundStart(h, n);
      && (k > 0 ==> EndsRound(h, k - 1))
      && forall m :: k <= m < n ==> !EndsRound(h, m)
  {
    if n > 0 && !EndsRound(h, n - 1) {
      RoundStartMeans(h, n - 1);
    }
  }

  lemma {:induction false} FirstActiveMeans(h: History, k: nat, n: nat)
    requires k <= n <= |h|
    ensures match FirstActive(h, k, n)
      case Some(a) => IsActive(h, a) && forall m :: k <= m < a ==> !IsActive(h, m)
      case None => forall m :: k <= m < n ==> !IsActive(h, m)
  {
    if k < n {
      FirstActiveMeans(h, k, n - 1);
    }
  }

  lemma {:induction false} OpenIdleMeans(h: History, k: nat, n: nat)
    requires k <= n <= |h|
    ensures match OpenIdle(h, k, n)
      case Some(j) =>
        && h[j].input.Idle? && (forall m :: j < m < n ==> !IsActive(h, m))
        && forall m :: k <= m < j && h[m].input.Idle? ==> exists a :: m < a < j && IsActive(h, a)
      case None => forall m :: k <= m < n && h[m].input.Idle? ==> exists a :: m < a < n && IsActive(h, a)
  {
    if k < n {
      OpenIdleMeans(h, k, n - 1);
      if IsActive(h, n - 1) {
        forall m | k <= m < n && h[m].input.Idle? ensures exists a :: m < a < n && IsActive(h, a) {
          assert IsActive(h, n - 1);
        }
      }
    }
  }

  /** The round began after a terminal, not with the session or its disposal. */
  predicate BeganAfterTerminal(h: History, k: nat)
    requires k <= |h|
  {
    k > 0 && !h[k - 1].input.Dispose?
  }

  /** The working time of the round up to instant `at`. */
  function WorkedUntil(h: History, a: Option<nat>, at: int): int
    requires a.Some? ==> a.value < |h|
  {
    if a.None? then 0 else Max(0, at - h[a.value].at)
  }

  /** What the phase means in terms of the signals heard. */
  predicate Explains(p: Phase, h: History, n: nat)
    requires n <= |h|
  {
    var k := RoundStart(h, n);
    var a, j := FirstActive(h, k, n), OpenIdle(h, k, n);
    if a.None? && BeganAfterTerminal(h, k) then p.Over?
    else if j.Some? then
      p == Waiting(if a.Some? then Some(h[a.value].at) else None, WorkedUntil(h, a, h[j.value].at), h[j.value].at)
    else if a.Some? then p.Running? && p.since == h[a.value].at
    else p.Fresh?
  }

  lemma {:induction false} PhaseIsExplained(h: History, n: nat)
    requires n <= |h|
    ensures Explains(After(h, n).phase, h, n)
  {
    if n > 0 {
      PhaseIsExplained(h, n - 1);
      if EndsRound(h, n - 1) {
        EndedPhaseIsExplained(h, n);
      } else if IsActive(h, n - 1) {
        ActivePhaseIsExplained(h, n);
      } else {
        OtherPhaseIsExplained(h, n);
      }
    }
  }

  lemma EndedPhaseIsExplained(h: History, n: nat)
    requires 0 < n <= |h| && EndsRound(h, n - 1)
    ensures Explains(After(h, n).phase, h, n)
  {
    assert RoundStart(h, n) == n;
    assert FirstActive(h, n, n) == None && OpenIdle(h, n, n) == None;
  }

  lemma ActivePhaseIsExplained(h: History, n: nat)
    requires 0 < n <= |h| && IsActive(h, n - 1) && !EndsRound(h, n - 1)
    requires Explains(After(h, n - 1).phase, h, n - 1)
    ensures Explains(After(h, n).phase, h, n)
  {
    var k := RoundStart(h, n - 1);
    assert RoundStart(h, n) == k && OpenIdle(h, k, n) == None;
    OpenIdleAfterActive(h, k, n - 1);
  }

  /** An open idle of a round without work can only be its first signal. */
  lemma {:induction false} OpenIdleAfterActive(h: History, k: nat, n: nat)
    requires k <= n <= |h|
    ensures FirstActive(h, k, n).Some? && OpenIdle(h, k, n).Some? ==>
      FirstActive(h, k, n).value < OpenIdle(h, k, n).value
  {
    FirstActiveMeans(h, k, n);
    OpenIdleMeans(h, k, n);
  }

  lemma OtherPhaseIsExplained(h: History, n: nat)
    requires 0 < n <= |h| && !IsActive(h, n - 1) && !EndsRound(h, n - 1)
    requires Explains(After(h, n - 1).phase, h, n - 1)
    ensures Explains(After(h, n).phase, h, n)
  {
    var k := RoundStart(h, n - 1);
    assert RoundStart(h, n) == k && FirstActive(h, k, n) == FirstActive(h, k, n - 1);
  }

  /** A completion is reported exactly when the debounce window closes (its timer fires
      or a flush comes) on a round whose last signal was an idle, nothing having ended
      the round or resumed work since; and it reports the working time up to the
      first idle of that window, counted from the first busy or retry of the round,
      or 0 when none was heard. */
  lemma CompletionIsReportedExactly(h: History, i: nat, elapsed: int)
    requires i < |h| && h[i].input != Ends(Completed)
    ensures var k := RoundStart(h, i);
      var a, j := FirstActive(h, k, i), OpenIdle(h, k, i);
      Reported(h, i) == Some(Terminal(Completed, elapsed))
      <==> h[i].input.WindowCloses? && j.Some? && (a.Some? || !BeganAfterTerminal(h, k))
           && elapsed == WorkedUntil(h, a, h[j.value].at)
  {
    PhaseIsExplained(h, i);
  }

  lemma ElapsedIsWorkedTime(h: History, i: nat, now: int)
    requires i <= |h|
    ensures var k, p := RoundStart(h, i), After(h, i).phase;
      var a, j := FirstActive(h, k, i), OpenIdle(h, k, i);
      && (p.Over? <==> a.None? && BeganAfterTerminal(h, k))
      && (!p.Over? ==> Elapsed(p, now) == WorkedUntil(h, a, if j.Some? then h[j.value].at else now))
  {
    PhaseIsExplained(h, i);
  }

  /** A failure or a stop is reported at once, unless a terminal already was and no
      work was heard since; during the debounce window it reports the frozen time. */
  lemma FailureIsReportedExactly(h: History, i: nat, outcome: Outcome, elapsed: int)
    requires i < |h| && outcome != Completed
    ensures var k := RoundStart(h, i);
      var a, j := FirstActive(h, k, i), OpenIdle(h, k, i);
      Reported(h, i) == Some(Terminal(outcome, elapsed))
      <==> h[i].input == Ends(outcome) && (a.Some? || !BeganAfterTerminal(h, k))
           && elapsed == WorkedUntil(h, a, if j.Some? then h[j.value].at else h[i].at)
  {
    ElapsedIsWorkedTime(h, i, h[i].at);
    EndsReports(After(h, i), h[i].input, h[i].at, outcome, elapsed);
  }

  lemma EndsReports(s: Session, input: Input, now: int, outcome: Outcome, elapsed: int)
    requires outcome != Completed
    ensures React(s, input, now).output == Some(Terminal(outcome, elapsed))
      <==> input == Ends(outcome) && !s.phase.Over? && elapsed == Elapsed(s.phase, now)
  {
  }

  lemma NoTerminalWhenOver(h: History, j: nat)
    requires j < |h| && After(h, j).phase.Over?
    ensures !IsTerminal(h, j)
  {
  }

  lemma TerminalEndsRound(h: History, i: nat)
    requires i < |h| && IsTerminal(h, i)
    ensures EndsRound(h, i) && !h[i].input.Dispose?
  {
  }

  /** Between two terminals of one session there is a busy or retry, or a disposal. */
  lemma {:induction false} TerminalsAreSeparatedByWork(h: History, i: nat, j: nat)
    requires i < j < |h| && IsTerminal(h, i) && IsTerminal(h, j)
    ensures exists m :: i < m < j && (IsActive(h, m) || h[m].input.Dispose?)
  {
    var k := RoundStart(h, j);
    PhaseIsExplained(h, j);
    RoundStartMeans(h, j);
    TerminalEndsRound(h, i);
    FirstActiveMeans(h, k, j);
    if FirstActive(h, k, j).None? && BeganAfterTerminal(h, k) {
      NoTerminalWhenOver(h, j);
    }
    if FirstActive(h, k, j).Some? {
      assert IsActive(h, FirstActive(h, k, j).value);
    } else {
      assert h[k - 1].input.Dispose?;
    }
  }

  // ------------------------------------------------------- the recorded outcome

  /** What the i-th input says about how the round ended, if anything. */
  function Verdict(h: History, i: nat): Option<Outcome>
    requires i < |h|
  {
    match h[i].input
    case Ends(outcome) => Some(outcome)
    case _ => if IsCompletion(h, i) then Some(Completed) else None
  }

  /** Where the current ending began: after the last busy, retry or disposal. */
  function EndingStart(h: History, n: nat): (m: nat)
    requires n <= |h|
    ensures m <= n
  {
    if n == 0 then 0
    else if IsActive(h, n - 1) || h[n - 1].input.Dispose? then n
    else EndingStart(h, n - 1)
  }

  /** Once a round is over, the recorded outcome is the highest-ranked of the verdicts
      since the last busy, retry or disposal. */
  lemma {:induction false} RecordedOutcomeIsHighestRanked(h: History, n: nat)
    requires n <= |h| && After(h, n).phase.Over?
    ensures var best, m := After(h, n).phase.best, EndingStart(h, n);
      && (exists i :: m <= i < n && Verdict(h, i) == Some(best))
      && (forall i :: m <= i < n && Verdict(h, i).Some? ==> Rank(Verdict(h, i).value) <= Rank(best))
  {
    var m := EndingStart(h, n);
    if After(h, n - 1).phase.Over? {
      RecordedOutcomeIsHighestRanked(h, n - 1);
      assert EndingStart(h, n - 1) == m;
      OverPersists(h, n);
      var i :| m <= i < n - 1 && Verdict(h, i) == Some(After(h, n - 1).phase.best);
      assert Verdict(h, i) == Some(After(h, n).phase.best) || Verdict(h, n - 1) == Some(After(h, n).phase.best);
    } else {
      FirstVerdict(h, n);
      NoVerdictBefore(h, n - 1);
    }
  }

  lemma OverPersists(h: History, n: nat)
    requires 0 < n <= |h| && After(h, n).phase.Over? && After(h, n - 1).phase.Over?
    ensures var before, best := After(h, n - 1).phase.best, After(h, n).phase.best;
      && best == (if Verdict(h, n - 1).Some? then Higher(before, Verdict(h, n - 1).value) else before)
      && EndingStart(h, n) == EndingStart(h, n - 1)
  {
  }

  lemma FirstVerdict(h: History, n: nat)
    requires 0 < n <= |h| && After(h, n).phase.Over? && !After(h, n - 1).phase.Over?
    ensures Verdict(h, n - 1) == Some(After(h, n).phase.best) && EndingStart(h, n) == EndingStart(h, n - 1)
  {
  }

  lemma {:induction false} NoVerdictBefore(h: History, n: nat)
    requires n <= |h| && !After(h, n).phase.Over?
    ensures forall i :: EndingStart(h, n) <= i < n ==> Verdict(h, i).None?
  {
    if n > 0 && !IsActive(h, n - 1) && !h[n - 1].input.Dispose? {
      assert !After(h, n - 1).phase.Over?;
      NoVerdictBefore(h, n - 1);
    }
  }

  // ------------------------------------------------------------ pending actions

  /** The i-th input asked for the action to be taken, and was passed on. */
  predicate Raises(h: History, i: nat, key: ActionKey)
    requires i < |h|
  {
    Reported(h, i).Some? && Reported(h, i).value.Required? && Reported(h, i).value.key == key
  }

  /** The i-th input makes an action of this key a thing of the past. */
  ghost predicate Clears(h: History, i: nat, key: ActionKey)
    requires i < |h|
  {
    || EndsRound(h, i)
    || (key.RequestKey? && h[i].input == Replied(key.kind, key.requestId))
    || (key.ProviderKey? && h[i].input.Working? && h[i].input.status == Busy)
    || (key.ProviderKey? && exists other: ActionKey :: other.ProviderKey? && other != key && Raises(h, i, other))
  }

  lemma PendingStep(h: History, i: nat, key: ActionKey)
    requires i < |h|
    ensures key in After(h, i + 1).pending
        <==> Raises(h, i, key) || (key in After(h, i).pending && !Clears(h, i, key))
    ensures Raises(h, i, key) ==> !Clears(h, i, key) && key !in After(h, i).pending
  {
    if key.ProviderKey? && Reported(h, i).Some? && Reported(h, i).value.Required? {
      var other := Reported(h, i).value.key;
      assert Raises(h, i, other);
    }
  }

  /** An action is pending exactly when it was raised and nothing has cleared it since. */
  lemma {:induction false} PendingMeansRaisedAndNotCleared(h: History, n: nat, key: ActionKey)
    requires n <= |h|
    ensures key in After(h, n).pending
        <==> exists i :: 0 <= i < n && Raises(h, i, key) && forall m :: i < m < n ==> !Clears(h, m, key)
  {
    if n > 0 {
      PendingMeansRaisedAndNotCleared(h, n - 1, key);
      PendingStep(h, n - 1, key);
      if key in After(h, n).pending && !Raises(h, n - 1, key) {
        var i :| 0 <= i < n - 1 && Raises(h, i, key) && forall m :: i < m < n - 1 ==> !Clears(h, m, key);
        assert forall m :: i < m < n ==> !Clears(h, m, key);
      }
      if i :| 0 <= i < n && Raises(h, i, key) && forall m :: i < m < n ==> !Clears(h, m, key) {
        assert i < n - 1 ==> key in After(h, n - 1).pending && !Clears(h, n - 1, key);
      }
    }
  }

  /** A resolution is reported only for an action raised before it and not cleared in
      between; provider actions are never reported as resolved. */
  lemma ResolutionFollowsItsRequest(h: History, j: nat, key: ActionKey)
    requires j < |h| && Reported(h, j) == Some(Resolved(key))
    ensures key.RequestKey? && h[j].input == Replied(key.kind, key.requestId)
    ensures exists i :: 0 <= i < j && Raises(h, i, key) && forall m :: i < m < j ==> !Clears(h, m, key)
  {
    PendingMeansRaisedAndNotCleared(h, j, key);
  }

  /** The same action is raised again only after something cleared it. */
  lemma RepeatedRequestWasClearedBetween(h: History, i: nat, j: nat, key: ActionKey)
    requires i < j < |h| && Raises(h, i, key) && Raises(h, j, key)
    ensures exists m :: i < m < j && Clears(h, m, key)
  {
    PendingStep(h, j, key);
    PendingMeansRaisedAndNotCleared(h, j, key);
  }

  /** At most one provider action is pending. */
  lemma {:induction false} OneProviderActionPending(h: History, n: nat, a: ActionKey, b: ActionKey)
    requires n <= |h| && a in After(h, n).pending && b in After(h, n).pending
    requires a.ProviderKey? && b.ProviderKey?
    ensures a == b
  {
    if n > 0 && a in After(h, n - 1).pending && b in After(h, n - 1).pending {
      OneProviderActionPending(h, n - 1, a, b);
    }
  }
}
