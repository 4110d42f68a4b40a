/** Runs of the session machine: the calls and timers it sees, what each session hears
    of them, and what it means that every session is where its share of them puts it
    and that exactly its reports were made. */
module SessionCalls {
  import opened Prelude
  import opened SessionRounds
  import opened SessionTimers

  /** A call on the machine, as made from outside or from inside a callback. */
  datatype Call =
    | Signal(sessionId: string, input: Input, at: int)
    | FlushPendingCompletions
    | DisposeAll

  /** The callbacks made during a call, by session. */
  type Outputs = map<string, Output>

  /** The inputs that have a method of their own; the window closes by timer or flush. */
  predicate IsCall(c: Call) {
    c.Signal? ==> !c.input.WindowCloses? && c.input != Ends(Completed)
  }

  predicate AreCalls(calls: seq<Call>) {
    forall i :: 0 <= i < |calls| ==> IsCall(calls[i])
  }

  function Heards(c: Call, sessionId: string): History {
    match c
    case Signal(id, input, at) => if id == sessionId then [Heard(input, at)] else []
    case FlushPendingCompletions => [Heard(WindowCloses, 0)]
    case DisposeAll => [Heard(Dispose, 0)]
  }

  /** What a call makes of one session. */
  function Does(s: Session, c: Call, sessionId: string): Reaction {
    var h := Heards(c, sessionId);
    if h == [] then Reaction(s, None) else React(s, h[0].input, h[0].at)
  }

  /** What a session has heard in a run of calls. */
  function Project(calls: seq<Call>, sessionId: string): History
    decreases |calls|
  {
    if calls == [] then [] else Project(calls[..|calls| - 1], sessionId) + Heards(calls[|calls| - 1], sessionId)
  }

  /** What a stretch of history makes of a session. */
  function Upon(s: Session, h: History): Session
    decreases |h|
  {
    if h == [] then s else React(Upon(s, h[..|h| - 1]), h[|h| - 1].input, h[|h| - 1].at).session
  }

  lemma FrontOfPlus<T>(a: seq<T>, b: seq<T>)
    requires b != []
    ensures (a + b)[..|a + b| - 1] == a + b[..|b| - 1] && (a + b)[|a + b| - 1] == b[|b| - 1]
  {
  }

  lemma PlusIsAssociative<T>(a: seq<T>, b: seq<T>, c: seq<T>)
    ensures a + b + c == a + (b + c)
  {
  }

  lemma PlusIsPrefix<T>(a: seq<T>, b: seq<T>, c: seq<T>)
    requires a + b <= c
    ensures a <= c && (b != [] ==> |a| < |c| && c[|a|] == b[0])
  {
    assert b != [] ==> (a + b)[|a|] == b[0];
  }

  lemma TakeOfPlus<T>(a: seq<T>, b: seq<T>, i: nat)
    requires i <= |a + b|
    ensures (a + b)[..i] == if i <= |a| then a[..i] else a + b[..i - |a|]
  {
  }

  lemma {:induction false} UponAll(s: Session, h: History, g: History)
    ensures Upon(s, h + g) == Upon(Upon(s, h), g)
    decreases |g|
  {
    if g == [] {
      assert h + g == h;
    } else {
      UponAll(s, h, g[..|g| - 1]);
      FrontOfPlus(h, g);
    }
  }

  lemma {:induction false} ProjectAll(a: seq<Call>, b: seq<Call>, sessionId: string)
    ensures Project(a + b, sessionId) == Project(a, sessionId) + Project(b, sessionId)
    decreases |b|
  {
    if b == [] {
      assert a + b == a;
    } else {
      var n := |b| - 1;
      ProjectAll(a, b[..n], sessionId);
      FrontOfPlus(a, b);
      PlusIsAssociative(Project(a, sessionId), Project(b[..n], sessionId), Heards(b[n], sessionId));
    }
  }

  lemma ProjectOne(c: Call, sessionId: string)
    ensures Project([c], sessionId) == Heards(c, sessionId)
  {
    assert [c][..0] == [];
  }

  /** From the start of a session, histories are those of its rounds. */
  lemma {:induction false} UponIsAfter(h: History)
    ensures Upon(UNKNOWN, h) == After(h, |h|)
    decreases |h|
  {
    if h != [] {
      UponIsAfter(h[..|h| - 1]);
      AfterPrefix(h[..|h| - 1], h, |h| - 1);
    }
  }

  lemma {:induction false} AfterPrefix(h: History, g: History, n: nat)
    requires n <= |h| && h <= g
    ensures After(h, n) == After(g, n)
  {
    if n > 0 {
      AfterPrefix(h, g, n - 1);
    }
  }

  function OutputOf(outs: Outputs, sessionId: string): Option<Output> {
    if sessionId in outs then Some(outs[sessionId]) else None
  }

  function Only(sessionId: string, out: Option<Output>): Outputs {
    if out.Some? then map[sessionId := out.value] else map[]
  }

  // ---------------------------------------------------------------- a call obeyed

  predicate ObeyedAt(was: Records, rs: Records, outs: Outputs, c: Call, sessionId: string) {
    Reaction(Look(rs, sessionId), OutputOf(outs, sessionId)) == Does(Look(was, sessionId), c, sessionId)
  }

  /** Every session reacted to the call as it should. */
  ghost predicate Obeyed(was: Records, rs: Records, outs: Outputs, c: Call) {
    forall s :: ObeyedAt(was, rs, outs, c, s)
  }

  lemma SignalObeyed(was: Records, rs: Records, sessionId: string, input: Input, now: int, out: Option<Output>)
    requires Reaction(Look(rs, sessionId), out) == React(Look(was, sessionId), input, now)
    requires Spared(was, rs, sessionId)
    ensures Obeyed(was, rs, Only(sessionId, out), Signal(sessionId, input, now))
  {
    forall s ensures ObeyedAt(was, rs, Only(sessionId, out), Signal(sessionId, input, now), s) {
      if s != sessionId {
        SparedLooks(was, rs, sessionId, s);
      }
    }
  }

  /** The session's debounce window has been closed, or it is still to be looked at. */
  predicate FlushedAt(was: Records, rs: Records, outs: Outputs, rest: set<string>, sessionId: string) {
    if sessionId in rest then Look(rs, sessionId) == Look(was, sessionId) && sessionId !in outs
    else Reaction(Look(rs, sessionId), OutputOf(outs, sessionId)) == OnWindowCloses(Look(was, sessionId))
  }

  ghost predicate Flushed(was: Records, rs: Records, outs: Outputs, rest: set<string>) {
    forall s :: FlushedAt(was, rs, outs, rest, s)
  }

  lemma NothingFlushed(rs: Records)
    ensures Flushed(rs, rs, map[], rs.Keys)
  {
  }

  lemma FlushedStep(was: Records, rs: Records, outs: Outputs, rest: set<string>,
                    sessionId: string, rs': Records, out: Option<Output>)
    requires Flushed(was, rs, outs, rest) && sessionId in rest && Spared(rs, rs', sessionId)
    requires Reaction(Look(rs', sessionId), out) == OnWindowCloses(Look(rs, sessionId))
    ensures Flushed(was, rs', outs + Only(sessionId, out), rest - {sessionId})
  {
    var outs' := outs + Only(sessionId, out);
    forall s ensures FlushedAt(was, rs', outs', rest - {sessionId}, s) {
      assert FlushedAt(was, rs, outs, rest, s);
      if s != sessionId {
        SparedLooks(rs, rs', sessionId, s);
      }
    }
  }

  lemma FlushObeyed(was: Records, rs: Records, outs: Outputs)
    requires Flushed(was, rs, outs, {})
    ensures Obeyed(was, rs, outs, FlushPendingCompletions)
  {
    forall s ensures ObeyedAt(was, rs, outs, FlushPendingCompletions, s) {
      assert FlushedAt(was, rs, outs, {}, s);
    }
  }

  lemma DisposalObeyed(was: Records)
    ensures Obeyed(was, map[], map[], DisposeAll)
  {
  }

  // ----------------------------------------------------------------- calls accounted for

  predicate FollowedAt(was: Records, rs: Records, calls: seq<Call>, sessionId: string) {
    Look(rs, sessionId) == Upon(Look(was, sessionId), Project(calls, sessionId))
  }

  /** Every session is where its own share of the calls puts it. */
  ghost predicate Followed(was: Records, rs: Records, calls: seq<Call>) {
    forall s :: FollowedAt(was, rs, calls, s)
  }

  predicate AnsweredAt(was: Records, before: seq<Call>, c: Call, outs: Outputs, sessionId: string) {
    OutputOf(outs, sessionId) == Does(Upon(Look(was, sessionId), Project(before, sessionId)), c, sessionId).output
  }

  /** After the calls before it, the call made every session report what it should. */
  ghost predicate Answered(was: Records, before: seq<Call>, c: Call, outs: Outputs) {
    forall s :: AnsweredAt(was, before, c, outs, s)
  }

  /** The calls took every session where its share of them puts it, and each made every
      session report exactly what it should. */
  ghost predicate Accounts(was: Records, rs: Records, calls: seq<Call>, outs: seq<Outputs>) {
    && |outs| == |calls|
    && Followed(was, rs, calls)
    && forall i :: 0 <= i < |calls| ==> Answered(was, calls[..i], calls[i], outs[i])
  }

  lemma NothingToAccountFor(rs: Records)
    ensures Accounts(rs, rs, [], [])
  {
  }

  lemma OneAccount(was: Records, rs: Records, c: Call, outs: Outputs)
    requires Obeyed(was, rs, outs, c)
    ensures Accounts(was, rs, [c], [outs])
  {
    forall s ensures FollowedAt(was, rs, [c], s) && AnsweredAt(was, [], c, outs, s) {
      assert ObeyedAt(was, rs, outs, c, s);
      ProjectOne(c, s);
      var h := Heards(c, s);
      assert h != [] ==> h[..0] == [];
    }
    assert [c][..0] == [];
    assert Answered(was, [c][..0], [c][0], [outs][0]);
  }

  lemma AnsweredLater(was: Records, mid: Records, first: seq<Call>, before: seq<Call>, c: Call, outs: Outputs)
    requires Followed(was, mid, first) && Answered(mid, before, c, outs)
    ensures Answered(was, first + before, c, outs)
  {
    forall s ensures AnsweredAt(was, first + before, c, outs, s) {
      assert FollowedAt(was, mid, first, s) && AnsweredAt(mid, before, c, outs, s);
      ProjectAll(first, before, s);
      UponAll(Look(was, s), Project(first, s), Project(before, s));
    }
  }

  lemma FollowedOn(was: Records, mid: Records, rs: Records, a: seq<Call>, b: seq<Call>)
    requires Followed(was, mid, a) && Followed(mid, rs, b)
    ensures Followed(was, rs, a + b)
  {
    forall s ensures FollowedAt(was, rs, a + b, s) {
      assert FollowedAt(was, mid, a, s) && FollowedAt(mid, rs, b, s);
      ProjectAll(a, b, s);
      UponAll(Look(was, s), Project(a, s), Project(b, s));
    }
  }

  /** Accounts add up. */
  lemma AccountsAddUp(was: Records, mid: Records, rs: Records,
                      a: seq<Call>, x: seq<Outputs>, b: seq<Call>, y: seq<Outputs>)
    requires Accounts(was, mid, a, x) && Accounts(mid, rs, b, y)
    ensures Accounts(was, rs, a + b, x + y)
  {
    FollowedOn(was, mid, rs, a, b);
    forall i | 0 <= i < |a + b| ensures Answered(was, (a + b)[..i], (a + b)[i], (x + y)[i]) {
      AnsweredInTheSum(was, mid, a, x, b, y, i);
    }
  }

  lemma AnsweredInTheSum(was: Records, mid: Records, a: seq<Call>, x: seq<Outputs>,
                        b: seq<Call>, y: seq<Outputs>, i: nat)
    requires Followed(was, mid, a) && |a| == |x| && |b| == |y| && i < |a + b|
    requires i < |a| ==> Answered(was, a[..i], a[i], x[i])
    requires |a| <= i ==> Answered(mid, b[..i - |a|], b[i - |a|], y[i - |a|])
    ensures Answered(was, (a + b)[..i], (a + b)[i], (x + y)[i])
  {
    TakeOfPlus(a, b, i);
    if |a| <= i {
      var j := i - |a|;
      AnsweredLater(was, mid, a, b[..j], b[j], y[j]);
      assert i == |a| ==> a[..i] == a + b[..j];
    }
  }

  lemma AccountsAlike(was: Records, was': Records, rs: Records, rs': Records, calls: seq<Call>, outs: seq<Outputs>)
    requires Accounts(was, rs, calls, outs) && SameLooks(was, was') && SameLooks(rs, rs')
    ensures Accounts(was', rs', calls, outs)
  {
    forall s ensures FollowedAt(was', rs', calls, s) {
      assert FollowedAt(was, rs, calls, s);
      assert Look(was', s) == Look(was, s) && Look(rs', s) == Look(rs, s);
    }
    forall i | 0 <= i < |calls| ensures Answered(was', calls[..i], calls[i], outs[i]) {
      assert Answered(was, calls[..i], calls[i], outs[i]);
      AnsweredAlike(was, was', calls[..i], calls[i], outs[i]);
    }
  }

  lemma AnsweredAlike(was: Records, was': Records, before: seq<Call>, c: Call, outs: Outputs)
    requires Answered(was, before, c, outs) && SameLooks(was, was')
    ensures Answered(was', before, c, outs)
  {
    forall s ensures AnsweredAt(was', before, c, outs, s) {
      assert AnsweredAt(was, before, c, outs, s) && Look(was', s) == Look(was, s);
    }
  }

  lemma {:induction false} ProjectsBegin(calls: seq<Call>, n: nat, sessionId: string)
    requires n <= |calls|
    ensures Project(calls[..n], sessionId) <= Project(calls, sessionId)
  {
    assert calls[..n] + calls[n..] == calls;
    ProjectAll(calls[..n], calls[n..], sessionId);
  }

  lemma AnswersAreReported(h: History, before: seq<Call>, c: Call, outs: Outputs, sessionId: string)
    requires AnsweredAt(map[], before, c, outs, sessionId)
    requires Project(before, sessionId) + Heards(c, sessionId) <= h
    ensures var n := |Project(before, sessionId)|;
      if Heards(c, sessionId) == [] then sessionId !in outs
      else n < |h| && [h[n]] == Heards(c, sessionId) && OutputOf(outs, sessionId) == Reported(h, n)
  {
    var g, heard := Project(before, sessionId), Heards(c, sessionId);
    UponIsAfter(g);
    PlusIsPrefix(g, heard, h);
    AfterPrefix(g, h, |g|);
    assert |heard| <= 1 && (heard != [] ==> [heard[0]] == heard);
  }

  /** What a session reports in a run of a new machine is what the history of its signals
      makes it report. */
  lemma ReportsAreOfTheHistory(rs: Records, calls: seq<Call>, outs: seq<Outputs>, i: nat, sessionId: string)
    requires Accounts(map[], rs, calls, outs) && i < |calls|
    ensures var h, n := Project(calls, sessionId), |Project(calls[..i], sessionId)|;
      && Look(rs, sessionId) == After(h, |h|)
      && if Heards(calls[i], sessionId) == [] then sessionId !in outs[i]
         else n < |h| && [h[n]] == Heards(calls[i], sessionId) && OutputOf(outs[i], sessionId) == Reported(h, n)
  {
    var h := Project(calls, sessionId);
    assert FollowedAt(map[], rs, calls, sessionId);
    UponIsAfter(h);
    assert Answered(map[], calls[..i], calls[i], outs[i]);
    assert AnsweredAt(map[], calls[..i], calls[i], outs[i], sessionId);
    assert calls[..i + 1][..i] == calls[..i];
    ProjectsBegin(calls, i + 1, sessionId);
    AnswersAreReported(h, calls[..i], calls[i], outs[i], sessionId);
  }

  // --------------------------------------------------------- runs of calls and timers

  /** One thing that happens to the machine: a call, or a look whether a session's timer
      is due. `calls` are those made from inside the heartbeat callback, `later` the
      time after it. */
  datatype Move =
    | Say(call: Call)
    | DebounceFires(sessionId: string, now: int)
    | BeatFires(sessionId: string, now: int, calls: seq<Call>, later: int)

  predicate IsMove(m: Move) {
    match m
    case Say(c) => IsCall(c)
    case DebounceFires(_, _) => true
    case BeatFires(_, _, calls, _) => AreCalls(calls)
  }

  /** A heartbeat as reported. */
  datatype Tick = Tick(sessionId: string, status: Active, elapsed: int)

  /** What came of a move: the calls the sessions heard, the callbacks made in each, the
      heartbeat reported. */
  datatype Happening = Happening(calls: seq<Call>, outs: seq<Outputs>, tick: Option<Tick>)

  const NOTHING := Happening([], [], None)

  /** What may come of a move, by what was known of its session before. The debounce
      closes the window exactly when the session has been idle for its length. */
  predicate Brings(s: Session, m: Move, x: Happening, debounceMs: int) {
    match m
    case Say(c) => x.calls == [c] && x.tick.None?
    case DebounceFires(id, now) =>
      && x.calls == (if WindowPassed(s.phase, now, debounceMs) then [Signal(id, WindowCloses, now)] else [])
      && x.tick.None?
    case BeatFires(id, now, calls, _) =>
      if x.tick.None? then x.calls == []
      else
        && x.calls == calls && s.phase.Running?
        && x.tick.value == Tick(id, s.phase.status, Max(0, now - s.phase.since))
  }

  function Subject(m: Move): string {
    if m.Say? then "" else m.sessionId
  }

  function AllCalls(xs: seq<Happening>): seq<Call>
    decreases |xs|
  {
    if xs == [] then [] else AllCalls(xs[..|xs| - 1]) + xs[|xs| - 1].calls
  }

  function AllOutputs(xs: seq<Happening>): seq<Outputs>
    decreases |xs|
  {
    if xs == [] then [] else AllOutputs(xs[..|xs| - 1]) + xs[|xs| - 1].outs
  }

  /** What is known of a session when these things have happened. */
  function Known(was: Records, xs: seq<Happening>, sessionId: string): Session {
    Upon(Look(was, sessionId), Project(AllCalls(xs), sessionId))
  }

  /** Each move brought what it may, every session is where its share of all that was
      heard puts it, and exactly its reports were made. */
  ghost predicate Runs(was: Records, rs: Records, moves: seq<Move>, xs: seq<Happening>, debounceMs: int) {
    && |xs| == |moves|
    && Accounts(was, rs, AllCalls(xs), AllOutputs(xs))
    && forall i :: 0 <= i < |moves| ==> Brings(Known(was, xs[..i], Subject(moves[i])), moves[i], xs[i], debounceMs)
  }

  lemma NoRun(rs: Records, debounceMs: int)
    ensures Runs(rs, rs, [], [], debounceMs)
  {
    NothingToAccountFor(rs);
  }

  lemma RunsOn(was: Records, mid: Records, rs: Records, moves: seq<Move>, xs: seq<Happening>, m: Move, x: Happening,
               debounceMs: int)
    requires Runs(was, mid, moves, xs, debounceMs)
    requires Accounts(mid, rs, x.calls, x.outs) && Brings(Look(mid, Subject(m)), m, x, debounceMs)
    ensures Runs(was, rs, moves + [m], xs + [x], debounceMs)
  {
    HappeningsAddUp(xs, x);
    AccountsAddUp(was, mid, rs, AllCalls(xs), AllOutputs(xs), x.calls, x.outs);
    assert FollowedAt(was, mid, AllCalls(xs), Subject(m));
    var ms, ys := moves + [m], xs + [x];
    forall i | 0 <= i < |ms| ensures Brings(Known(was, ys[..i], Subject(ms[i])), ms[i], ys[i], debounceMs) {
      TakeOfPlus(xs, [x], i);
      assert i == |xs| ==> xs[..i] == xs;
    }
  }

  lemma HappeningsAddUp(xs: seq<Happening>, x: Happening)
    ensures AllCalls(xs + [x]) == AllCalls(xs) + x.calls && AllOutputs(xs + [x]) == AllOutputs(xs) + x.outs
  {
    assert (xs + [x])[..|xs|] == xs;
  }
}
