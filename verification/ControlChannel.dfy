/** The plugin's control connection: start and stop, the version probe before a socket is
    opened, reconnecting, and the replies of work that outlives a socket. `connect` is cut
    where it awaits; several may be under way, most of them stale. */
module ControlChannel {
  import opened Prelude

  const BASE_BACKOFF_MS: nat := 500
  const MAX_BACKOFF_MS: nat := 30_000

  /** What is left of a `connect` that awaits: its generation, and whether it waits for
      the version or for its next try. */
  datatype Phase = Resolving | Sleeping(delay: nat) | Finished

  datatype Connect = Connect(generation: nat, delay: nat, phase: Phase)

  /** A socket that was opened: by a connect of which generation, and when. */
  datatype Opening = Opening(opener: nat, generation: nat)

  /** A reply that was sent: on which socket, and what the channel held then. */
  datatype Reply = Reply(socket: nat, current: Option<nat>, registered: bool)

  const UNKNOWN := "unknown"

  datatype Channel = Channel(
    running: bool,
    generation: nat,
    socket: Option<nat>,
    reconnectTimer: Option<int>,
    attempt: nat,
    openCodeVersion: Option<string>,
    registered: bool,
    connects: seq<Connect>,
    openings: seq<Opening>,
    asked: seq<nat>,
    sent: seq<Reply>)

  const INITIAL := Channel(false, 0, None, None, 0, None, false, [], [], [], [])

  /** What the environment answers: whether the socket factory throws, and a random
      number from 0 to below 1. */
  datatype Luck = Luck(factoryThrows: bool, random: real)

  predicate Fair(l: Luck) {
    0.0 <= l.random < 1.0
  }

  // ------------------------------------------------------------------------ backoff

  function Power(n: nat): nat {
    if n == 0 then 1 else 2 * Power(n - 1)
  }

  function Exponential(attempt: nat): nat {
    var exponent := if attempt < 6 then attempt else 6;
    var backoff := BASE_BACKOFF_MS * Power(exponent);
    if backoff < MAX_BACKOFF_MS then backoff else MAX_BACKOFF_MS
  }

  function Round(x: real): int {
    (x + 0.5).Floor
  }

  function Delay(attempt: nat, random: real): int {
    Round(Exponential(attempt) as real * (0.75 + 0.5 * random))
  }

  lemma {:induction false} PowerIsPositive(n: nat)
    ensures Power(n) >= 1
  {
    if n > 0 {
      PowerIsPositive(n - 1);
    }
  }

  lemma ExponentialBounds(attempt: nat)
    ensures 500 <= Exponential(attempt) <= 30_000
  {
    var exponent := if attempt < 6 then attempt else 6;
    PowerIsPositive(exponent);
    assert BASE_BACKOFF_MS * Power(exponent) >= 500;
  }

  /** Every reconnect delay lies between 375 and 37500 ms. */
  lemma DelayBounds(attempt: nat, random: real)
    requires 0.0 <= random < 1.0
    ensures 375 <= Delay(attempt, random) <= 37_500
  {
    ExponentialBounds(attempt);
    var e, f := Exponential(attempt) as real, 0.75 + 0.5 * random;
    assert 500.0 <= e <= 30_000.0 && 0.75 <= f < 1.25;
    ProductBounds(e, f);
    RoundBounds(e * f, 375, 37_500);
  }

  lemma RoundBounds(x: real, low: int, high: int)
    requires low as real <= x <= high as real
    ensures low <= Round(x) <= high
  {
  }

  lemma ProductBounds(e: real, f: real)
    requires 500.0 <= e <= 30_000.0 && 0.75 <= f < 1.25
    ensures 375.0 <= e * f < 37_500.0
  {
    assert e * f >= 500.0 * f;
    assert e * f <= 30_000.0 * f;
  }

  // -------------------------------------------------------------------------- steps

  function ScheduleReconnect(c: Channel, random: real): Channel {
    if !c.running || c.reconnectTimer.Some? then c
    else c.(attempt := c.attempt + 1, reconnectTimer := Some(Delay(c.attempt, random)))
  }

  function Drop(c: Channel, socket: nat, random: real): Channel {
    if c.socket != Some(socket) then c
    else ScheduleReconnect(c.(socket := None, registered := false), random)
  }

  function Stop(c: Channel): Channel {
    c.(running := false, generation := c.generation + 1, registered := false, reconnectTimer := None, socket := None)
  }

  /** The end of `connect`: the last check, then the socket. */
  function Open(c: Channel, generation: nat, l: Luck): Channel {
    if !c.running || generation != c.generation || c.socket.Some? then c
    else if l.factoryThrows then ScheduleReconnect(c, l.random)
    else c.(socket := Some(|c.openings|), registered := false,
            openings := c.openings + [Opening(generation, c.generation)])
  }

  /** The beginning of `connect`: straight to the socket when the version is known,
      otherwise into the probe. */
  function Dial(c: Channel, l: Luck): Channel {
    if !c.running || c.socket.Some? then c
    else if c.openCodeVersion.None? || c.openCodeVersion.value == UNKNOWN
    then c.(openCodeVersion := None, connects := c.connects + [Connect(c.generation, 500, Resolving)])
    else Open(c, c.generation, l)
  }

  function Start(c: Channel, l: Luck): Channel {
    if c.running then c else Dial(c.(running := true), l)
  }

  function Phased(c: Channel, i: nat, phase: Phase): Channel
    requires i < |c.connects|
  {
    c.(connects := c.connects[i := c.connects[i].(phase := phase)])
  }

  predicate Current(c: Channel, i: nat) {
    i < |c.connects| && c.running && c.connects[i].generation == c.generation
  }

  /** The i-th connect's probe has answered: a usable version, or none. */
  function Resolves(c: Channel, i: nat, version: Option<string>, expired: bool, l: Luck): Channel {
    if i >= |c.connects| || c.connects[i].phase != Resolving then c
    else if !Current(c, i) then Phased(c, i, Finished)
    else if version.Some? then
      Open(Phased(c, i, Finished).(openCodeVersion := version), c.connects[i].generation, l)
    else if expired then
      Open(Phased(c, i, Finished).(openCodeVersion := Some(UNKNOWN)), c.connects[i].generation, l)
    else Phased(c, i, Sleeping(c.connects[i].delay))
  }

  function Doubled(delay: nat): nat {
    if delay * 2 < 5_000 then delay * 2 else 5_000
  }

  /** The i-th connect's wait is over: probe again, unless the loop's condition fails. */
  function Wakes(c: Channel, i: nat, l: Luck): Channel {
    if i >= |c.connects| || !c.connects[i].phase.Sleeping? then c
    else if Current(c, i) && c.openCodeVersion.None? then
      c.(connects := c.connects[i := c.connects[i].(phase := Resolving, delay := Doubled(c.connects[i].delay))])
    else Open(Phased(c, i, Finished), c.connects[i].generation, l)
  }

  function TimerFires(c: Channel, l: Luck): Channel {
    if c.reconnectTimer.None? then c else Dial(c.(reconnectTimer := None), l)
  }

  function Opens(c: Channel, socket: nat, sendThrows: bool, random: real): Channel {
    if !c.running || c.socket != Some(socket) then c
    else
      var d := c.(attempt := 0);
      if sendThrows then Drop(d, socket, random) else d
  }

  /** A close with code 4403 means the credential is no longer accepted. */
  function Closes(c: Channel, socket: nat, refused: bool, random: real): Channel {
    if refused then (if c.socket == Some(socket) then Stop(c) else c)
    else Drop(c, socket, random)
  }

  function Registers(c: Channel, socket: nat): Channel {
    if !c.running || c.socket != Some(socket) then c else c.(registered := true)
  }

  /** A request or command frame: its work starts only on a registered connection. */
  function Asks(c: Channel, socket: nat): Channel {
    if !c.running || c.socket != Some(socket) || !c.registered then c else c.(asked := c.asked + [socket])
  }

  /** The work for the i-th request is done: its reply goes out on the socket it came
      from, if that is still the channel's. */
  function Answers(c: Channel, i: nat): Channel {
    if i >= |c.asked| || !c.running || c.socket != Some(c.asked[i]) then c
    else c.(sent := c.sent + [Reply(c.asked[i], c.socket, c.registered)])
  }

  /** A minute after a socket was opened with the version unknown: try again. */
  function RetriesVersion(c: Channel, socket: nat, random: real): Channel {
    if c.running && c.socket == Some(socket) then Drop(c, socket, random) else c
  }

  datatype Event =
    | DoStart(luck: Luck)
    | DoStop
    | DoResolve(connect: nat, version: Option<string>, expired: bool, luck: Luck)
    | DoWake(connect: nat, luck: Luck)
    | DoTimer(luck: Luck)
    | DoOpen(socket: nat, sendThrows: bool, random: real)
    | DoClose(socket: nat, refused: bool, random: real)
    | DoError(socket: nat, random: real)
    | DoRegister(socket: nat)
    | DoAsk(socket: nat)
    | DoAnswer(request: nat)
    | DoRetryVersion(socket: nat, random: real)

  predicate Possible(e: Event) {
    match e
    case DoStart(l) => Fair(l)
    case DoResolve(_, version, _, l) => Fair(l) && version != Some(UNKNOWN)
    case DoWake(_, l) => Fair(l)
    case DoTimer(l) => Fair(l)
    case DoOpen(_, _, random) => 0.0 <= random < 1.0
    case DoClose(_, _, random) => 0.0 <= random < 1.0
    case DoError(_, random) => 0.0 <= random < 1.0
    case DoRetryVersion(_, random) => 0.0 <= random < 1.0
    case _ => true
  }

  function Step(c: Channel, e: Event): Channel {
    match e
    case DoStart(l) => Start(c, l)
    case DoStop => Stop(c)
    case DoResolve(i, version, expired, l) => Resolves(c, i, version, expired, l)
    case DoWake(i, l) => Wakes(c, i, l)
    case DoTimer(l) => TimerFires(c, l)
    case DoOpen(socket, sendThrows, random) => Opens(c, socket, sendThrows, random)
    case DoClose(socket, refused, random) => Closes(c, socket, refused, random)
    case DoError(socket, random) => Drop(c, socket, random)
    case DoRegister(socket) => Registers(c, socket)
    case DoAsk(socket) => Asks(c, socket)
    case DoAnswer(i) => Answers(c, i)
    case DoRetryVersion(socket, random) => RetriesVersion(c, socket, random)
  }

  function After(events: seq<Event>): Channel
    decreases |events|
  {
    if events == [] then INITIAL else Step(After(events[..|events| - 1]), events[|events| - 1])
  }

  // ---------------------------------------------------------------------- invariants

  /** The i-th connect is probing, and has not been overtaken by a stop. */
  predicate Probing(c: Channel, i: nat) {
    i < |c.connects| && c.connects[i].phase != Finished && c.connects[i].generation == c.generation
  }

  ghost predicate SomeProbing(c: Channel) {
    exists i :: Probing(c, i)
  }

  ghost predicate OneProbing(c: Channel) {
    forall i, j :: Probing(c, i) && Probing(c, j) ==> i == j
  }

  /** While running exactly one of three: a connect is probing, a socket is current, a
      reconnect is scheduled. While stopped, none. */
  ghost predicate OneLine(c: Channel) {
    && OneProbing(c)
    && (if c.running
        then (SomeProbing(c) && c.socket.None? && c.reconnectTimer.None?)
          || (!SomeProbing(c) && c.socket.Some? && c.reconnectTimer.None?)
          || (!SomeProbing(c) && c.socket.None? && c.reconnectTimer.Some?)
        else !SomeProbing(c) && c.socket.None? && c.reconnectTimer.None?)
  }

  ghost predicate Generations(c: Channel) {
    && (forall i :: 0 <= i < |c.connects| ==> c.connects[i].generation <= c.generation)
    && (forall i :: 0 <= i < |c.openings| ==> c.openings[i].opener == c.openings[i].generation <= c.generation)
    && (c.socket.Some? ==> c.socket.value < |c.openings|)
  }

  /** The probe's version is nobody else's to set. */
  ghost predicate Versions(c: Channel) {
    SomeProbing(c) ==> c.openCodeVersion.None?
  }

  ghost predicate Replies(c: Channel) {
    && (forall i :: 0 <= i < |c.asked| ==> c.asked[i] < |c.openings| && (c.socket == Some(c.asked[i]) ==> c.registered))
    && (forall i :: 0 <= i < |c.sent| ==> c.sent[i].current == Some(c.sent[i].socket) && c.sent[i].registered)
  }

  predicate TimerInRange(c: Channel) {
    c.reconnectTimer.Some? ==> 375 <= c.reconnectTimer.value <= 37_500
  }

  ghost predicate Inv(c: Channel) {
    OneLine(c) && Generations(c) && Versions(c) && Replies(c) && TimerInRange(c)
  }

  /** Nobody is probing, waiting or connected: the line is free for one of them. */
  ghost predicate Free(c: Channel) {
    && !SomeProbing(c) && OneProbing(c) && c.socket.None? && c.reconnectTimer.None?
    && Generations(c) && Replies(c)
  }

  lemma ScheduleKeepsInv(c: Channel, random: real)
    requires Free(c) && c.running && 0.0 <= random < 1.0
    ensures Inv(ScheduleReconnect(c, random))
  {
    DelayBounds(c.attempt, random);
    var d := ScheduleReconnect(c, random);
    SameProbing(c, d);
  }

  lemma SameProbing(c: Channel, d: Channel)
    requires c.connects == d.connects && c.generation == d.generation
    ensures SomeProbing(c) <==> SomeProbing(d)
    ensures OneProbing(c) <==> OneProbing(d)
  {
    forall i ensures Probing(c, i) <==> Probing(d, i) {
    }
    if SomeProbing(c) {
      var i :| Probing(c, i);
      assert Probing(d, i);
    }
    if SomeProbing(d) {
      var i :| Probing(d, i);
      assert Probing(c, i);
    }
    assert OneProbing(c) ==> OneProbing(d) by {
      forall i, j | OneProbing(c) && Probing(d, i) && Probing(d, j) ensures i == j {
        assert Probing(c, i) && Probing(c, j);
      }
    }
    assert OneProbing(d) ==> OneProbing(c) by {
      forall i, j | OneProbing(d) && Probing(c, i) && Probing(c, j) ensures i == j {
        assert Probing(d, i) && Probing(d, j);
      }
    }
  }

  lemma DropKeepsInv(c: Channel, socket: nat, random: real)
    requires Inv(c) && 0.0 <= random < 1.0
    ensures Inv(Drop(c, socket, random))
  {
    if c.socket == Some(socket) {
      var d := c.(socket := None, registered := false);
      SameProbing(c, d);
      ScheduleKeepsInv(d, random);
    }
  }

  lemma StopKeepsInv(c: Channel)
    requires Generations(c) && Replies(c)
    ensures Inv(Stop(c))
  {
    forall i ensures !Probing(Stop(c), i) {
    }
  }

  lemma OpenKeepsInv(c: Channel, l: Luck)
    requires Free(c) && c.running && Fair(l)
    ensures Inv(Open(c, c.generation, l))
  {
    if l.factoryThrows {
      ScheduleKeepsInv(c, l.random);
    } else {
      SameProbing(c, Open(c, c.generation, l));
    }
  }

  lemma DialKeepsInv(c: Channel, l: Luck)
    requires Free(c) && c.running && Fair(l)
    ensures Inv(Dial(c, l))
  {
    if c.openCodeVersion.None? || c.openCodeVersion.value == UNKNOWN {
      var d := Dial(c, l);
      assert Probing(d, |c.connects|);
      forall i: nat | Probing(d, i) ensures i == |c.connects| {
        assert i < |c.connects| ==> Probing(c, i);
      }
    } else {
      OpenKeepsInv(c, l);
    }
  }

  /** The i-th connect ends: the line is free if it was the one on it. */
  lemma FinishedFrees(c: Channel, i: nat, version: Option<string>)
    requires Inv(c) && Probing(c, i) && c.running
    ensures Free(Phased(c, i, Finished).(openCodeVersion := version))
  {
    var d := Phased(c, i, Finished).(openCodeVersion := version);
    assert SomeProbing(c);
    forall j ensures !Probing(d, j) {
      assert Probing(d, j) ==> Probing(c, j);
    }
  }

  /** A stale connect ends without a trace. */
  lemma StaleEnds(c: Channel, i: nat)
    requires Inv(c) && i < |c.connects| && !Probing(c, i)
    ensures Inv(Phased(c, i, Finished))
  {
    PhaseOnly(c, Phased(c, i, Finished));
  }

  lemma PhaseOnly(c: Channel, d: Channel)
    requires Inv(c) && d == c.(connects := d.connects) && |d.connects| == |c.connects|
    requires forall i :: 0 <= i < |c.connects| ==> d.connects[i].generation == c.connects[i].generation
    requires forall i :: Probing(c, i) <==> Probing(d, i)
    ensures Inv(d)
  {
    if SomeProbing(c) {
      var i :| Probing(c, i);
      assert Probing(d, i);
    }
  }

  lemma ResolvesKeepsInv(c: Channel, i: nat, version: Option<string>, expired: bool, l: Luck)
    requires Inv(c) && Fair(l)
    ensures Inv(Resolves(c, i, version, expired, l))
  {
    if i < |c.connects| && c.connects[i].phase == Resolving {
      if !Current(c, i) {
        assert !Probing(c, i) by {
          assert !c.running ==> !SomeProbing(c);
        }
        StaleEnds(c, i);
      } else if version.Some? || expired {
        var v := if version.Some? then version else Some(UNKNOWN);
        FinishedFrees(c, i, v);
        OpenKeepsInv(Phased(c, i, Finished).(openCodeVersion := v), l);
      } else {
        PhaseOnly(c, Resolves(c, i, version, expired, l));
      }
    }
  }

  lemma WakesKeepsInv(c: Channel, i: nat, l: Luck)
    requires Inv(c) && Fair(l)
    ensures Inv(Wakes(c, i, l))
  {
    if i < |c.connects| && c.connects[i].phase.Sleeping? {
      if Current(c, i) {
        assert Probing(c, i);
        PhaseOnly(c, Wakes(c, i, l));
      } else {
        assert !Probing(c, i) by {
          assert !c.running ==> !SomeProbing(c);
        }
        StaleEnds(c, i);
      }
    }
  }

  lemma StepKeepsInv(c: Channel, e: Event)
    requires Inv(c) && Possible(e)
    ensures Inv(Step(c, e))
  {
    match e {
      case DoStart(l) =>
        if !c.running {
          SameProbing(c, c.(running := true));
          DialKeepsInv(c.(running := true), l);
        }
      case DoStop => StopKeepsInv(c);
      case DoResolve(i, version, expired, l) => ResolvesKeepsInv(c, i, version, expired, l);
      case DoWake(i, l) => WakesKeepsInv(c, i, l);
      case DoTimer(l) =>
        if c.reconnectTimer.Some? {
          SameProbing(c, c.(reconnectTimer := None));
          DialKeepsInv(c.(reconnectTimer := None), l);
        }
      case _ => SocketEventKeepsInv(c, e);
    }
  }

  lemma SocketEventKeepsInv(c: Channel, e: Event)
    requires Inv(c) && Possible(e)
    requires !e.DoStart? && !e.DoStop? && !e.DoResolve? && !e.DoWake? && !e.DoTimer?
    ensures Inv(Step(c, e))
  {
    match e {
      case DoOpen(socket, sendThrows, random) =>
        SameProbing(c, c.(attempt := 0));
        DropKeepsInv(c.(attempt := 0), socket, random);
      case DoClose(socket, refused, random) =>
        StopKeepsInv(c);
        DropKeepsInv(c, socket, random);
      case DoError(socket, random) => DropKeepsInv(c, socket, random);
      case DoRetryVersion(socket, random) => DropKeepsInv(c, socket, random);
      case _ => SameProbing(c, Step(c, e));
    }
  }

  lemma {:induction false} EveryRunKeepsInv(events: seq<Event>)
    requires forall i :: 0 <= i < |events| ==> Possible(events[i])
    ensures Inv(After(events))
    decreases |events|
  {
    if events == [] {
      assert !SomeProbing(INITIAL);
    } else {
      EveryRunKeepsInv(events[..|events| - 1]);
      StepKeepsInv(After(events[..|events| - 1]), events[|events| - 1]);
    }
  }

  // ------------------------------------------------------------------------ theorems

  /** Whatever happens, a running channel is on its way back to the gateway by exactly one
      route, and a stopped one by none. */
  lemma OneRouteWhileRunning(events: seq<Event>)
    requires forall i :: 0 <= i < |events| ==> Possible(events[i])
    ensures OneLine(After(events)) && TimerInRange(After(events))
  {
    EveryRunKeepsInv(events);
  }

  /** A connect from before a stop never opens a socket: the socket's opener is always of
      the generation the channel was in. */
  lemma NoSocketFromBeforeAStop(events: seq<Event>, n: nat, i: nat)
    requires n <= |events| && forall k :: 0 <= k < |events| ==> Possible(events[k])
    requires |After(events[..n]).openings| <= i < |After(events).openings|
    ensures After(events).openings[i].opener >= After(events[..n]).generation
    decreases |events|
  {
    WholePrefix(events, n);
    if n < |events| {
      var before := events[..|events| - 1];
      assert before[..n] == events[..n];
      EveryRunKeepsInv(before);
      EveryRunKeepsInv(events);
      GenerationsOnlyRise(events, n);
      OpeningsOnlyGrow(After(before), events[|events| - 1]);
      if i < |After(before).openings| {
        NoSocketFromBeforeAStop(before, n, i);
      } else {
        GenerationsOnlyRise(before, n);
      }
    }
  }

  lemma WholePrefix(events: seq<Event>, n: nat)
    requires n <= |events|
    ensures n == |events| ==> events[..n] == events
  {
  }

  /** Sockets are added, under the generation of the moment, and none is taken away. */
  ghost predicate Grows(c: Channel, d: Channel) {
    && |c.openings| <= |d.openings| && d.openings[..|c.openings|] == c.openings
    && c.generation <= d.generation
    && (forall i :: |c.openings| <= i < |d.openings| ==> d.openings[i].generation == c.generation)
  }

  lemma OpenGrows(c: Channel, generation: nat, l: Luck)
    ensures Grows(c, Open(c, generation, l))
  {
  }

  lemma DialGrows(c: Channel, l: Luck)
    ensures Grows(c, Dial(c, l))
  {
    OpenGrows(c, c.generation, l);
  }

  lemma ResolvesGrows(c: Channel, i: nat, version: Option<string>, expired: bool, l: Luck)
    ensures Grows(c, Resolves(c, i, version, expired, l))
  {
    if i < |c.connects| {
      var g := c.connects[i].generation;
      OpenGrows(Phased(c, i, Finished).(openCodeVersion := version), g, l);
      OpenGrows(Phased(c, i, Finished).(openCodeVersion := Some(UNKNOWN)), g, l);
    }
  }

  lemma WakesGrows(c: Channel, i: nat, l: Luck)
    ensures Grows(c, Wakes(c, i, l))
  {
    if i < |c.connects| {
      OpenGrows(Phased(c, i, Finished), c.connects[i].generation, l);
    }
  }

  lemma OpeningsOnlyGrow(c: Channel, e: Event)
    ensures Grows(c, Step(c, e))
  {
    match e {
      case DoStart(l) => DialGrows(c.(running := true), l);
      case DoResolve(i, version, expired, l) => ResolvesGrows(c, i, version, expired, l);
      case DoWake(i, l) => WakesGrows(c, i, l);
      case DoTimer(l) => DialGrows(c.(reconnectTimer := None), l);
      case _ =>
    }
  }

  lemma {:induction false} GenerationsOnlyRise(events: seq<Event>, n: nat)
    requires n <= |events|
    ensures After(events[..n]).generation <= After(events).generation
    decreases |events|
  {
    if n == |events| {
      assert events[..n] == events;
    } else {
      var before := events[..|events| - 1];
      assert before[..n] == events[..n];
      GenerationsOnlyRise(before, n);
      OpeningsOnlyGrow(After(before), events[|events| - 1]);
    }
  }

  /** Every reply went out on the socket that was then current and registered, never on
      one that replaced it. */
  lemma RepliesStayOnTheirSocket(events: seq<Event>, i: nat)
    requires forall k :: 0 <= k < |events| ==> Possible(events[k])
    requires i < |After(events).sent|
    ensures After(events).sent[i].current == Some(After(events).sent[i].socket) && After(events).sent[i].registered
  {
    EveryRunKeepsInv(events);
  }

  // ------------------------------------------------------------------------ the class

  class ControlChannel {
    var running: bool
    var generation: nat
    var socket: Option<nat>
    var reconnectTimer: Option<int>
    var attempt: nat
    var openCodeVersion: Option<string>
    var registered: bool
    var connects: seq<Connect>
    var asked: seq<nat>
    ghost var openings: seq<Opening>
    ghost var sent: seq<Reply>
    var nextSocket: nat

    ghost function View(): Channel
      reads this
    {
      Channel(running, generation, socket, reconnectTimer, attempt, openCodeVersion, registered, connects, openings,
              asked, sent)
    }

    ghost predicate Valid()
      reads this
    {
      nextSocket == |openings| && Inv(View())
    }

    constructor ()
      ensures Valid() && View() == INITIAL
    {
      running, generation, socket, reconnectTimer, attempt := false, 0, None, None, 0;
      openCodeVersion, registered, connects, asked, openings, sent, nextSocket := None, false, [], [], [], [], 0;
      new;
      EveryRunKeepsInv([]);
    }

    method StartChannel(l: Luck)
      requires Valid() && Fair(l)
      modifies this
      ensures Valid() && View() == Start(old(View()), l)
    {
      StepKeepsInv(View(), DoStart(l));
      if running {
        return;
      }
      running := true;
      BeginConnect(l);
    }

    method StopChannel()
      requires Valid()
      modifies this
      ensures Valid() && View() == Stop(old(View()))
    {
      StepKeepsInv(View(), DoStop);
      running := false;
      generation := generation + 1;
      registered := false;
      reconnectTimer := None;
      socket := None;
    }

    /** `connect` up to its first await, or to its end. */
    method BeginConnect(l: Luck)
      requires nextSocket == |openings|
      modifies this
      ensures nextSocket == |openings| && View() == Dial(old(View()), l)
    {
      if !running || socket.Some? {
        return;
      }
      if openCodeVersion.None? || openCodeVersion.value == UNKNOWN {
        openCodeVersion := None;
        connects := connects + [Connect(generation, 500, Resolving)];
        return;
      }
      EndConnect(generation, l);
    }

    /** The last check of `connect`, and the socket. */
    method EndConnect(mine: nat, l: Luck)
      requires nextSocket == |openings|
      modifies this
      ensures nextSocket == |openings| && View() == Open(old(View()), mine, l)
    {
      if !running || mine != generation || socket.Some? {
        return;
      }
      if l.factoryThrows {
        PlanReconnect(l.random);
        return;
      }
      socket := Some(nextSocket);
      registered := false;
      nextSocket := nextSocket + 1;
      openings := openings + [Opening(mine, generation)];
    }

    method PlanReconnect(random: real)
      modifies this`attempt, this`reconnectTimer
      ensures View() == ScheduleReconnect(old(View()), random)
    {
      if !running || reconnectTimer.Some? {
        return;
      }
      reconnectTimer := Some(Delay(attempt, random));
      attempt := attempt + 1;
    }

    method DropSocket(s: nat, random: real)
      modifies this
      ensures nextSocket == old(nextSocket) && View() == Drop(old(View()), s, random)
    {
      if socket != Some(s) {
        return;
      }
      socket := None;
      registered := false;
      PlanReconnect(random);
    }

    method OnProbeAnswered(i: nat, version: Option<string>, expired: bool, l: Luck)
      requires Valid() && Fair(l) && i < |connects| && connects[i].phase == Resolving && version != Some(UNKNOWN)
      modifies this
      ensures Valid() && View() == Resolves(old(View()), i, version, expired, l)
    {
      StepKeepsInv(View(), DoResolve(i, version, expired, l));
      var c := connects[i];
      if !running || c.generation != generation {
        connects := connects[i := c.(phase := Finished)];
      } else if version.Some? || expired {
        connects := connects[i := c.(phase := Finished)];
        openCodeVersion := if version.Some? then version else Some(UNKNOWN);
        EndConnect(c.generation, l);
      } else {
        connects := connects[i := c.(phase := Sleeping(c.delay))];
      }
    }

    method OnWaitOver(i: nat, l: Luck)
      requires Valid() && Fair(l) && i < |connects| && connects[i].phase.Sleeping?
      modifies this
      ensures Valid() && View() == Wakes(old(View()), i, l)
    {
      StepKeepsInv(View(), DoWake(i, l));
      var c := connects[i];
      if running && c.generation == generation && openCodeVersion.None? {
        connects := connects[i := c.(phase := Resolving, delay := Doubled(c.delay))];
      } else {
        connects := connects[i := c.(phase := Finished)];
        EndConnect(c.generation, l);
      }
    }

    method OnReconnectTimer(l: Luck)
      requires Valid() && Fair(l) && reconnectTimer.Some?
      modifies this
      ensures Valid() && View() == TimerFires(old(View()), l)
    {
      StepKeepsInv(View(), DoTimer(l));
      reconnectTimer := None;
      BeginConnect(l);
    }

    method OnOpen(s: nat, sendThrows: bool, random: real)
      requires Valid() && 0.0 <= random < 1.0
      modifies this
      ensures Valid() && View() == Opens(old(View()), s, sendThrows, random)
    {
      StepKeepsInv(View(), DoOpen(s, sendThrows, random));
      if !running || socket != Some(s) {
        return;
      }
      attempt := 0;
      if sendThrows {
        DropSocket(s, random);
      }
    }

    method OnClose(s: nat, refused: bool, random: real)
      requires Valid() && 0.0 <= random < 1.0
      modifies this
      ensures Valid() && View() == Closes(old(View()), s, refused, random)
    {
      StepKeepsInv(View(), DoClose(s, refused, random));
      if refused {
        if socket == Some(s) {
          StopChannel();
        }
        return;
      }
      DropSocket(s, random);
    }

    method OnErrorOrRetry(s: nat, random: real)
      requires Valid() && 0.0 <= random < 1.0
      modifies this
      ensures Valid() && View() == Drop(old(View()), s, random)
    {
      StepKeepsInv(View(), DoError(s, random));
      DropSocket(s, random);
    }

    method OnRegistration(s: nat)
      requires Valid()
      modifies this
      ensures Valid() && View() == Registers(old(View()), s)
    {
      StepKeepsInv(View(), DoRegister(s));
      if running && socket == Some(s) {
        registered := true;
      }
    }

    method OnRequest(s: nat)
      requires Valid()
      modifies this
      ensures Valid() && View() == Asks(old(View()), s)
    {
      StepKeepsInv(View(), DoAsk(s));
      if running && socket == Some(s) && registered {
        asked := asked + [s];
      }
    }

    /** The work for a request is done; true when its reply goes out. */
    method OnWorkDone(i: nat) returns (replied: bool)
      requires Valid() && i < |asked|
      modifies this
      ensures Valid() && View() == Answers(old(View()), i)
      ensures replied <==> running && socket == Some(asked[i])
    {
      StepKeepsInv(View(), DoAnswer(i));
      replied := running && socket == Some(asked[i]);
      if replied {
        sent := sent + [Reply(asked[i], socket, registered)];
      }
    }
  }
}
