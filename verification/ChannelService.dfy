/** How a channel gets to the gateway, and whom it serves there: the version it probes for,
    the registration it waits for, the requests it takes and the replies it sends. */
module ChannelService {
  import opened Prelude
  import opened ControlChannel
  import opened ChannelEndings

  ghost predicate AllPossible(events: seq<Event>) {
    forall i :: 0 <= i < |events| ==> Possible(events[i])
  }

  // ------------------------------------------------------------- getting there

  predicate KnowsVersion(c: Channel) {
    c.openCodeVersion.Some? && c.openCodeVersion.value != "unknown"
  }

  /** A new socket is the current one, and not registered yet. */
  predicate OpensASocket(c: Channel, d: Channel) {
    && d.running && d.socket == Some(|c.openings|) && !d.registered
    && d.openings == c.openings + [Opening(c.generation, c.generation)]
  }

  /** Starting a stopped channel opens a socket when the version is known, and probes for
      it when it is not; starting a running one does nothing. */
  lemma StartGoesOutAtOnce(events: seq<Event>, l: Luck)
    requires AllPossible(events) && !l.factoryThrows
    ensures var c, d := After(events), After(events + [DoStart(l)]);
      if c.running then d == c
      else if KnowsVersion(c) then OpensASocket(c, d)
      else d.running && d.socket.None? && d.connects == c.connects + [Connect(c.generation, 500, Resolving)]
  {
    StepOfRun(events, DoStart(l));
    EveryRunKeepsInv(events);
  }

  /** The i-th connect waits for the answer to its probe, and no stop has overtaken it. */
  predicate AwaitsVersion(c: Channel, i: nat) {
    c.running && Probing(c, i) && c.connects[i].phase == Resolving
  }

  /** A usable answer is the version and opens a socket; without one the socket opens only
      when the time for the probe is up, the version unknown; before that the connect
      waits, opening nothing. */
  lemma ProbeEndsInASocket(events: seq<Event>, i: nat, version: Option<string>, expired: bool, l: Luck)
    requires AllPossible(events) && AwaitsVersion(After(events), i) && !l.factoryThrows
    ensures var c, d := After(events), After(events + [DoResolve(i, version, expired, l)]);
      if version.Some? then OpensASocket(c, d) && d.openCodeVersion == version
      else if expired then OpensASocket(c, d) && d.openCodeVersion == Some("unknown")
      else d.openings == c.openings && d.socket.None? && Probing(d, i)
           && d.connects[i].phase == Sleeping(c.connects[i].delay)
  {
    StepOfRun(events, DoResolve(i, version, expired, l));
    EveryRunKeepsInv(events);
    assert SomeProbing(After(events));
  }

  /** When a wait is over the probe is sent again; the next wait is twice as long, up to
      five seconds. */
  lemma WaitingConnectProbesAgain(events: seq<Event>, i: nat, l: Luck)
    requires AllPossible(events)
    requires var c := After(events); c.running && Probing(c, i) && c.connects[i].phase.Sleeping?
    ensures var c, d := After(events), After(events + [DoWake(i, l)]);
      && AwaitsVersion(d, i) && d.openings == c.openings
      && d.connects[i].delay == if 2 * c.connects[i].delay < 5_000 then 2 * c.connects[i].delay else 5_000
  {
    StepOfRun(events, DoWake(i, l));
    EveryRunKeepsInv(events);
    assert SomeProbing(After(events));
  }

  /** Once a socket is open the backoff begins afresh: if it is lost right then the
      reconnect is due in at most 625 ms. */
  lemma OpenedSocketResetsTheBackoff(events: seq<Event>, socket: nat, throws: bool, random: real, e: Event)
    requires AllPossible(events) && 0.0 <= random < 1.0
    requires After(events).running && After(events).socket == Some(socket)
    requires if throws then e == DoOpen(socket, true, random) else Loses(e, socket)
    ensures var lost := if throws then events + [e] else events + [DoOpen(socket, false, random)] + [e];
      After(lost).reconnectTimer.Some? && 375 <= After(lost).reconnectTimer.value <= 625
  {
    EveryRunKeepsInv(events);
    StepOfRun(events, DoOpen(socket, throws, random));
    if !throws {
      StepOfRun(events + [DoOpen(socket, false, random)], e);
    }
    var r := match e
      case DoOpen(_, _, x) => x
      case DoClose(_, _, x) => x
      case DoError(_, x) => x
      case DoRetryVersion(_, x) => x
      case _ => random;
    FirstDelay(r);
  }

  lemma FirstDelay(random: real)
    requires 0.0 <= random < 1.0
    ensures 375 <= Delay(0, random) <= 625
  {
    assert Power(0) == 1 && Exponential(0) == 500;
    RoundBounds(500.0 * (0.75 + 0.5 * random), 375, 625);
  }

  // ---------------------------------------------------------- being registered

  /** What a step can do to the current socket and its registration. */
  ghost predicate SocketMoves(c: Channel, d: Channel, e: Event) {
    || (d.socket == c.socket && (d.registered <==> c.registered || (c.socket.Some? && e == DoRegister(c.socket.value))))
    || (d.socket.None? && !d.registered)
    || (c.socket.None? && d.socket == Some(|c.openings|) && !d.registered)
  }

  lemma StepMoves(c: Channel, e: Event)
    requires Inv(c) && Possible(e)
    ensures SocketMoves(c, Step(c, e), e)
  {
  }

  /** The gateway's confirmation has arrived on this socket while it was the current one. */
  ghost predicate Confirmed(events: seq<Event>, socket: nat) {
    exists j :: 0 <= j < |events| && events[j] == DoRegister(socket) && After(events[..j]).socket == Some(socket)
  }

  lemma ConfirmedOneMore(events: seq<Event>, e: Event, socket: nat)
    ensures Confirmed(events + [e], socket) <==>
      Confirmed(events, socket) || (e == DoRegister(socket) && After(events).socket == Some(socket))
  {
    var all := events + [e];
    assert all[..|events|] == events;
    if Confirmed(events, socket) {
      var j :| 0 <= j < |events| && events[j] == DoRegister(socket) && After(events[..j]).socket == Some(socket);
      assert all[..j] == events[..j];
    }
    if Confirmed(all, socket) {
      var j :| 0 <= j < |all| && all[j] == DoRegister(socket) && After(all[..j]).socket == Some(socket);
      assert j < |events| ==> all[..j] == events[..j];
    }
  }

  /** A socket not opened yet has confirmed nothing. */
  lemma {:induction false} UnopenedIsUnconfirmed(events: seq<Event>, socket: nat)
    requires AllPossible(events) && socket >= |After(events).openings|
    ensures !Confirmed(events, socket)
    decreases |events|
  {
    if events != [] {
      var before, e := events[..|events| - 1], events[|events| - 1];
      EveryRunKeepsInv(before);
      OpeningsOnlyGrow(After(before), e);
      UnopenedIsUnconfirmed(before, socket);
      assert before + [e] == events;
      ConfirmedOneMore(before, e, socket);
    }
  }

  /** In every run the channel takes itself for registered exactly when the gateway has
      confirmed the registration on the socket it has now. */
  lemma {:induction false} RegisteredExactlyWhenConfirmed(events: seq<Event>)
    requires AllPossible(events)
    ensures var c := After(events); c.registered <==> c.socket.Some? && Confirmed(events, c.socket.value)
    decreases |events|
  {
    if events != [] {
      var before, e := events[..|events| - 1], events[|events| - 1];
      var c, d := After(before), After(events);
      RegisteredExactlyWhenConfirmed(before);
      EveryRunKeepsInv(before);
      StepMoves(c, e);
      assert before + [e] == events;
      if d.socket.Some? {
        ConfirmedOneMore(before, e, d.socket.value);
        if c.socket.None? {
          UnopenedIsUnconfirmed(before, |c.openings|);
        }
      }
    }
  }

  // ----------------------------------------------------------------- replying

  lemma AskStep(c: Channel, socket: nat)
    requires Inv(c)
    ensures Step(c, DoAsk(socket))
      == if c.socket == Some(socket) && c.registered then c.(asked := c.asked + [socket]) else c
  {
    assert OneLine(c);
  }

  /** A request is taken up exactly when it arrives on the current socket and the gateway
      has confirmed the registration there; nothing else changes. */
  lemma RequestIsTakenExactly(events: seq<Event>, socket: nat)
    requires AllPossible(events)
    ensures var c := After(events);
      After(events + [DoAsk(socket)])
      == if c.socket == Some(socket) && Confirmed(events, socket) then c.(asked := c.asked + [socket]) else c
  {
    StepOfRun(events, DoAsk(socket));
    EveryRunKeepsInv(events);
    RegisteredExactlyWhenConfirmed(events);
    AskStep(After(events), socket);
  }

  lemma AnswerStep(c: Channel, request: nat)
    requires Inv(c) && request < |c.asked|
    ensures var d := Step(c, DoAnswer(request));
      && |d.sent| == |c.sent| + (if c.socket == Some(c.asked[request]) then 1 else 0)
      && d.sent[..|c.sent|] == c.sent
      && (|d.sent| > |c.sent| ==> d.sent[|c.sent|].socket == c.asked[request])
  {
    assert OneLine(c);
  }

  /** A reply is sent exactly when the socket its request came from is still the current
      one, and on that socket. */
  lemma ReplyIsSentExactly(events: seq<Event>, request: nat)
    requires AllPossible(events) && request < |After(events).asked|
    ensures var c, d := After(events), After(events + [DoAnswer(request)]);
      && |d.sent| == |c.sent| + (if c.socket == Some(c.asked[request]) then 1 else 0)
      && d.sent[..|c.sent|] == c.sent
      && (|d.sent| > |c.sent| ==> d.sent[|c.sent|].socket == c.asked[request])
  {
    StepOfRun(events, DoAnswer(request));
    EveryRunKeepsInv(events);
    AnswerStep(After(events), request);
  }
}
