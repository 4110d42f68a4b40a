/** How the control channel ends, and how it comes back: a refusal or a stop is final
    until the next start, any other loss of the socket is followed by a reconnect. */
module ChannelEndings {
  import opened Prelude
  import opened ControlChannel

  lemma StepOfRun(events: seq<Event>, e: Event)
    ensures After(events + [e]) == Step(After(events), e)
  {
    assert (events + [e])[..|events|] == events;
  }

  /** Nothing connected, nothing to connect again, and nothing opened or sent since. */
  predicate AtRest(c: Channel, openings: seq<Opening>, sent: seq<Reply>) {
    && !c.running && c.socket.None? && c.reconnectTimer.None? && !c.registered
    && c.openings == openings && c.sent == sent
  }

  ghost predicate NoStart(later: seq<Event>) {
    forall i :: 0 <= i < |later| ==> !later[i].DoStart?
  }

  lemma RestIsKept(c: Channel, e: Event)
    requires AtRest(c, c.openings, c.sent) && !e.DoStart?
    ensures AtRest(Step(c, e), c.openings, c.sent)
  {
  }

  lemma {:induction false} RestLasts(events: seq<Event>, later: seq<Event>)
    requires AtRest(After(events), After(events).openings, After(events).sent)
    requires NoStart(later)
    ensures AtRest(After(events + later), After(events).openings, After(events).sent)
    decreases |later|
  {
    if later == [] {
      assert events + later == events;
    } else {
      var n := |later| - 1;
      assert NoStart(later[..n]);
      RestLasts(events, later[..n]);
      assert events + later == events + later[..n] + [later[n]];
      StepOfRun(events + later[..n], later[n]);
      RestIsKept(After(events + later[..n]), later[n]);
    }
  }

  /** Once the current socket is closed with the refusal code, the channel is over until
      it is started again: whatever timers fire, probes answer and work is done, no socket
      is opened, no reply sent and no reconnect scheduled. */
  lemma RefusalEndsTheChannel(events: seq<Event>, socket: nat, random: real, later: seq<Event>)
    requires After(events).socket == Some(socket)
    requires NoStart(later)
    ensures var c := After(events); AtRest(After(events + [DoClose(socket, true, random)] + later), c.openings, c.sent)
  {
    var first := events + [DoClose(socket, true, random)];
    StepOfRun(events, DoClose(socket, true, random));
    RefusalRests(After(events), socket, random);
    RestLasts(first, later);
  }

  lemma RefusalRests(c: Channel, socket: nat, random: real)
    requires c.socket == Some(socket)
    ensures AtRest(Step(c, DoClose(socket, true, random)), c.openings, c.sent)
  {
  }

  /** The same goes for a stop. */
  lemma StopEndsTheChannel(events: seq<Event>, later: seq<Event>)
    requires NoStart(later)
    ensures var c := After(events); AtRest(After(events + [DoStop] + later), c.openings, c.sent)
  {
    StepOfRun(events, DoStop);
    RestLasts(events + [DoStop], later);
  }

  /** The events by which a socket is lost, other than by a refusal. */
  predicate Loses(e: Event, socket: nat) {
    match e
    case DoClose(s, refused, random) => s == socket && !refused && 0.0 <= random < 1.0
    case DoError(s, random) => s == socket && 0.0 <= random < 1.0
    case DoRetryVersion(s, random) => s == socket && 0.0 <= random < 1.0
    case _ => false
  }

  /** Any other loss of the current socket leaves the channel running, with a reconnect
      scheduled within the bounds of the delay. */
  lemma LostSocketIsFollowedByAReconnect(events: seq<Event>, socket: nat, e: Event)
    requires forall i :: 0 <= i < |events| ==> Possible(events[i])
    requires After(events).running && After(events).socket == Some(socket) && Loses(e, socket)
    ensures var c := After(events + [e]);
      && c.running && c.socket.None? && !c.registered
      && c.reconnectTimer.Some? && 375 <= c.reconnectTimer.value <= 37_500
      && c.attempt == After(events).attempt + 1
  {
    StepOfRun(events, e);
    EveryRunKeepsInv(events);
    DelayBounds(After(events).attempt, match e
      case DoClose(_, _, random) => random
      case DoError(_, random) => random
      case DoRetryVersion(_, random) => random);
  }

  /** A socket that is not the current one can be closed, fail and be refused without any
      effect. */
  lemma OldSocketsDoNotMatter(events: seq<Event>, socket: nat, refused: bool, random: real)
    requires After(events).socket != Some(socket)
    ensures After(events + [DoClose(socket, refused, random)]) == After(events)
    ensures After(events + [DoError(socket, random)]) == After(events)
    ensures After(events + [DoRetryVersion(socket, random)]) == After(events)
  {
    StepOfRun(events, DoClose(socket, refused, random));
    StepOfRun(events, DoError(socket, random));
    StepOfRun(events, DoRetryVersion(socket, random));
    OldSocketStep(After(events), socket, refused, random);
  }

  lemma OldSocketStep(c: Channel, socket: nat, refused: bool, random: real)
    requires c.socket != Some(socket)
    ensures Step(c, DoClose(socket, refused, random)) == c
    ensures Step(c, DoError(socket, random)) == c
    ensures Step(c, DoRetryVersion(socket, random)) == c
  {
  }

  /** When the reconnect is due a channel whose version is known opens a socket at once,
      and one whose version is not begins to probe for it. */
  lemma ReconnectDialsAgain(events: seq<Event>, l: Luck)
    requires forall i :: 0 <= i < |events| ==> Possible(events[i])
    requires After(events).running && After(events).reconnectTimer.Some? && !l.factoryThrows
    ensures var c, d := After(events), After(events + [DoTimer(l)]);
      && d.running && d.reconnectTimer.None?
      && if c.openCodeVersion.Some? && c.openCodeVersion.value != "unknown"
         then d.socket == Some(|c.openings|) && d.openings == c.openings + [Opening(c.generation, c.generation)]
         else d.socket.None? && d.connects == c.connects + [Connect(c.generation, 500, Resolving)]
  {
    StepOfRun(events, DoTimer(l));
    EveryRunKeepsInv(events);
  }

  /** The backoff doubles from half a second up to half a minute. */
  lemma BackoffDoubles(attempt: nat)
    ensures Exponential(0) == 500
    ensures Exponential(attempt + 1) == if 2 * Exponential(attempt) < 30_000 then 2 * Exponential(attempt) else 30_000
  {
    assert Power(0) == 1 && Power(1) == 2 && Power(2) == 4 && Power(3) == 8;
    assert Power(4) == 16 && Power(5) == 32 && Power(6) == 64;
    assert attempt < 6 ==> attempt == 0 || attempt == 1 || attempt == 2 || attempt == 3 || attempt == 4 || attempt == 5;
  }
}
