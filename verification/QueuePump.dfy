/** The pump that hands the queued events to the sender, one at a time. Its loop and its
    `stop` are cut where the source awaits; a sender is taken to answer sooner or later,
    and not to enqueue from inside `send`. */
module QueuePump {
  import opened Prelude
  import opened BoundedQueue

  datatype NotifyEvent = NotifyEvent(eventId: string, kind: EventType)

  type Held = seq<Entry<NotifyEvent>>

  function PriorityOf(e: NotifyEvent): nat {
    NotifyEventPriority(e.kind)
  }

  /** `draining`: null, a loop whose send is under way, or a loop that has returned but
      whose settlement has yet to run. */
  datatype Loop = Idle | Sending(event: NotifyEvent) | Returned

  /** `stopping`: not asked for, waiting for the loop that was running, sending what that
      loop left, or resolved. */
  datatype Stopping = Running | Awaiting | Final(event: NotifyEvent) | Stopped

  /** The pump and what became of the events it took: `handed` to the sender, in that
      order, or `evicted`. */
  datatype Pump = Pump(
    queue: Queue<NotifyEvent>,
    draining: Loop,
    stopping: Stopping,
    accepted: Held,
    handed: Held,
    evicted: Held)

  const INITIAL := Pump(Queue([], 0), Idle, Running, [], [], [])

  // -------------------------------------------------------------------------- steps

  function Handed(p: Pump): Pump
    requires p.queue.entries != []
  {
    var k := NextIndex(p.queue.entries);
    p.(queue := p.queue.(entries := Without(p.queue.entries, k)), handed := p.handed + [p.queue.entries[k]])
  }

  function NextEvent(p: Pump): NotifyEvent
    requires p.queue.entries != []
  {
    p.queue.entries[NextIndex(p.queue.entries)].item
  }

  /** The loop up to its next send, or to its end. */
  function Drive(p: Pump): Pump {
    if p.queue.entries == [] then p.(draining := Returned)
    else Handed(p).(draining := Sending(NextEvent(p)))
  }

  function DriveFinal(p: Pump): Pump {
    if p.queue.entries == [] then p.(stopping := Stopped)
    else Handed(p).(stopping := Final(NextEvent(p)))
  }

  function Kick(p: Pump): Pump {
    if !p.stopping.Running? || !p.draining.Idle? then p else Drive(p)
  }

  function Admitted(p: Pump, event: NotifyEvent, capacity: nat): Pump {
    var e := Entry(event, PriorityOf(event), p.queue.nextSeq);
    var q := p.(queue := Enqueued(p.queue, event, PriorityOf(event), capacity));
    match Dropped(p.queue.entries, e, capacity)
    case None => q.(accepted := p.accepted + [e])
    case Some(x) => if x == e then q else q.(accepted := p.accepted + [e], evicted := p.evicted + [x])
  }

  function Enqueue(p: Pump, event: NotifyEvent, capacity: nat): Pump {
    if !p.stopping.Running? then p else Kick(Admitted(p, event, capacity))
  }

  function SendSettles(p: Pump): Pump {
    if p.draining.Sending? then Drive(p) else p
  }

  function LoopSettles(p: Pump): Pump {
    if !p.draining.Returned? then p
    else
      var q := p.(draining := Idle);
      if q.stopping.Running? && q.queue.entries != [] then Kick(q) else q
  }

  function Stop(p: Pump): Pump {
    if !p.stopping.Running? then p
    else if !p.draining.Idle? then p.(stopping := Awaiting)
    else DriveFinal(p)
  }

  function StopResumes(p: Pump): Pump {
    if p.stopping.Awaiting? && !p.draining.Sending? then DriveFinal(p) else p
  }

  function FinalSendSettles(p: Pump): Pump {
    if p.stopping.Final? then DriveFinal(p) else p
  }

  datatype Step =
    | DoEnqueue(event: NotifyEvent)
    | DoKick
    | DoStop
    | DoSendSettles
    | DoLoopSettles
    | DoStopResumes
    | DoFinalSendSettles

  function Apply(p: Pump, step: Step, capacity: nat): Pump {
    match step
    case DoEnqueue(event) => Enqueue(p, event, capacity)
    case DoKick => Kick(p)
    case DoStop => Stop(p)
    case DoSendSettles => SendSettles(p)
    case DoLoopSettles => LoopSettles(p)
    case DoStopResumes => StopResumes(p)
    case DoFinalSendSettles => FinalSendSettles(p)
  }

  function Run(steps: seq<Step>, capacity: nat): Pump
    decreases |steps|
  {
    if steps == [] then INITIAL else Apply(Run(steps[..|steps| - 1], capacity), steps[|steps| - 1], capacity)
  }

  // ---------------------------------------------------------------------- invariants

  /** No send but one at a time. */
  predicate OneSend(p: Pump) {
    !(p.draining.Sending? && p.stopping.Final?)
  }

  /** No lost wake-up: while it is not stopped, something is bound to come back for
      whatever is queued. */
  predicate Awake(p: Pump) {
    p.stopping.Running? && p.queue.entries != [] ==> !p.draining.Idle?
  }

  /** Once `stop` has resolved nothing is queued and nothing is being sent. */
  predicate StoppedIsEmpty(p: Pump) {
    && (p.stopping.Stopped? ==> p.queue.entries == [] && !p.draining.Sending?)
    && (p.stopping.Final? ==> !p.draining.Sending?)
  }

  /** The accepted events carry consecutive stamps, and each is queued, handed over or
      evicted, once. */
  ghost predicate Conserved(p: Pump) {
    && |p.accepted| == p.queue.nextSeq
    && (forall i :: 0 <= i < |p.accepted| ==> p.accepted[i].stamp == i)
    && multiset(p.accepted) == multiset(p.handed) + multiset(p.evicted) + multiset(p.queue.entries)
  }

  ghost predicate Inv(p: Pump, capacity: nat) {
    && Sound(p.queue, PriorityOf, capacity)
    && OneSend(p) && Awake(p) && StoppedIsEmpty(p) && Conserved(p)
  }

  lemma HandedIsConserved(p: Pump, capacity: nat)
    requires Sound(p.queue, PriorityOf, capacity) && Conserved(p) && p.queue.entries != []
    ensures Sound(Handed(p).queue, PriorityOf, capacity) && Conserved(Handed(p))
  {
    NextTakenStaysSound(p.queue, PriorityOf, capacity);
  }

  /** What is still to be handed over, in order, follows what has been. */
  function Script(p: Pump): Held {
    p.handed + Drained(p.queue.entries)
  }

  lemma HandedFollowsScript(p: Pump)
    requires p.queue.entries != []
    ensures Script(Handed(p)) == Script(p)
  {
  }

  lemma AdmittedIsConserved(p: Pump, event: NotifyEvent, capacity: nat)
    requires Sound(p.queue, PriorityOf, capacity) && Conserved(p)
    ensures Sound(Admitted(p, event, capacity).queue, PriorityOf, capacity) && Conserved(Admitted(p, event, capacity))
  {
    var e := Entry(event, PriorityOf(event), p.queue.nextSeq);
    EnqueuedStaysSound(p.queue, event, PriorityOf, capacity);
    OfferKeepsTheGreatest(p.queue.entries, e, capacity);
    OfferStaysWithin(p.queue.entries, e, capacity);
    AdmissionBalances(p, e, capacity, Offer(p.queue.entries, e, capacity), Dropped(p.queue.entries, e, capacity));
  }

  lemma AdmissionBalances(p: Pump, e: Entry<NotifyEvent>, capacity: nat, r: Held, x: Option<Entry<NotifyEvent>>)
    requires Sound(p.queue, PriorityOf, capacity) && Conserved(p) && e.stamp == p.queue.nextSeq
    requires KeepsTheGreatest(p.queue.entries, e, capacity, r, x)
    requires x == Some(e) ==> r == p.queue.entries
    ensures x.Some? ==> (x.value.stamp == p.queue.nextSeq <==> x.value == e)
    ensures Conserved(
      if x == Some(e) then p.(queue := Queue(r, p.queue.nextSeq))
      else p.(queue := Queue(r, p.queue.nextSeq + 1), accepted := p.accepted + [e],
              evicted := if x.Some? then p.evicted + [x.value] else p.evicted))
  {
    if x.Some? {
      OfferMembers(p.queue.entries, e, capacity, r, x, x.value);
    }
    if x.None? {
      AcceptanceBalances(p, e, r);
    } else if x != Some(e) {
      AcceptanceBalances(p, e, p.queue.entries + [e]);
      EvictionBalances(p.queue.entries, e, r, x.value, p.evicted);
    }
  }

  lemma AcceptanceBalances(p: Pump, e: Entry<NotifyEvent>, r: Held)
    requires Conserved(p) && multiset(r) == multiset(p.queue.entries + [e])
    ensures multiset(p.accepted + [e])
      == multiset(p.handed) + multiset(p.evicted) + multiset(p.queue.entries) + multiset{e}
    ensures multiset(p.accepted + [e]) == multiset(p.handed) + multiset(p.evicted) + multiset(r)
  {
  }

  lemma EvictionBalances(es: Held, e: Entry<NotifyEvent>, r: Held, x: Entry<NotifyEvent>, evicted: Held)
    requires multiset(es + [e]) == multiset(r + [x])
    ensures multiset(evicted) + multiset(es) + multiset{e} == multiset(evicted + [x]) + multiset(r)
  {
    var a, b, c := multiset(es), multiset(r), multiset(evicted);
    assert a + multiset{e} == multiset(es + [e]) == multiset(r + [x]) == b + multiset{x};
    assert multiset(evicted + [x]) == c + multiset{x};
    calc {
      c + a + multiset{e};
      c + (a + multiset{e});
      c + (b + multiset{x});
      (c + multiset{x}) + b;
    }
  }

  lemma DriveKeepsInv(p: Pump, capacity: nat)
    requires Sound(p.queue, PriorityOf, capacity) && Conserved(p)
    requires p.stopping.Running? || p.stopping.Awaiting?
    ensures Inv(Drive(p), capacity)
  {
    if p.queue.entries != [] {
      HandedIsConserved(p, capacity);
    }
  }

  lemma DriveFinalKeepsInv(p: Pump, capacity: nat)
    requires Sound(p.queue, PriorityOf, capacity) && Conserved(p) && !p.draining.Sending?
    ensures Inv(DriveFinal(p), capacity)
  {
    if p.queue.entries != [] {
      HandedIsConserved(p, capacity);
    }
  }

  lemma EnqueueKeepsInv(p: Pump, event: NotifyEvent, capacity: nat)
    requires Inv(p, capacity)
    ensures Inv(Enqueue(p, event, capacity), capacity)
  {
    if p.stopping.Running? {
      AdmittedIsConserved(p, event, capacity);
      KickKeepsInv(Admitted(p, event, capacity), capacity);
    }
  }

  lemma KickKeepsInv(p: Pump, capacity: nat)
    requires Sound(p.queue, PriorityOf, capacity) && Conserved(p) && OneSend(p) && StoppedIsEmpty(p)
    ensures p.stopping.Running? ==> Inv(Kick(p), capacity)
  {
    if p.stopping.Running? {
      DriveKeepsInv(p, capacity);
    }
  }

  lemma LoopSettlesKeepsInv(p: Pump, capacity: nat)
    requires Inv(p, capacity)
    ensures Inv(LoopSettles(p), capacity)
  {
    KickKeepsInv(p.(draining := Idle), capacity);
  }

  lemma ApplyKeepsInv(p: Pump, step: Step, capacity: nat)
    requires Inv(p, capacity)
    ensures Inv(Apply(p, step, capacity), capacity)
  {
    match step {
      case DoEnqueue(event) => EnqueueKeepsInv(p, event, capacity);
      case DoKick => KickKeepsInv(p, capacity);
      case DoLoopSettles => LoopSettlesKeepsInv(p, capacity);
      case _ => BackKeepsInv(p, step, capacity);
    }
  }

  lemma BackKeepsInv(p: Pump, step: Step, capacity: nat)
    requires Inv(p, capacity)
    requires step.DoStop? || step.DoSendSettles? || step.DoStopResumes? || step.DoFinalSendSettles?
    ensures Inv(Apply(p, step, capacity), capacity)
  {
    match step {
      case DoStop => StopKeepsInv(p, capacity);
      case DoSendSettles => SendSettlesKeepsInv(p, capacity);
      case DoStopResumes => StopResumesKeepsInv(p, capacity);
      case DoFinalSendSettles => FinalSendSettlesKeepsInv(p, capacity);
    }
  }

  lemma StopKeepsInv(p: Pump, capacity: nat)
    requires Inv(p, capacity)
    ensures Inv(Stop(p), capacity)
  {
    if p.draining.Idle? {
      DriveFinalKeepsInv(p, capacity);
    }
  }

  lemma SendSettlesKeepsInv(p: Pump, capacity: nat)
    requires Inv(p, capacity)
    ensures Inv(SendSettles(p), capacity)
  {
    if p.draining.Sending? {
      DriveKeepsInv(p, capacity);
    }
  }

  lemma StopResumesKeepsInv(p: Pump, capacity: nat)
    requires Inv(p, capacity)
    ensures Inv(StopResumes(p), capacity)
  {
    if !p.draining.Sending? {
      DriveFinalKeepsInv(p, capacity);
    }
  }

  lemma FinalSendSettlesKeepsInv(p: Pump, capacity: nat)
    requires Inv(p, capacity)
    ensures Inv(FinalSendSettles(p), capacity)
  {
    if p.stopping.Final? {
      DriveFinalKeepsInv(p, capacity);
    }
  }

  /** Whatever is enqueued, kicked and stopped, and in whatever order sends, loops and
      stop come back. */
  lemma {:induction false} EveryRunKeepsInv(steps: seq<Step>, capacity: nat)
    ensures Inv(Run(steps, capacity), capacity)
    decreases |steps|
  {
    if steps != [] {
      EveryRunKeepsInv(steps[..|steps| - 1], capacity);
      ApplyKeepsInv(Run(steps[..|steps| - 1], capacity), steps[|steps| - 1], capacity);
    }
  }

  /** So an accepted event meets exactly one fate, once. */
  lemma EachAcceptedEventHasOneFate(steps: seq<Step>, capacity: nat, e: Entry<NotifyEvent>)
    requires e in Run(steps, capacity).accepted
    ensures var p := Run(steps, capacity);
      multiset(p.handed)[e] + multiset(p.evicted)[e] + multiset(p.queue.entries)[e] == 1
  {
    EveryRunKeepsInv(steps, capacity);
    var p := Run(steps, capacity);
    StampedOnce(p.accepted, e);
    assert multiset(p.accepted)[e] == multiset(p.handed)[e] + multiset(p.evicted)[e] + multiset(p.queue.entries)[e];
  }

  lemma {:induction false} StampedOnce(es: Held, e: Entry<NotifyEvent>)
    requires forall i :: 0 <= i < |es| ==> es[i].stamp == i
    ensures multiset(es)[e] == if e in es then 1 else 0
    decreases |es|
  {
    if es != [] {
      var n := |es| - 1;
      StampedOnce(es[..n], e);
      assert es == es[..n] + [es[n]];
      assert e in es[..n] ==> e.stamp < n;
    }
  }

  /** After `stop` has resolved, everything accepted was handed over or evicted. */
  lemma StopLeavesNothingBehind(steps: seq<Step>, capacity: nat)
    requires Run(steps, capacity).stopping.Stopped?
    ensures var p := Run(steps, capacity);
      && p.queue.entries == [] && !p.draining.Sending?
      && multiset(p.accepted) == multiset(p.handed) + multiset(p.evicted)
  {
    EveryRunKeepsInv(steps, capacity);
  }

  // ------------------------------------------------------------------------ progress

  /** The steps the pump is itself waiting for. */
  predicate IsDue(p: Pump, step: Step) {
    match step
    case DoSendSettles => p.draining.Sending?
    case DoLoopSettles => p.draining.Returned?
    case DoStopResumes => p.stopping.Awaiting? && !p.draining.Sending?
    case DoFinalSendSettles => p.stopping.Final?
    case _ => false
  }

  function Outstanding(p: Pump): nat {
    2 * |p.queue.entries|
    + (match p.draining case Sending(_) => 2 case Returned => 1 case Idle => 0)
    + (if p.stopping.Awaiting? || p.stopping.Final? then 1 else 0)
  }

  lemma DueStepAdvances(p: Pump, step: Step, capacity: nat)
    requires IsDue(p, step)
    ensures var q := Apply(p, step, capacity);
      && Outstanding(q) < Outstanding(p)
      && Script(q) == Script(p)
      && (p.stopping.Running? <==> q.stopping.Running?)
  {
    if p.queue.entries != [] {
      HandedFollowsScript(p);
    }
  }

  function After(p: Pump, steps: seq<Step>, capacity: nat): Pump
    decreases |steps|
  {
    if steps == [] then p else After(Apply(p, steps[0], capacity), steps[1..], capacity)
  }

  ghost predicate AllDue(p: Pump, steps: seq<Step>, capacity: nat)
    decreases |steps|
  {
    steps != [] ==> IsDue(p, steps[0]) && AllDue(Apply(p, steps[0], capacity), steps[1..], capacity)
  }

  /** Left to itself the pump comes to rest, whichever of the steps it waits for comes
      first; and then everything that was queued has been handed over, by priority and
      oldest first, and a `stop` that was asked for has resolved. */
  lemma {:induction false} LeftAloneItDeliversEverything(p: Pump, steps: seq<Step>, capacity: nat)
    requires Inv(p, capacity) && AllDue(p, steps, capacity)
    ensures |steps| <= Outstanding(p)
    ensures var q := After(p, steps, capacity);
      (forall step :: !IsDue(q, step)) ==>
        && q.handed == p.handed + Drained(p.queue.entries) && q.queue.entries == []
        && (if p.stopping.Running? then q.stopping.Running? && q.draining.Idle? else q.stopping.Stopped?)
    decreases |steps|
  {
    if steps == [] {
      if forall step :: !IsDue(p, step) {
        assert !IsDue(p, DoSendSettles) && !IsDue(p, DoLoopSettles);
        assert !IsDue(p, DoStopResumes) && !IsDue(p, DoFinalSendSettles);
      }
    } else {
      DueStepAdvances(p, steps[0], capacity);
      ApplyKeepsInv(p, steps[0], capacity);
      LeftAloneItDeliversEverything(Apply(p, steps[0], capacity), steps[1..], capacity);
    }
  }

  // ------------------------------------------------------------------------ the class

  class QueuePump {
    const queue: BoundedQueue<NotifyEvent>
    var draining: Loop
    var stopped: bool
    var stopping: Stopping
    ghost var accepted: Held
    ghost var handed: Held
    ghost var evicted: Held

    ghost predicate Valid()
      reads this, queue
    {
      && queue.Valid() && queue.priorityOf == PriorityOf
      && (stopped <==> !stopping.Running?)
      && Inv(View(), queue.capacity)
    }

    ghost function View(): Pump
      reads this, queue
    {
      Pump(queue.View(), draining, stopping, accepted, handed, evicted)
    }

    constructor (capacity: nat)
      requires 0 < capacity
      ensures Valid() && View() == INITIAL && fresh(queue) && queue.capacity == capacity
    {
      queue := new BoundedQueue.Make(PriorityOf, capacity);
      draining, stopped, stopping := Idle, false, Running;
      accepted, handed, evicted := [], [], [];
    }

    method Offer(event: NotifyEvent) returns (result: EnqueueResult<NotifyEvent>)
      requires Valid()
      modifies this, queue
      ensures Valid() && View() == Enqueue(old(View()), event, queue.capacity)
      ensures result.accepted <==> |accepted| > |old(accepted)|
      ensures result.evicted.Some? <==> |evicted| > |old(evicted)|
      ensures result.evicted.Some? ==> evicted == old(evicted) + [evicted[|evicted| - 1]]
                                       && evicted[|evicted| - 1].item == result.evicted.value
    {
      if stopped {
        return EnqueueResult(false, None);
      }
      EnqueueKeepsInv(View(), event, queue.capacity);
      result := Take(event);
    }

    method Take(event: NotifyEvent) returns (result: EnqueueResult<NotifyEvent>)
      requires queue.Valid() && queue.priorityOf == PriorityOf && !stopped && stopping.Running?
      modifies this, queue
      ensures queue.Valid() && !stopped && stopping.Running?
      ensures View() == Enqueue(old(View()), event, queue.capacity)
      ensures result.accepted <==> |accepted| > |old(accepted)|
      ensures result.evicted.Some? <==> |evicted| > |old(evicted)|
      ensures result.evicted.Some? ==> evicted == old(evicted) + [evicted[|evicted| - 1]]
                                       && evicted[|evicted| - 1].item == result.evicted.value
    {
      result := Admit(event);
      KickLoop();
    }

    method Admit(event: NotifyEvent) returns (result: EnqueueResult<NotifyEvent>)
      requires queue.Valid() && queue.priorityOf == PriorityOf
      modifies this`accepted, this`evicted, queue
      ensures queue.Valid() && View() == Admitted(old(View()), event, queue.capacity)
      ensures result.accepted <==> |accepted| > |old(accepted)|
      ensures result.evicted.Some? <==> |evicted| > |old(evicted)|
      ensures result.evicted.Some? ==> evicted == old(evicted) + [evicted[|evicted| - 1]]
                                       && evicted[|evicted| - 1].item == result.evicted.value
    {
      ghost var e := Entry(event, PriorityOf(event), queue.nextSeq);
      ghost var x := Dropped(queue.entries, e, queue.capacity);
      result := queue.Enqueue(event);
      if result.accepted {
        accepted := accepted + [e];
      }
      if result.evicted.Some? {
        evicted := evicted + [x.value];
      }
    }

    method KickLoop()
      requires queue.Valid() && queue.priorityOf == PriorityOf && (stopped <==> !stopping.Running?)
      modifies this, queue
      ensures queue.Valid() && (stopped <==> !stopping.Running?)
      ensures View() == Kick(old(View()))
    {
      if stopped || !draining.Idle? {
        return;
      }
      draining := Drain();
    }

    /** The body of `drain` from one await to the next. */
    method Drain() returns (at: Loop)
      requires queue.Valid() && queue.priorityOf == PriorityOf
      modifies this`handed, queue
      ensures queue.Valid()
      ensures View().(draining := at) == Drive(old(View()))
    {
      ghost var entries := queue.entries;
      var event := queue.Dequeue();
      if event.None? {
        return Returned;
      }
      handed := handed + [entries[NextIndex(entries)]];
      return Sending(event.value);
    }

    /** The send of the loop has settled, well or badly. */
    method OnSendSettled()
      requires Valid() && draining.Sending?
      modifies this, queue
      ensures Valid() && View() == SendSettles(old(View()))
    {
      SendSettlesKeepsInv(View(), queue.capacity);
      draining := Drain();
    }

    method OnLoopSettled()
      requires Valid() && draining.Returned?
      modifies this, queue
      ensures Valid() && View() == LoopSettles(old(View()))
    {
      LoopSettlesKeepsInv(View(), queue.capacity);
      SettleLoop();
    }

    method SettleLoop()
      requires queue.Valid() && queue.priorityOf == PriorityOf && (stopped <==> !stopping.Running?)
      requires draining.Returned?
      modifies this, queue
      ensures queue.Valid() && (stopped <==> !stopping.Running?)
      ensures View() == LoopSettles(old(View()))
    {
      draining := Idle;
      if !stopped && |queue.entries| > 0 {
        KickLoop();
      }
    }

    method RequestStop()
      requires Valid()
      modifies this, queue
      ensures Valid() && View() == Stop(old(View()))
    {
      if !stopping.Running? {
        return;
      }
      StopKeepsInv(View(), queue.capacity);
      stopped := true;
      if !draining.Idle? {
        stopping := Awaiting;
      } else {
        DrainFinally();
      }
    }

    method DrainFinally()
      requires queue.Valid() && queue.priorityOf == PriorityOf
      modifies this`handed, this`stopping, queue
      ensures queue.Valid() && !stopping.Running?
      ensures View() == DriveFinal(old(View()))
    {
      ghost var p := View();
      if |queue.entries| > 0 {
        var at := Drain();
        stopping := Final(at.event);
      } else {
        stopping := Stopped;
      }
    }

    method OnStopResumes()
      requires Valid() && stopping.Awaiting? && !draining.Sending?
      modifies this, queue
      ensures Valid() && View() == StopResumes(old(View()))
    {
      StopResumesKeepsInv(View(), queue.capacity);
      DrainFinally();
    }

    method OnFinalSendSettled()
      requires Valid() && stopping.Final?
      modifies this, queue
      ensures Valid() && View() == FinalSendSettles(old(View()))
    {
      FinalSendSettlesKeepsInv(View(), queue.capacity);
      DrainFinally();
    }
  }
}
