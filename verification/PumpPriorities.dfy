/** What the pump makes of the kinds of events, whatever is enqueued, kicked, settled and
    stopped: which offers it refuses, what it gives up for them, and what goes first. */
module PumpPriorities {
  import opened Prelude
  import opened BoundedQueue
  import opened QueuePump

  /** Heartbeats are worth less than anything else, resolutions less than what must
      survive: requests for action and terminals, which are worth the same. */
  predicate Lesser(a: NotifyEvent, b: NotifyEvent) {
    || (a.kind == Heartbeat && b.kind != Heartbeat)
    || (a.kind == ActionResolved && (b.kind == ActionRequired || b.kind == Terminal))
  }

  predicate SameWorth(a: NotifyEvent, b: NotifyEvent) {
    !Lesser(a, b) && !Lesser(b, a)
  }

  lemma LesserIsLowerPriority(a: NotifyEvent, b: NotifyEvent)
    ensures Lesser(a, b) <==> PriorityOf(a) < PriorityOf(b)
  {
  }

  lemma StepOfRun(steps: seq<Step>, step: Step, capacity: nat)
    ensures Run(steps + [step], capacity) == Apply(Run(steps, capacity), step, capacity)
    ensures Inv(Run(steps, capacity), capacity)
  {
    assert (steps + [step])[..|steps|] == steps;
    EveryRunKeepsInv(steps, capacity);
  }

  // ------------------------------------------------------------- what is refused

  /** What an offer finds: the entry it would be, and the one without a place. */
  lemma OfferDrops(p: Pump, event: NotifyEvent, capacity: nat)
    requires Sound(p.queue, PriorityOf, capacity)
    ensures var e := Entry(event, PriorityOf(event), p.queue.nextSeq);
      var x := Dropped(p.queue.entries, e, capacity);
      && (x.None? <==> |p.queue.entries| < capacity)
      && (x.Some? ==> (x == Some(e) || x.value in p.queue.entries) && !Lesser(event, x.value.item)
                      && forall y :: y in p.queue.entries ==> !Lesser(y.item, x.value.item))
      && (x == Some(e) ==> forall y :: y in p.queue.entries ==> Lesser(event, y.item))
      && (forall y :: y in p.queue.entries ==> y != e)
  {
    var e := Entry(event, PriorityOf(event), p.queue.nextSeq);
    var x := Dropped(p.queue.entries, e, capacity);
    WhoGivesWay(p.queue.entries, e, capacity);
    forall y | y in p.queue.entries ensures y.priority == PriorityOf(y.item) && y != e {
      assert y.stamp < e.stamp;
    }
    if x.Some? {
      LesserIsLowerPriority(event, x.value.item);
      forall y | y in p.queue.entries
        ensures !Lesser(y.item, x.value.item) && (x == Some(e) ==> Lesser(event, y.item))
      {
        NoneIsBelowTheDropped(p.queue.entries, e, capacity, y);
        LesserIsLowerPriority(y.item, x.value.item);
        LesserIsLowerPriority(event, y.item);
      }
    }
  }

  lemma NoneIsBelowTheDropped(es: Held, e: Entry<NotifyEvent>, capacity: nat, y: Entry<NotifyEvent>)
    requires y in es && Dropped(es, e, capacity).Some?
    ensures Dropped(es, e, capacity).value.priority <= y.priority
  {
    var all := es + [e];
    LeastIndexMeans(all);
    var i :| 0 <= i < |es| && es[i] == y;
    assert all[i] == y;
  }

  /** A running pump refuses an event exactly when its queue is full of events worth more;
      any other is accepted. So a terminal or a request for action is accepted whenever
      there is room, or a heartbeat or a resolution to give up. */
  lemma OfferIsRefusedExactly(steps: seq<Step>, capacity: nat, event: NotifyEvent)
    requires Run(steps, capacity).stopping.Running?
    ensures var p, q := Run(steps, capacity), Run(steps + [DoEnqueue(event)], capacity);
      if |p.queue.entries| == capacity && forall y :: y in p.queue.entries ==> Lesser(event, y.item)
      then q.accepted == p.accepted
      else exists e: Entry<NotifyEvent> :: e.item == event && q.accepted == p.accepted + [e]
  {
    var p := Run(steps, capacity);
    StepOfRun(steps, DoEnqueue(event), capacity);
    OfferDrops(p, event, capacity);
    var e := Entry(event, PriorityOf(event), p.queue.nextSeq);
    var x := Dropped(p.queue.entries, e, capacity);
    if x.Some? && x != Some(e) {
      assert x.value in p.queue.entries;
    }
    assert x != Some(e) ==> Admitted(p, event, capacity).accepted == p.accepted + [e];
  }

  // ---------------------------------------------------------------- what is given up

  /** An event is evicted only for an offer, and only while nothing queued, nor the
      offer, is worth less: no terminal and no request for action goes while there is a
      heartbeat or a resolution. */
  lemma TheLeastIsEvicted(steps: seq<Step>, capacity: nat, step: Step, x: Entry<NotifyEvent>)
    requires Run(steps + [step], capacity).evicted == Run(steps, capacity).evicted + [x]
    ensures var p := Run(steps, capacity);
      && step.DoEnqueue? && x in p.queue.entries && |p.queue.entries| == capacity
      && !Lesser(step.event, x.item)
      && (forall y :: y in p.queue.entries ==> !Lesser(y.item, x.item))
      && (forall y :: y in p.queue.entries && SameWorth(y.item, x.item) ==> x.stamp <= y.stamp)
  {
    var p := Run(steps, capacity);
    StepOfRun(steps, step, capacity);
    assert |p.evicted + [x]| == |p.evicted| + 1;
    OnlyOffersEvict(p, step, capacity);
    OfferDrops(p, step.event, capacity);
    OldestIsDropped(p, step.event, capacity);
    assert (p.evicted + [x])[|p.evicted|] == x;
  }

  lemma OnlyOffersEvict(p: Pump, step: Step, capacity: nat)
    ensures Apply(p, step, capacity).evicted != p.evicted ==>
      step.DoEnqueue? && Apply(p, step, capacity).evicted == Admitted(p, step.event, capacity).evicted
  {
  }

  lemma OldestIsDropped(p: Pump, event: NotifyEvent, capacity: nat)
    requires Sound(p.queue, PriorityOf, capacity)
    ensures var e := Entry(event, PriorityOf(event), p.queue.nextSeq);
      var x := Dropped(p.queue.entries, e, capacity);
      x.Some? && x != Some(e) ==>
        forall y :: y in p.queue.entries && SameWorth(y.item, x.value.item) ==> x.value.stamp <= y.stamp
  {
    var e := Entry(event, PriorityOf(event), p.queue.nextSeq);
    var all := p.queue.entries + [e];
    LeastIndexMeans(all);
    var k := LeastIndex(all);
    if |all| > capacity && all[k] != e {
      forall y | y in p.queue.entries && SameWorth(y.item, all[k].item) ensures all[k].stamp <= y.stamp {
        var i :| 0 <= i < |p.queue.entries| && p.queue.entries[i] == y;
        assert all[i] == y && k < |p.queue.entries|;
        LesserIsLowerPriority(y.item, all[k].item);
        LesserIsLowerPriority(all[k].item, y.item);
        assert k <= i;
      }
    }
  }

  // ---------------------------------------------------------------- what goes first

  /** What is handed over is worth no less than anything left in the queue, and older than
      anything of its worth there. */
  ghost predicate GoesFirst(x: Entry<NotifyEvent>, rest: Held) {
    forall y :: y in rest ==> !Lesser(x.item, y.item) && (SameWorth(x.item, y.item) ==> x.stamp < y.stamp)
  }

  lemma NextGoesFirst(p: Pump, capacity: nat)
    requires Sound(p.queue, PriorityOf, capacity) && p.queue.entries != []
    ensures var x := p.queue.entries[NextIndex(p.queue.entries)];
      GoesFirst(x, Handed(p).queue.entries) && Handed(p).handed == p.handed + [x]
  {
    var es := p.queue.entries;
    var k := NextIndex(es);
    NextIndexMeans(es);
    forall y | y in Without(es, k)
      ensures !Lesser(es[k].item, y.item) && (SameWorth(es[k].item, y.item) ==> es[k].stamp < y.stamp)
    {
      var i :| 0 <= i < |es| - 1 && Without(es, k)[i] == y;
      var j := if i < k then i else i + 1;
      assert y == es[j];
      LesserIsLowerPriority(es[k].item, y.item);
      LesserIsLowerPriority(y.item, es[k].item);
    }
  }

  /** A step hands the next entry over, or leaves queue and deliveries alone. */
  predicate Delivers(p: Pump, q: Pump) {
    || (q.queue == p.queue && q.handed == p.handed)
    || (p.queue.entries != [] && q.queue == Handed(p).queue && q.handed == Handed(p).handed)
  }

  lemma StepDelivers(p: Pump, step: Step, capacity: nat)
    ensures !step.DoEnqueue? ==> Delivers(p, Apply(p, step, capacity))
    ensures step.DoEnqueue? && p.stopping.Running? ==>
      Delivers(Admitted(p, step.event, capacity), Apply(p, step, capacity))
    ensures step.DoEnqueue? && !p.stopping.Running? ==> Apply(p, step, capacity) == p
    ensures step.DoEnqueue? ==> Admitted(p, step.event, capacity).handed == p.handed
  {
  }

  /** A heartbeat or resolution is handed over only when no terminal and no request for
      action is queued, and a heartbeat only when no resolution is either. */
  lemma TheWorthiestGoesFirst(steps: seq<Step>, capacity: nat, step: Step, x: Entry<NotifyEvent>)
    requires Run(steps + [step], capacity).handed == Run(steps, capacity).handed + [x]
    ensures GoesFirst(x, Run(steps + [step], capacity).queue.entries)
  {
    var p := Run(steps, capacity);
    StepOfRun(steps, step, capacity);
    StepDelivers(p, step, capacity);
    assert (p.handed + [x])[|p.handed|] == x && |p.handed + [x]| == |p.handed| + 1;
    var from := if step.DoEnqueue? then Admitted(p, step.event, capacity) else p;
    if step.DoEnqueue? {
      AdmittedIsConserved(p, step.event, capacity);
    }
    if from.queue.entries != [] {
      NextGoesFirst(from, capacity);
    }
  }

  /** Of events worth the same, what was accepted earlier has been handed over earlier,
      and before what is still queued. */
  ghost predicate InTurn(p: Pump) {
    && (forall x :: x in p.handed ==> x.stamp < p.queue.nextSeq)
    && (forall i, j :: 0 <= i < j < |p.handed| && SameWorth(p.handed[i].item, p.handed[j].item) ==>
          p.handed[i].stamp < p.handed[j].stamp)
    && (forall x, y :: x in p.handed && y in p.queue.entries && SameWorth(x.item, y.item) ==> x.stamp < y.stamp)
  }

  lemma AdmittedInTurn(p: Pump, event: NotifyEvent, capacity: nat)
    requires Sound(p.queue, PriorityOf, capacity) && InTurn(p)
    ensures InTurn(Admitted(p, event, capacity))
  {
    var e := Entry(event, PriorityOf(event), p.queue.nextSeq);
    var q := Admitted(p, event, capacity);
    var x := Dropped(p.queue.entries, e, capacity);
    OfferKeepsTheGreatest(p.queue.entries, e, capacity);
    forall y | y in q.queue.entries ensures y in p.queue.entries || y == e {
      OfferMembers(p.queue.entries, e, capacity, q.queue.entries, x, y);
    }
    LaterQueueStaysInTurn(p, q, e);
  }

  lemma LaterQueueStaysInTurn(p: Pump, q: Pump, e: Entry<NotifyEvent>)
    requires InTurn(p) && q.handed == p.handed && p.queue.nextSeq <= q.queue.nextSeq && e.stamp == p.queue.nextSeq
    requires forall y :: y in q.queue.entries ==> y in p.queue.entries || y == e
    ensures InTurn(q)
  {
  }

  lemma HandedInTurn(p: Pump, capacity: nat)
    requires Sound(p.queue, PriorityOf, capacity) && InTurn(p) && p.queue.entries != []
    ensures InTurn(Handed(p))
  {
    var es := p.queue.entries;
    var k := NextIndex(es);
    NextGoesFirst(p, capacity);
    forall y | y in Without(es, k) ensures y in es {
    }
    HandingStaysInTurn(p, Handed(p), es[k]);
  }

  lemma HandingStaysInTurn(p: Pump, q: Pump, x: Entry<NotifyEvent>)
    requires InTurn(p) && x in p.queue.entries && x.stamp < p.queue.nextSeq && GoesFirst(x, q.queue.entries)
    requires q.handed == p.handed + [x] && q.queue.nextSeq == p.queue.nextSeq
    requires forall y :: y in q.queue.entries ==> y in p.queue.entries
    ensures InTurn(q)
  {
  }

  lemma DeliversInTurn(p: Pump, q: Pump, capacity: nat)
    requires Sound(p.queue, PriorityOf, capacity) && InTurn(p) && Delivers(p, q)
    ensures InTurn(q)
  {
    if p.queue.entries != [] {
      HandedInTurn(p, capacity);
    }
  }

  lemma {:induction false} EveryRunIsInTurn(steps: seq<Step>, capacity: nat)
    ensures InTurn(Run(steps, capacity))
    decreases |steps|
  {
    if steps != [] {
      var before, step := steps[..|steps| - 1], steps[|steps| - 1];
      var p := Run(before, capacity);
      EveryRunIsInTurn(before, capacity);
      EveryRunKeepsInv(before, capacity);
      StepDelivers(p, step, capacity);
      if step.DoEnqueue? && p.stopping.Running? {
        AdmittedIsConserved(p, step.event, capacity);
        AdmittedInTurn(p, step.event, capacity);
        DeliversInTurn(Admitted(p, step.event, capacity), Run(steps, capacity), capacity);
      } else {
        DeliversInTurn(p, Run(steps, capacity), capacity);
      }
    }
  }

  /** In every run terminals and requests for action, taken together, are handed over in
      the order in which they were accepted; so are resolutions, and heartbeats. */
  lemma FirstInFirstOut(steps: seq<Step>, capacity: nat, i: nat, j: nat, a: nat, b: nat)
    requires var p := Run(steps, capacity);
      && i < j < |p.handed| && SameWorth(p.handed[i].item, p.handed[j].item)
      && a < |p.accepted| && b < |p.accepted| && p.accepted[a] == p.handed[i] && p.accepted[b] == p.handed[j]
    ensures a < b
  {
    EveryRunIsInTurn(steps, capacity);
    EveryRunKeepsInv(steps, capacity);
  }
}
