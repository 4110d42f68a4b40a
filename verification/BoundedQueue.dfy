/** The plugin's bounded queue: which entries a full queue gives up, and in which order
    it is emptied. */
module BoundedQueue {
  import opened Prelude

  datatype EventType = Heartbeat | ActionResolved | ActionRequired | Terminal

  function NotifyEventPriority(t: EventType): nat {
    match t
    case Heartbeat => 0
    case ActionResolved => 1
    case ActionRequired => 2
    case Terminal => 2
  }

  datatype Entry<T> = Entry(item: T, priority: nat, stamp: nat)

  /** The order of worth: by priority, then the newer. */
  predicate Outranks<T>(a: Entry<T>, b: Entry<T>) {
    a.priority > b.priority || (a.priority == b.priority && a.stamp > b.stamp)
  }

  /** The order of delivery: by priority, then the older. */
  predicate Precedes<T>(a: Entry<T>, b: Entry<T>) {
    a.priority > b.priority || (a.priority == b.priority && a.stamp < b.stamp)
  }

  ghost predicate Increasing<T>(es: seq<Entry<T>>) {
    forall i, j :: 0 <= i < j < |es| ==> es[i].stamp < es[j].stamp
  }

  ghost predicate StampsBelow<T>(es: seq<Entry<T>>, next: nat) {
    Increasing(es) && forall i :: 0 <= i < |es| ==> es[i].stamp < next
  }

  function Without<T>(es: seq<Entry<T>>, k: nat): seq<Entry<T>>
    requires k < |es|
  {
    es[..k] + es[k + 1..]
  }

  // ------------------------------------------------------------- the two searches

  /** The first entry of the lowest priority, which is the oldest of them. */
  ghost predicate IsLeast<T>(es: seq<Entry<T>>, k: nat) {
    && k < |es|
    && (forall i :: 0 <= i < |es| ==> es[k].priority <= es[i].priority)
    && (forall i :: 0 <= i < k ==> es[k].priority < es[i].priority)
  }

  /** The first entry of the highest priority. */
  ghost predicate IsNext<T>(es: seq<Entry<T>>, k: nat) {
    && k < |es|
    && (forall i :: 0 <= i < |es| ==> es[i].priority <= es[k].priority)
    && (forall i :: 0 <= i < k ==> es[i].priority < es[k].priority)
  }

  function LeastIndex<T>(es: seq<Entry<T>>): (k: nat)
    requires es != []
    ensures k < |es|
    decreases |es|
  {
    var n := |es| - 1;
    if n == 0 then 0
    else
      var k := LeastIndex(es[..n]);
      if es[n].priority < es[k].priority then n else k
  }

  function NextIndex<T>(es: seq<Entry<T>>): (k: nat)
    requires es != []
    ensures k < |es|
    decreases |es|
  {
    var n := |es| - 1;
    if n == 0 then 0
    else
      var k := NextIndex(es[..n]);
      if es[n].priority > es[k].priority then n else k
  }

  lemma {:induction false} LeastIndexMeans<T>(es: seq<Entry<T>>)
    requires es != []
    ensures IsLeast(es, LeastIndex(es))
    decreases |es|
  {
    var n := |es| - 1;
    if n > 0 {
      LeastIndexMeans(es[..n]);
      assert forall i :: 0 <= i < n ==> es[..n][i] == es[i];
    }
  }

  lemma {:induction false} NextIndexMeans<T>(es: seq<Entry<T>>)
    requires es != []
    ensures IsNext(es, NextIndex(es))
    decreases |es|
  {
    var n := |es| - 1;
    if n > 0 {
      NextIndexMeans(es[..n]);
      assert forall i :: 0 <= i < n ==> es[..n][i] == es[i];
    }
  }

  // --------------------------------------------------------------------- enqueueing

  /** What the queue holds after an offer: everything, less its least if that is one
      too many. */
  function Offer<T>(es: seq<Entry<T>>, e: Entry<T>, capacity: nat): seq<Entry<T>> {
    var all := es + [e];
    if |all| <= capacity then all else Without(all, LeastIndex(all))
  }

  /** The offer that finds no place, whether the newcomer or one that was held. */
  function Dropped<T>(es: seq<Entry<T>>, e: Entry<T>, capacity: nat): Option<Entry<T>> {
    var all := es + [e];
    if |all| <= capacity then None else Some(all[LeastIndex(all)])
  }

  ghost predicate Exceeds<T>(es: seq<Entry<T>>, x: Entry<T>) {
    forall y :: y in es ==> Outranks(y, x)
  }

  /** An offer of e to es left r and dropped x. */
  ghost predicate KeepsTheGreatest<T>(
    es: seq<Entry<T>>, e: Entry<T>, capacity: nat, r: seq<Entry<T>>, x: Option<Entry<T>>)
  {
    && Increasing(r)
    && |r| == (if |es| < capacity then |es| + 1 else capacity)
    && (x.None? <==> |es| < capacity)
    && (x.None? ==> r == es + [e])
    && (x.Some? ==> Exceeds(r, x.value) && multiset(es + [e]) == multiset(r + [x.value]))
  }

  /** Each offer leaves exactly the greatest of what there was and the newcomer. */
  lemma OfferKeepsTheGreatest<T>(es: seq<Entry<T>>, e: Entry<T>, capacity: nat)
    requires Increasing(es + [e]) && |es| <= capacity
    ensures KeepsTheGreatest(es, e, capacity, Offer(es, e, capacity), Dropped(es, e, capacity))
  {
    var all := es + [e];
    if |all| > capacity {
      LeastIndexMeans(all);
      LeastTaken(all, LeastIndex(all));
    }
  }

  lemma LeastTaken<T>(all: seq<Entry<T>>, k: nat)
    requires Increasing(all) && IsLeast(all, k)
    ensures Increasing(Without(all, k)) && Exceeds(Without(all, k), all[k])
    ensures multiset(all) == multiset(Without(all, k) + [all[k]])
  {
    Taken(all, k);
    forall y | y in Without(all, k) ensures Outranks(y, all[k]) {
      var i :| 0 <= i < |all| - 1 && Without(all, k)[i] == y;
      assert y == if i < k then all[i] else all[i + 1];
    }
  }

  lemma Taken<T>(all: seq<Entry<T>>, k: nat)
    requires k < |all|
    ensures multiset(all) == multiset(Without(all, k)) + multiset{all[k]}
    ensures multiset(all) == multiset(Without(all, k) + [all[k]])
  {
    assert all == all[..k] + [all[k]] + all[k + 1..];
  }

  lemma OfferMembers<T>(es: seq<Entry<T>>, e: Entry<T>, capacity: nat, r: seq<Entry<T>>, x: Option<Entry<T>>, y: Entry<T>)
    requires KeepsTheGreatest(es, e, capacity, r, x)
    ensures y in es || y == e <==> y in r || x == Some(y)
  {
    assert y in es + [e] <==> y in multiset(es + [e]);
    if x.Some? {
      assert y in r + [x.value] <==> y in multiset(r + [x.value]);
    }
  }

  lemma OfferStaysWithin<T>(es: seq<Entry<T>>, e: Entry<T>, capacity: nat)
    requires StampsBelow(es, e.stamp) && |es| <= capacity
    ensures StampsBelow(Offer(es, e, capacity), e.stamp + 1) && |Offer(es, e, capacity)| <= capacity
    ensures Dropped(es, e, capacity) == Some(e) ==> Offer(es, e, capacity) == es
  {
    if |es| == capacity && Dropped(es, e, capacity) == Some(e) {
      var all := es + [e];
      assert LeastIndex(all) == |es|;
      assert Without(all, |es|) == es;
    }
  }

  /** The newcomer is turned away exactly when the queue is full of entries of higher
      priority; otherwise a full queue gives up its oldest entry of the lowest priority,
      which is never above the newcomer's. So a heartbeat costs only a heartbeat. */
  lemma WhoGivesWay<T>(es: seq<Entry<T>>, e: Entry<T>, capacity: nat)
    requires StampsBelow(es, e.stamp) && |es| <= capacity
    ensures var x := Dropped(es, e, capacity);
      && (x == Some(e) <==> |es| == capacity && forall y :: y in es ==> y.priority > e.priority)
      && (x.Some? && x != Some(e) ==> x.value in es && x.value.priority <= e.priority)
  {
    var all := es + [e];
    if |all| > capacity {
      LeastIndexMeans(all);
      var k := LeastIndex(all);
      if k < |es| {
        assert es[k] == all[k] && all[|es|] == e;
        assert es[k] in es && es[k].priority <= e.priority;
      } else {
        forall y | y in es ensures y.priority > e.priority {
          var i :| 0 <= i < |es| && es[i] == y;
          assert all[i] == y;
        }
      }
    }
  }

  // ------------------------------------------------------ a run without a dequeue

  /** The i-th offer of a run, stamped with its place in it. */
  function Stamped<T>(offers: seq<T>, priorityOf: T -> nat, i: nat): Entry<T>
    requires i < |offers|
  {
    Entry(offers[i], priorityOf(offers[i]), i)
  }

  function Held<T>(offers: seq<T>, priorityOf: T -> nat, capacity: nat, n: nat): seq<Entry<T>>
    requires n <= |offers|
  {
    if n == 0 then []
    else Offer(Held(offers, priorityOf, capacity, n - 1), Stamped(offers, priorityOf, n - 1), capacity)
  }

  /** The greatest of the first n offers, as many as there is room for. */
  ghost predicate IsTop<T(!new)>(offers: seq<T>, priorityOf: T -> nat, capacity: nat, n: nat, es: seq<Entry<T>>)
    requires n <= |offers|
  {
    && StampsBelow(es, n)
    && |es| == (if n <= capacity then n else capacity)
    && (forall e :: e in es ==> e.stamp < n && e == Stamped(offers, priorityOf, e.stamp))
    && (forall i :: 0 <= i < n && Stamped(offers, priorityOf, i) !in es ==>
          n > capacity && Exceeds(es, Stamped(offers, priorityOf, i)))
  }

  /** A run of offers from empty holds the top of everything offered. */
  lemma {:induction false} HeldIsTop<T(!new)>(offers: seq<T>, priorityOf: T -> nat, capacity: nat, n: nat)
    requires n <= |offers|
    ensures IsTop(offers, priorityOf, capacity, n, Held(offers, priorityOf, capacity, n))
  {
    if n > 0 {
      HeldIsTop(offers, priorityOf, capacity, n - 1);
      TopAfterOffer(offers, priorityOf, capacity, n, Held(offers, priorityOf, capacity, n - 1));
    }
  }

  lemma TopAfterOffer<T(!new)>(offers: seq<T>, priorityOf: T -> nat, capacity: nat, n: nat, es: seq<Entry<T>>)
    requires 0 < n <= |offers| && IsTop(offers, priorityOf, capacity, n - 1, es)
    ensures IsTop(offers, priorityOf, capacity, n, Offer(es, Stamped(offers, priorityOf, n - 1), capacity))
  {
    var e := Stamped(offers, priorityOf, n - 1);
    assert Increasing(es + [e]);
    OfferKeepsTheGreatest(es, e, capacity);
    TopAfter(offers, priorityOf, capacity, n, es, Offer(es, e, capacity), Dropped(es, e, capacity));
  }

  lemma TopAfter<T(!new)>(offers: seq<T>, priorityOf: T -> nat, capacity: nat, n: nat,
                          es: seq<Entry<T>>, r: seq<Entry<T>>, x: Option<Entry<T>>)
    requires 0 < n <= |offers| && IsTop(offers, priorityOf, capacity, n - 1, es)
    requires KeepsTheGreatest(es, Stamped(offers, priorityOf, n - 1), capacity, r, x)
    ensures IsTop(offers, priorityOf, capacity, n, r)
  {
    var e := Stamped(offers, priorityOf, n - 1);
    forall y | y in r ensures y.stamp < n && y == Stamped(offers, priorityOf, y.stamp) {
      OfferMembers(es, e, capacity, r, x, y);
    }
    forall i | 0 <= i < n && Stamped(offers, priorityOf, i) !in r
      ensures n > capacity && Exceeds(r, Stamped(offers, priorityOf, i))
    {
      var z := Stamped(offers, priorityOf, i);
      OfferMembers(es, e, capacity, r, x, z);
      if x != Some(z) {
        assert z !in es && z != e;
        OfferExceeds(es, e, capacity, r, x, z);
      }
    }
  }

  lemma OfferExceeds<T>(es: seq<Entry<T>>, e: Entry<T>, capacity: nat, r: seq<Entry<T>>, x: Option<Entry<T>>, z: Entry<T>)
    requires KeepsTheGreatest(es, e, capacity, r, x) && x.Some? && Exceeds(es, z)
    ensures Exceeds(r, z)
  {
    OfferMembers(es, e, capacity, r, x, x.value);
    forall y | y in r ensures Outranks(y, z) {
      OfferMembers(es, e, capacity, r, x, y);
      assert Outranks(y, x.value) && (x.value in es ==> Outranks(x.value, z));
    }
  }

  /** And the top is one set, whatever machine keeps it. */
  lemma TopIsUnique<T(!new)>(offers: seq<T>, priorityOf: T -> nat, capacity: nat, n: nat,
                             a: seq<Entry<T>>, b: seq<Entry<T>>, x: Entry<T>)
    requires n <= |offers| && IsTop(offers, priorityOf, capacity, n, a) && IsTop(offers, priorityOf, capacity, n, b)
    requires x in a
    ensures x in b
  {
    var A, B := Members(a), Members(b);
    MembersCount(a);
    MembersCount(b);
    if x !in b {
      SubsetOfSameSize(B, A, x);
    }
  }

  lemma SubsetOfSameSize<T>(small: set<T>, big: set<T>, x: T)
    requires |small| == |big| && x in big && x !in small
    ensures exists y :: y in small && y !in big
  {
    if forall y :: y in small ==> y in big {
      assert small <= big - {x} ==> |small| <= |big - {x}| by { SubsetIsNoLarger(small, big - {x}); }
    }
  }

  ghost function Members<T>(es: seq<Entry<T>>): set<Entry<T>> {
    set e | e in es
  }

  lemma {:induction false} MembersCount<T>(es: seq<Entry<T>>)
    requires Increasing(es)
    ensures |Members(es)| == |es|
    decreases |es|
  {
    if es != [] {
      var n := |es| - 1;
      MembersCount(es[..n]);
      assert Members(es) == Members(es[..n]) + {es[n]};
      assert es[n] !in es[..n];
    }
  }

  // ------------------------------------------------------------- the queue's own stamps

  datatype Queue<T> = Queue(entries: seq<Entry<T>>, nextSeq: nat)

  function Enqueued<T>(q: Queue<T>, item: T, priority: nat, capacity: nat): Queue<T> {
    var e := Entry(item, priority, q.nextSeq);
    var x := Dropped(q.entries, e, capacity);
    Queue(Offer(q.entries, e, capacity),
          if x.Some? && x.value.stamp == q.nextSeq then q.nextSeq else q.nextSeq + 1)
  }

  ghost predicate Sound<T>(q: Queue<T>, priorityOf: T -> nat, capacity: nat) {
    && |q.entries| <= capacity
    && StampsBelow(q.entries, q.nextSeq)
    && forall i :: 0 <= i < |q.entries| ==> q.entries[i].priority == priorityOf(q.entries[i].item)
  }

  lemma EnqueuedStaysSound<T>(q: Queue<T>, item: T, priorityOf: T -> nat, capacity: nat)
    requires Sound(q, priorityOf, capacity)
    ensures Sound(Enqueued(q, item, priorityOf(item), capacity), priorityOf, capacity)
  {
    var e := Entry(item, priorityOf(item), q.nextSeq);
    var r, x := Offer(q.entries, e, capacity), Dropped(q.entries, e, capacity);
    OfferStaysWithin(q.entries, e, capacity);
    OfferKeepsTheGreatest(q.entries, e, capacity);
    forall i | 0 <= i < |r| ensures r[i].priority == priorityOf(r[i].item) {
      OfferMembers(q.entries, e, capacity, r, x, r[i]);
    }
    if x.Some? && x.value.stamp == q.nextSeq {
      OfferMembers(q.entries, e, capacity, r, x, x.value);
      assert x == Some(e);
    }
  }

  function Ran<T>(offers: seq<T>, priorityOf: T -> nat, capacity: nat, n: nat): Queue<T>
    requires n <= |offers|
  {
    if n == 0 then Queue([], 0)
    else Enqueued(Ran(offers, priorityOf, capacity, n - 1), offers[n - 1], priorityOf(offers[n - 1]), capacity)
  }

  /** The same items in the same order, whatever their stamps. */
  ghost predicate Alike<T>(a: seq<Entry<T>>, b: seq<Entry<T>>) {
    |a| == |b| && forall i :: 0 <= i < |a| ==> a[i].item == b[i].item && a[i].priority == b[i].priority
  }

  /** Refused offers use up no stamp, and it makes no difference. */
  lemma {:induction false} RanIsHeld<T>(offers: seq<T>, priorityOf: T -> nat, capacity: nat, n: nat)
    requires n <= |offers|
    ensures Alike(Ran(offers, priorityOf, capacity, n).entries, Held(offers, priorityOf, capacity, n))
  {
    if n > 0 {
      RanIsHeld(offers, priorityOf, capacity, n - 1);
      var q := Ran(offers, priorityOf, capacity, n - 1);
      OfferAlike(q.entries, Entry(offers[n - 1], priorityOf(offers[n - 1]), q.nextSeq),
                 Held(offers, priorityOf, capacity, n - 1), Stamped(offers, priorityOf, n - 1), capacity);
    }
  }

  lemma OfferAlike<T>(a: seq<Entry<T>>, d: Entry<T>, b: seq<Entry<T>>, e: Entry<T>, capacity: nat)
    requires Alike(a, b) && d.item == e.item && d.priority == e.priority
    ensures Alike(Offer(a, d, capacity), Offer(b, e, capacity))
  {
    LeastIndexMeans(a + [d]);
    LeastIndexMeans(b + [e]);
    WithoutAlike(a + [d], LeastIndex(a + [d]), b + [e], LeastIndex(b + [e]));
  }

  lemma WithoutAlike<T>(a: seq<Entry<T>>, k: nat, b: seq<Entry<T>>, l: nat)
    requires Alike(a, b) && IsLeast(a, k) && IsLeast(b, l)
    ensures Alike(Without(a, k), Without(b, l))
  {
    assert a[k].priority == b[k].priority && a[l].priority == b[l].priority;
    assert k == l;
  }

  /** A queue that has only been offered things holds the items of the greatest. */
  lemma RunHoldsTheTop<T(!new)>(offers: seq<T>, priorityOf: T -> nat, capacity: nat) returns (top: seq<Entry<T>>)
    ensures IsTop(offers, priorityOf, capacity, |offers|, top)
    ensures Alike(Ran(offers, priorityOf, capacity, |offers|).entries, top)
  {
    top := Held(offers, priorityOf, capacity, |offers|);
    HeldIsTop(offers, priorityOf, capacity, |offers|);
    RanIsHeld(offers, priorityOf, capacity, |offers|);
  }

  // --------------------------------------------------------------------- emptying it

  /** The entries in the order in which they are taken out. */
  function Drained<T>(es: seq<Entry<T>>): seq<Entry<T>>
    decreases |es|
  {
    if es == [] then [] else [es[NextIndex(es)]] + Drained(Without(es, NextIndex(es)))
  }

  ghost predicate Ordered<T>(es: seq<Entry<T>>) {
    forall i, j :: 0 <= i < j < |es| ==> Precedes(es[i], es[j])
  }

  /** Emptying the queue is a stable sort: all of it, by priority, oldest first. */
  lemma {:induction false} DrainedIsStableSort<T>(es: seq<Entry<T>>)
    requires Increasing(es)
    ensures multiset(Drained(es)) == multiset(es) && Ordered(Drained(es))
    decreases |es|
  {
    if es != [] {
      var k := NextIndex(es);
      var rest := Without(es, k);
      NextIndexMeans(es);
      NextTaken(es, k);
      DrainedIsStableSort(rest);
      PrependOrdered(es[k], Drained(rest), rest);
      Taken(es, k);
    }
  }

  ghost predicate PrecedesAll<T>(x: Entry<T>, es: seq<Entry<T>>) {
    forall y :: y in es ==> Precedes(x, y)
  }

  lemma NextTaken<T>(es: seq<Entry<T>>, k: nat)
    requires Increasing(es) && IsNext(es, k)
    ensures Increasing(Without(es, k)) && PrecedesAll(es[k], Without(es, k))
  {
    forall y | y in Without(es, k) ensures Precedes(es[k], y) {
      var i :| 0 <= i < |es| - 1 && Without(es, k)[i] == y;
      assert y == if i < k then es[i] else es[i + 1];
    }
  }

  lemma PrependOrdered<T>(x: Entry<T>, es: seq<Entry<T>>, of: seq<Entry<T>>)
    requires PrecedesAll(x, of) && Ordered(es) && multiset(es) == multiset(of)
    ensures Ordered([x] + es)
  {
    forall y | y in es ensures Precedes(x, y) {
      assert y in multiset(es);
    }
  }

  lemma NextTakenStaysSound<T>(q: Queue<T>, priorityOf: T -> nat, capacity: nat)
    requires Sound(q, priorityOf, capacity) && q.entries != []
    ensures var k := NextIndex(q.entries);
      && Sound(q.(entries := Without(q.entries, k)), priorityOf, capacity)
      && multiset(q.entries) == multiset(Without(q.entries, k)) + multiset{q.entries[k]}
  {
    var k := NextIndex(q.entries);
    NextIndexMeans(q.entries);
    NextTaken(q.entries, k);
    Taken(q.entries, k);
    TakenKeepsRest(q, priorityOf, k);
  }

  lemma TakenKeepsRest<T>(q: Queue<T>, priorityOf: T -> nat, k: nat)
    requires k < |q.entries| && Sound(q, priorityOf, |q.entries|)
    ensures forall i :: 0 <= i < |Without(q.entries, k)| ==>
      var e := Without(q.entries, k)[i]; e.stamp < q.nextSeq && e.priority == priorityOf(e.item)
  {
  }

  // ------------------------------------------------------------------------ the class

  datatype EnqueueResult<+T> = EnqueueResult(accepted: bool, evicted: Option<T>)

  class BoundedQueue<T(!new)> {
    const capacity: nat
    const priorityOf: T -> nat
    var entries: seq<Entry<T>>
    var nextSeq: nat

    ghost predicate Valid()
      reads this
    {
      0 < capacity && Sound(View(), priorityOf, capacity)
    }

    ghost function View(): Queue<T>
      reads this
    {
      Queue(entries, nextSeq)
    }

    constructor Make(priorityOf: T -> nat, capacity: nat)
      requires 0 < capacity
      ensures Valid() && View() == Queue([], 0)
      ensures this.priorityOf == priorityOf && this.capacity == capacity
    {
      this.priorityOf, this.capacity := priorityOf, capacity;
      entries, nextSeq := [], 0;
    }

    /** The source throws a RangeError for a capacity that is not positive. */
    static method New(priorityOf: T -> nat, capacity: int) returns (q: BoundedQueue?<T>)
      ensures q == null <==> capacity <= 0
      ensures q != null ==> fresh(q) && q.Valid() && q.View() == Queue([], 0) && q.capacity == capacity
                            && q.priorityOf == priorityOf
    {
      if capacity <= 0 {
        return null;
      }
      q := new BoundedQueue.Make(priorityOf, capacity);
    }

    method EvictionIndex(priority: nat) returns (k: int)
      requires Valid()
      ensures k == -1 <==> forall i :: 0 <= i < |entries| ==> entries[i].priority > priority
      ensures k != -1 ==> 0 <= k && IsLeast(entries, k) && entries[k].priority <= priority
    {
      var lowest := -1;
      for i := 0 to |entries|
        invariant -1 <= lowest < i
        invariant lowest == -1 ==> forall j :: 0 <= j < i ==> priority == 0 && entries[j].priority != 0
        invariant lowest != -1 ==>
          && (priority == 0 ==> entries[lowest].priority == 0)
          && (forall j :: 0 <= j < i ==> entries[lowest].priority <= entries[j].priority)
          && (forall j :: 0 <= j < lowest ==> entries[lowest].priority < entries[j].priority)
      {
        if priority == 0 && entries[i].priority != 0 {
          continue;
        }
        if lowest == -1 || entries[i].priority < entries[lowest].priority {
          lowest := i;
        }
      }
      if lowest == -1 {
        return -1;
      }
      return if entries[lowest].priority <= priority then lowest else -1;
    }

    method Push(item: T, priority: nat)
      modifies this
      ensures View() == Queue(old(entries) + [Entry(item, priority, old(nextSeq))], old(nextSeq) + 1)
    {
      entries := entries + [Entry(item, priority, nextSeq)];
      nextSeq := nextSeq + 1;
    }

    /** Insert an item, evicting when full; says what became of it and of whom. */
    method Enqueue(item: T) returns (result: EnqueueResult<T>)
      requires Valid()
      modifies this
      ensures Valid() && View() == Enqueued(old(View()), item, priorityOf(item), capacity)
      ensures var e := Entry(item, priorityOf(item), old(nextSeq));
        match Dropped(old(entries), e, capacity)
        case None => result == EnqueueResult(true, None)
        case Some(x) => result == if x == e then EnqueueResult(false, None) else EnqueueResult(true, Some(x.item))
    {
      var priority := priorityOf(item);
      EnqueuedStaysSound(View(), item, priorityOf, capacity);
      if |entries| < capacity {
        Push(item, priority);
        return EnqueueResult(true, None);
      }
      var k := EvictionIndex(priority);
      EnqueuedWhenFull(View(), item, priorityOf, capacity, k);
      if k == -1 {
        return EnqueueResult(false, None);
      }
      var victim := entries[k];
      entries := entries[..k] + entries[k + 1..];
      Push(item, priority);
      return EnqueueResult(true, Some(victim.item));
    }

    /** Take out the oldest of the highest priority. */
    method Dequeue() returns (item: Option<T>)
      requires Valid()
      modifies this
      ensures Valid() && nextSeq == old(nextSeq)
      ensures if old(entries) == [] then item == None && entries == []
              else item == Some(Drained(old(entries))[0].item) && Drained(entries) == Drained(old(entries))[1..]
                   && entries == Without(old(entries), NextIndex(old(entries)))
    {
      if |entries| == 0 {
        return None;
      }
      var best := NextToGo();
      ghost var was := entries;
      var entry := entries[best];
      entries := entries[..best] + entries[best + 1..];
      NextTaken(was, best);
      assert entries == Without(was, best);
      return Some(entry.item);
    }

    method NextToGo() returns (best: nat)
      requires entries != []
      ensures best < |entries| && best == NextIndex(entries) && IsNext(entries, best)
    {
      best := 0;
      for i := 1 to |entries|
        invariant best < i && IsNext(entries[..i], best)
      {
        if entries[i].priority > entries[best].priority {
          best := i;
        }
      }
      assert entries[..|entries|] == entries;
      NextIndexMeans(entries);
      NextIsUnique(entries, best, NextIndex(entries));
    }
  }

  lemma NextIsUnique<T>(es: seq<Entry<T>>, k: nat, l: nat)
    requires IsNext(es, k) && IsNext(es, l)
    ensures k == l
  {
    assert es[k].priority == es[l].priority;
  }

  lemma LeastIsUnique<T>(es: seq<Entry<T>>, k: nat, l: nat)
    requires IsLeast(es, k) && IsLeast(es, l)
    ensures k == l
  {
    assert es[k].priority == es[l].priority;
  }

  /** Searching the held entries is searching them and the newcomer. */
  lemma LeastOfAll<T>(es: seq<Entry<T>>, e: Entry<T>, k: int)
    requires k == -1 <==> forall i :: 0 <= i < |es| ==> es[i].priority > e.priority
    requires k != -1 ==> 0 <= k && IsLeast(es, k) && es[k].priority <= e.priority
    ensures LeastIndex(es + [e]) == if k == -1 then |es| else k
  {
    var l := if k == -1 then |es| else k;
    LeastIndexMeans(es + [e]);
    LeastWithNewcomer(es, e, k);
    LeastIsUnique(es + [e], l, LeastIndex(es + [e]));
  }

  lemma LeastWithNewcomer<T>(es: seq<Entry<T>>, e: Entry<T>, k: int)
    requires k == -1 ==> forall i :: 0 <= i < |es| ==> es[i].priority > e.priority
    requires k != -1 ==> 0 <= k && IsLeast(es, k) && es[k].priority <= e.priority
    ensures IsLeast(es + [e], if k == -1 then |es| else k)
  {
  }

  lemma FullQueueGivesWay<T>(es: seq<Entry<T>>, e: Entry<T>, capacity: nat, k: int)
    requires |es| == capacity
    requires k == -1 <==> forall i :: 0 <= i < |es| ==> es[i].priority > e.priority
    requires k != -1 ==> 0 <= k && IsLeast(es, k) && es[k].priority <= e.priority
    ensures Dropped(es, e, capacity) == Some(if k == -1 then e else es[k])
    ensures Offer(es, e, capacity) == if k == -1 then es else Without(es, k) + [e]
  {
    LeastOfAll(es, e, k);
    WithoutOfAppended(es, e, if k == -1 then |es| else k);
  }

  lemma EnqueuedWhenFull<T>(q: Queue<T>, item: T, priorityOf: T -> nat, capacity: nat, k: int)
    requires |q.entries| == capacity && Sound(q, priorityOf, capacity)
    requires k == -1 <==> forall i :: 0 <= i < |q.entries| ==> q.entries[i].priority > priorityOf(item)
    requires k != -1 ==> 0 <= k && IsLeast(q.entries, k) && q.entries[k].priority <= priorityOf(item)
    ensures var e := Entry(item, priorityOf(item), q.nextSeq);
      && Dropped(q.entries, e, capacity) == Some(if k == -1 then e else q.entries[k])
      && (k != -1 ==> q.entries[k].stamp != e.stamp)
      && Enqueued(q, item, priorityOf(item), capacity)
         == if k == -1 then q else Queue(Without(q.entries, k) + [e], q.nextSeq + 1)
  {
    FullQueueGivesWay(q.entries, Entry(item, priorityOf(item), q.nextSeq), capacity, k);
  }

  lemma WithoutOfAppended<T>(es: seq<Entry<T>>, e: Entry<T>, k: nat)
    requires k <= |es|
    ensures Without(es + [e], k) == if k == |es| then es else Without(es, k) + [e]
  {
  }
}
