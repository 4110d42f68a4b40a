/** The gateway's dedupe of events: one dispatch at a time for a (user, event) pair, and
    none again within the window of a success. */
module EventDedupe {
  import opened Prelude

  type Key = string

  function KeyOf(userId: string, eventId: string): Key {
    userId + " " + eventId
  }

  /** User ids have no blank in them, and then no two pairs share a key. */
  lemma KeysAreDistinct(u: string, e: string, v: string, f: string)
    requires ' ' !in u && ' ' !in v && KeyOf(u, e) == KeyOf(v, f)
    ensures u == v && e == f
  {
    var k := KeyOf(u, e);
    assert k[|u|] == ' ' && k[|v|] == ' ';
    assert forall i :: 0 <= i < |u| ==> k[i] == u[i];
    assert forall i :: 0 <= i < |v| ==> k[i] == v[i];
    assert |u| == |v|;
    assert u == KeyOf(u, e)[..|u|] && v == KeyOf(v, f)[..|v|];
    assert e == KeyOf(u, e)[|u| + 1..] && f == KeyOf(v, f)[|v| + 1..];
  }

  // ------------------------------------------------------------- the committed entries

  /** One entry of the insertion-ordered map. */
  datatype Entry = Entry(key: Key, expiresAt: int)

  function Keep(es: seq<Entry>, f: Entry -> bool): seq<Entry>
    decreases |es|
  {
    if es == [] then []
    else Keep(es[..|es| - 1], f) + (if f(es[|es| - 1]) then [es[|es| - 1]] else [])
  }

  function Deleted(es: seq<Entry>, key: Key): seq<Entry> {
    Keep(es, (e: Entry) => e.key != key)
  }

  function Unexpired(es: seq<Entry>, now: int): seq<Entry> {
    Keep(es, (e: Entry) => e.expiresAt > now)
  }

  function Relieved(es: seq<Entry>, now: int, maxSize: nat): seq<Entry> {
    if |es| > maxSize then Newest(Unexpired(es, now), maxSize) else es
  }

  function Committed(es: seq<Entry>, key: Key, now: int, ttlMs: int, maxSize: nat): seq<Entry> {
    Relieved(Deleted(es, key) + [Entry(key, now + ttlMs)], now, maxSize)
  }

  predicate HasKey(es: seq<Entry>, key: Key) {
    exists i :: 0 <= i < |es| && es[i].key == key
  }

  // --------------------------------------------------------------- the log of commits

  /** A success: which dispatch, and when it was committed. */
  datatype Commit = Commit(key: Key, at: int, run: nat)

  /** Where the key was committed last; -1 if nowhere. */
  function LastOf(log: seq<Commit>, key: Key): (c: int)
    ensures -1 <= c < |log| && (c >= 0 ==> log[c].key == key)
    decreases |log|
  {
    if log == [] then -1
    else if log[|log| - 1].key == key then |log| - 1
    else LastOf(log[..|log| - 1], key)
  }

  lemma LastOfAppended(log: seq<Commit>, x: Commit, key: Key)
    ensures LastOf(log + [x], key) == if x.key == key then |log| else LastOf(log, key)
  {
    assert (log + [x])[..|log|] == log;
  }

  /** The keys committed after the c-th commit. */
  function NewerKeys(log: seq<Commit>, c: int): set<Key> {
    set j | 0 <= j < |log| && c < j :: log[j].key
  }

  /** The c-th commit no longer forbids a dispatch: its window is over, or at least
      maxSize other pairs were committed since. */
  predicate LostTrack(log: seq<Commit>, c: int, now: int, ttlMs: int, maxSize: nat)
    requires 0 <= c < |log|
  {
    log[c].at + ttlMs <= now || |NewerKeys(log, c)| >= maxSize
  }

  /** The entry was left by the last commit of its key. */
  predicate Left(e: Entry, log: seq<Commit>, ttlMs: int) {
    var c := LastOf(log, e.key);
    c >= 0 && e.expiresAt == log[c].at + ttlMs
  }

  predicate Before(a: Entry, b: Entry, log: seq<Commit>) {
    LastOf(log, a.key) < LastOf(log, b.key)
  }

  /** Entries in the order of their keys' last commits, each with the expiry that commit
      gave it. */
  ghost predicate Follows(es: seq<Entry>, log: seq<Commit>, ttlMs: int) {
    && (forall e {:trigger Left(e, log, ttlMs)} :: e in es ==> Left(e, log, ttlMs))
    && (forall i, j :: 0 <= i < j < |es| ==> Before(es[i], es[j], log))
  }

  /** Nothing else is missing than what may be. */
  ghost predicate Complete(es: seq<Entry>, log: seq<Commit>, now: int, ttlMs: int, maxSize: nat) {
    forall key {:trigger HasKey(es, key)} ::
      LastOf(log, key) >= 0 && !HasKey(es, key) ==> LostTrack(log, LastOf(log, key), now, ttlMs, maxSize)
  }

  lemma {:induction false} KeepMeans(es: seq<Entry>, f: Entry -> bool, e: Entry)
    ensures e in Keep(es, f) <==> e in es && f(e)
    decreases |es|
  {
    if es != [] {
      KeepMeans(es[..|es| - 1], f, e);
      assert es == es[..|es| - 1] + [es[|es| - 1]];
    }
  }

  lemma {:induction false} KeepFollows(es: seq<Entry>, f: Entry -> bool, log: seq<Commit>, ttlMs: int)
    requires Follows(es, log, ttlMs)
    ensures Follows(Keep(es, f), log, ttlMs)
    decreases |es|
  {
    if es != [] {
      var n := |es| - 1;
      var r := Keep(es[..n], f);
      assert Left(es[n], log, ttlMs);
      KeepFollows(es[..n], f, log, ttlMs);
      forall i | 0 <= i < |r| ensures Before(r[i], es[n], log) {
        KeepMeans(es[..n], f, r[i]);
      }
      if f(es[n]) {
        AppendFollows(r, es[n], log, ttlMs);
      }
    }
  }

  lemma AppendFollows(es: seq<Entry>, e: Entry, log: seq<Commit>, ttlMs: int)
    requires Follows(es, log, ttlMs) && Left(e, log, ttlMs) && forall i :: 0 <= i < |es| ==> Before(es[i], e, log)
    ensures Follows(es + [e], log, ttlMs)
  {
  }

  lemma NewestFollows(es: seq<Entry>, n: nat, log: seq<Commit>, ttlMs: int)
    requires Follows(es, log, ttlMs)
    ensures Follows(Newest(es, n), log, ttlMs)
  {
  }

  /** A commit of another key is later than all there is. */
  lemma CommitFollows(es: seq<Entry>, log: seq<Commit>, x: Commit, ttlMs: int)
    requires Follows(es, log, ttlMs) && forall e :: e in es ==> e.key != x.key
    ensures Follows(es + [Entry(x.key, x.at + ttlMs)], log + [x], ttlMs)
  {
    forall e | e in es
      ensures LastOf(log + [x], e.key) == LastOf(log, e.key) && Left(e, log + [x], ttlMs)
    {
      assert Left(e, log, ttlMs);
      LastOfAppended(log, x, e.key);
    }
    LastOfAppended(log, x, x.key);
    AppendFollows(es, Entry(x.key, x.at + ttlMs), log + [x], ttlMs);
  }

  lemma DeletedMeans(es: seq<Entry>, key: Key)
    ensures forall e :: e in Deleted(es, key) <==> e in es && e.key != key
  {
    forall e ensures e in Deleted(es, key) <==> e in es && e.key != key {
      KeepMeans(es, (x: Entry) => x.key != key, e);
    }
  }

  lemma UnexpiredMeans(es: seq<Entry>, now: int)
    ensures forall e :: e in Unexpired(es, now) <==> e in es && e.expiresAt > now
  {
    forall e ensures e in Unexpired(es, now) <==> e in es && e.expiresAt > now {
      KeepMeans(es, (x: Entry) => x.expiresAt > now, e);
    }
  }

  /** Deleting the key and setting it again moves it to the end. */
  lemma DeletedFollows(es: seq<Entry>, log: seq<Commit>, x: Commit, ttlMs: int)
    requires Follows(es, log, ttlMs)
    ensures Follows(Deleted(es, x.key) + [Entry(x.key, x.at + ttlMs)], log + [x], ttlMs)
  {
    DeletedMeans(es, x.key);
    KeepFollows(es, (e: Entry) => e.key != x.key, log, ttlMs);
    CommitFollows(Deleted(es, x.key), log, x, ttlMs);
  }

  lemma CommittedFollows(es: seq<Entry>, log: seq<Commit>, x: Commit, ttlMs: int, maxSize: nat)
    requires Follows(es, log, ttlMs)
    ensures Follows(Committed(es, x.key, x.at, ttlMs, maxSize), log + [x], ttlMs)
    ensures |Committed(es, x.key, x.at, ttlMs, maxSize)| <= maxSize
  {
    var all := Deleted(es, x.key) + [Entry(x.key, x.at + ttlMs)];
    DeletedFollows(es, log, x, ttlMs);
    KeepFollows(all, (e: Entry) => e.expiresAt > x.at, log + [x], ttlMs);
    NewestFollows(Unexpired(all, x.at), maxSize, log + [x], ttlMs);
  }

  // -------------------------------------------------------- what is forgotten, and when

  /** Time and further commits only lose more. */
  lemma LostTrackPersists(log: seq<Commit>, x: Commit, c: int, now: int, later: int, ttlMs: int, maxSize: nat)
    requires 0 <= c < |log| && LostTrack(log, c, now, ttlMs, maxSize) && now <= later
    ensures LostTrack(log + [x], c, later, ttlMs, maxSize)
  {
    assert forall j :: 0 <= j < |log| ==> (log + [x])[j] == log[j];
    assert NewerKeys(log, c) <= NewerKeys(log + [x], c);
    SubsetIsNoLarger(NewerKeys(log, c), NewerKeys(log + [x], c));
  }

  function KeysFrom(es: seq<Entry>, i: nat): set<Key>
    requires i <= |es|
  {
    set j | i <= j < |es| :: es[j].key
  }

  /** The entries after the i-th are of that many keys, all committed later than its. */
  lemma {:induction false} LaterEntriesAreNewerKeys(es: seq<Entry>, log: seq<Commit>, ttlMs: int, c: int, i: nat)
    requires Follows(es, log, ttlMs) && i <= |es|
    requires forall j :: i <= j < |es| ==> c < LastOf(log, es[j].key)
    ensures |KeysFrom(es, i)| == |es| - i && KeysFrom(es, i) <= NewerKeys(log, c)
    decreases |es| - i
  {
    if i < |es| {
      LaterEntriesAreNewerKeys(es, log, ttlMs, c, i + 1);
      assert KeysFrom(es, i) == KeysFrom(es, i + 1) + {es[i].key};
      assert es[i].key !in KeysFrom(es, i + 1) by {
        assert forall j :: i < j < |es| ==> Before(es[i], es[j], log);
      }
      assert Left(es[i], log, ttlMs);
    }
  }

  /** An entry that a full map pushes out was followed by maxSize other pairs. */
  lemma PushedOutWasCrowdedOut(es: seq<Entry>, log: seq<Commit>, now: int, ttlMs: int, maxSize: nat, i: nat)
    requires Follows(es, log, ttlMs) && i < |es| - maxSize
    ensures Left(es[i], log, ttlMs) && LostTrack(log, LastOf(log, es[i].key), now, ttlMs, maxSize)
  {
    var c := LastOf(log, es[i].key);
    assert Left(es[i], log, ttlMs);
    assert forall j :: i < j < |es| ==> Before(es[i], es[j], log);
    LaterEntriesAreNewerKeys(es, log, ttlMs, c, i + 1);
    SubsetIsNoLarger(KeysFrom(es, i + 1), NewerKeys(log, c));
  }

  /** A commit forgets only what has expired and what maxSize newer pairs crowd out. */
  lemma CommittedComplete(es: seq<Entry>, log: seq<Commit>, x: Commit, clock: int, ttlMs: int, maxSize: nat)
    requires Follows(es, log, ttlMs) && Complete(es, log, clock, ttlMs, maxSize) && clock <= x.at
    ensures Complete(Committed(es, x.key, x.at, ttlMs, maxSize), log + [x], x.at, ttlMs, maxSize)
  {
    var r := Committed(es, x.key, x.at, ttlMs, maxSize);
    forall key | LastOf(log + [x], key) >= 0 && !HasKey(r, key)
      ensures LostTrack(log + [x], LastOf(log + [x], key), x.at, ttlMs, maxSize)
    {
      CommittedForgets(es, log, x, clock, ttlMs, maxSize, key);
    }
  }

  lemma CommittedForgets(es: seq<Entry>, log: seq<Commit>, x: Commit, clock: int, ttlMs: int, maxSize: nat, key: Key)
    requires Follows(es, log, ttlMs) && Complete(es, log, clock, ttlMs, maxSize) && clock <= x.at
    requires LastOf(log + [x], key) >= 0 && !HasKey(Committed(es, x.key, x.at, ttlMs, maxSize), key)
    ensures LostTrack(log + [x], LastOf(log + [x], key), x.at, ttlMs, maxSize)
  {
    var kept := Deleted(es, x.key);
    DeletedFollows(es, log, x, ttlMs);
    var all := kept + [Entry(x.key, x.at + ttlMs)];
    assert all[|kept|].key == x.key;
    if HasKey(all, key) {
      var i :| 0 <= i < |all| && all[i].key == key;
      RelievedForgets(all, log + [x], x.at, ttlMs, maxSize, i);
    } else {
      assert forall i :: 0 <= i < |kept| ==> all[i] == kept[i];
      WasForgotten(es, log, x, clock, ttlMs, maxSize, key);
    }
  }

  lemma WasForgotten(es: seq<Entry>, log: seq<Commit>, x: Commit, clock: int, ttlMs: int, maxSize: nat, key: Key)
    requires Complete(es, log, clock, ttlMs, maxSize) && clock <= x.at
    requires key != x.key && LastOf(log + [x], key) >= 0 && !HasKey(Deleted(es, x.key), key)
    ensures LostTrack(log + [x], LastOf(log + [x], key), x.at, ttlMs, maxSize)
  {
    LastOfAppended(log, x, key);
    OthersAreKept(es, x.key, key);
    LostTrackPersists(log, x, LastOf(log, key), clock, x.at, ttlMs, maxSize);
  }

  lemma OthersAreKept(es: seq<Entry>, deleted: Key, key: Key)
    requires key != deleted
    ensures HasKey(es, key) ==> HasKey(Deleted(es, deleted), key)
  {
    DeletedMeans(es, deleted);
    if i :| 0 <= i < |es| && es[i].key == key {
      assert es[i] in Deleted(es, deleted);
    }
  }

  lemma NewestAreKept(es: seq<Entry>, n: nat, j: nat)
    requires j < |es|
    ensures j >= |es| - n ==> HasKey(Newest(es, n), es[j].key)
  {
    if j >= |es| - n {
      assert Newest(es, n)[if |es| <= n then j else j - (|es| - n)] == es[j];
    }
  }

  lemma RelievedForgets(all: seq<Entry>, log: seq<Commit>, now: int, ttlMs: int, maxSize: nat, i: nat)
    requires Follows(all, log, ttlMs) && i < |all| && !HasKey(Relieved(all, now, maxSize), all[i].key)
    ensures Left(all[i], log, ttlMs) && LostTrack(log, LastOf(log, all[i].key), now, ttlMs, maxSize)
  {
    var live := Unexpired(all, now);
    UnexpiredMeans(all, now);
    KeepFollows(all, (e: Entry) => e.expiresAt > now, log, ttlMs);
    assert Left(all[i], log, ttlMs);
    if all[i].expiresAt > now {
      var j :| 0 <= j < |live| && live[j] == all[i];
      NewestAreKept(live, maxSize, j);
      assert |all| > maxSize && j < |live| - maxSize;
      PushedOutWasCrowdedOut(live, log, now, ttlMs, maxSize, j);
    }
  }

  // ------------------------------------------------------------------- the dispatches

  datatype Status = Flying | Landed | Crashed

  /** One dispatch: of which pair, when it started, and how many commits there were. */
  datatype Run = Run(key: Key, startedAt: int, commits: nat, status: Status)

  /** What a caller of dispatchOnce is told: false, true, or the dispatch's error. */
  datatype Verdict = Pending | Dispatched | Duplicate | Failed

  /** A caller that awaits a dispatch, its own or another's. */
  datatype Caller = Caller(run: nat, owner: bool, verdict: Verdict)

  datatype State = State(
    committed: seq<Entry>,
    inFlight: map<Key, nat>,
    runs: seq<Run>,
    callers: seq<Caller>,
    log: seq<Commit>,
    clock: int)

  datatype Limits = Limits(ttlMs: int, maxSize: nat)

  const INITIAL := State([], map[], [], [], [], 0)

  predicate IsLive(es: seq<Entry>, key: Key, now: int) {
    exists i :: 0 <= i < |es| && es[i].key == key && es[i].expiresAt > now
  }

  /** A call of dispatchOnce, up to its await. */
  function Arrives(s: State, key: Key): State {
    if IsLive(s.committed, key, s.clock) then s
    else if key in s.inFlight then s.(callers := s.callers + [Caller(s.inFlight[key], false, Pending)])
    else s.(runs := s.runs + [Run(key, s.clock, |s.log|, Flying)],
            inFlight := s.inFlight[key := |s.runs|],
            callers := s.callers + [Caller(|s.runs|, true, Pending)])
  }

  function Settles(s: State, run: nat, ok: bool): State {
    if run < |s.runs| && s.runs[run].status == Flying
    then s.(runs := s.runs[run := s.runs[run].(status := if ok then Landed else Crashed)])
    else s
  }

  predicate CanResume(s: State, caller: nat) {
    && caller < |s.callers| && s.callers[caller].verdict == Pending
    && s.callers[caller].run < |s.runs| && s.runs[s.callers[caller].run].status != Flying
  }

  /** The rest of dispatchOnce, after its await. */
  function Resumes(s: State, caller: nat, l: Limits): State {
    if !CanResume(s, caller) then s
    else
      var c := s.callers[caller];
      var run := s.runs[c.run];
      var verdict := if run.status == Crashed then Failed else if c.owner then Dispatched else Duplicate;
      var told := s.(callers := s.callers[caller := c.(verdict := verdict)]);
      if !c.owner then told
      else
        var freed := told.(inFlight := s.inFlight - {run.key});
        if run.status == Crashed then freed
        else freed.(committed := Committed(s.committed, run.key, s.clock, l.ttlMs, l.maxSize),
                    log := s.log + [Commit(run.key, s.clock, c.run)])
  }

  datatype Event =
    | Arrival(key: Key)
    | Settlement(run: nat, ok: bool)
    | Resumption(caller: nat)
    | TimePasses(elapsed: nat)

  function Step(s: State, e: Event, l: Limits): State {
    match e
    case Arrival(key) => Arrives(s, key)
    case Settlement(run, ok) => Settles(s, run, ok)
    case Resumption(caller) => Resumes(s, caller, l)
    case TimePasses(elapsed) => s.(clock := s.clock + elapsed)
  }

  function After(events: seq<Event>, l: Limits): State
    decreases |events|
  {
    if events == [] then INITIAL else Step(After(events[..|events| - 1], l), events[|events| - 1], l)
  }

  // ---------------------------------------------------------------------- invariants

  ghost predicate Remembers(s: State, l: Limits) {
    Follows(s.committed, s.log, l.ttlMs) && Complete(s.committed, s.log, s.clock, l.ttlMs, l.maxSize)
  }

  /** A dispatch that has not been settled, or whose owner has yet to resume, is the one
      in flight for its key. */
  ghost predicate SingleFlight(s: State) {
    && (forall key :: key in s.inFlight ==> s.inFlight[key] < |s.runs| && s.runs[s.inFlight[key]].key == key)
    && (forall r :: 0 <= r < |s.runs| && s.runs[r].status == Flying ==> InFlight(s, r))
    && (forall c :: 0 <= c < |s.callers| ==> s.callers[c].run < |s.runs|)
    && (forall c :: 0 <= c < |s.callers| && s.callers[c].owner && s.callers[c].verdict == Pending ==>
          InFlight(s, s.callers[c].run))
    && (forall c, d :: 0 <= c < d < |s.callers| && s.callers[c].owner && s.callers[d].owner ==>
          s.callers[c].run != s.callers[d].run)
  }

  predicate InFlight(s: State, r: nat) {
    r < |s.runs| && s.runs[r].key in s.inFlight && s.inFlight[s.runs[r].key] == r
  }

  predicate Told(c: Caller, status: Status) {
    match c.verdict
    case Pending => true
    case Dispatched => c.owner && status == Landed
    case Duplicate => !c.owner && status == Landed
    case Failed => status == Crashed
  }

  ghost predicate VerdictsAgree(s: State) {
    forall c :: 0 <= c < |s.callers| ==>
      s.callers[c].run < |s.runs| && Told(s.callers[c], s.runs[s.callers[c].run].status)
  }

  ghost predicate OnlySuccessesCommitted(s: State) {
    forall i :: 0 <= i < |s.log| ==>
      s.log[i].run < |s.runs| && s.runs[s.log[i].run].status == Landed && s.runs[s.log[i].run].key == s.log[i].key
  }

  /** The dispatch started when nothing remembered forbade it. */
  predicate OutsideWindow(r: Run, log: seq<Commit>, l: Limits) {
    && r.commits <= |log|
    && var then' := log[..r.commits];
       var c := LastOf(then', r.key);
       c >= 0 ==> LostTrack(then', c, r.startedAt, l.ttlMs, l.maxSize)
  }

  ghost predicate WindowsKept(s: State, l: Limits) {
    forall r {:trigger OutsideWindow(s.runs[r], s.log, l)} ::
      0 <= r < |s.runs| ==> OutsideWindow(s.runs[r], s.log, l)
  }

  ghost predicate InOrder(s: State) {
    && (forall i :: 0 <= i < |s.log| ==> s.log[i].at <= s.clock)
    && (forall i, j :: 0 <= i < j < |s.log| ==> s.log[i].at <= s.log[j].at)
  }

  ghost predicate Inv(s: State, l: Limits) {
    InOrder(s) && Remembers(s, l) && SingleFlight(s) && VerdictsAgree(s) && OnlySuccessesCommitted(s) && WindowsKept(s, l)
  }

  /** A key that is not live was not committed within the window, or was crowded out. */
  lemma NotLiveMeansLost(s: State, key: Key, l: Limits)
    requires Remembers(s, l) && !IsLive(s.committed, key, s.clock)
    ensures LastOf(s.log, key) >= 0 ==> LostTrack(s.log, LastOf(s.log, key), s.clock, l.ttlMs, l.maxSize)
  {
    if LastOf(s.log, key) >= 0 && HasKey(s.committed, key) {
      var i :| 0 <= i < |s.committed| && s.committed[i].key == key;
      assert Left(s.committed[i], s.log, l.ttlMs);
    }
  }

  lemma ArrivesKeepsInv(s: State, key: Key, l: Limits)
    requires Inv(s, l)
    ensures Inv(Arrives(s, key), l)
  {
    if !IsLive(s.committed, key, s.clock) {
      NotLiveMeansLost(s, key, l);
      assert s.log[..|s.log|] == s.log;
      ArrivesKeepsSingleFlight(s, key);
    }
  }

  lemma ArrivesKeepsSingleFlight(s: State, key: Key)
    requires SingleFlight(s)
    ensures SingleFlight(Arrives(s, key))
  {
    if !IsLive(s.committed, key, s.clock) && key !in s.inFlight {
      StartKeepsSingleFlight(s, key);
    }
  }

  lemma StartKeepsSingleFlight(s: State, key: Key)
    requires SingleFlight(s) && !IsLive(s.committed, key, s.clock) && key !in s.inFlight
    ensures SingleFlight(Arrives(s, key))
  {
    var t := Arrives(s, key);
    forall r | 0 <= r < |s.runs| && InFlight(s, r) ensures InFlight(t, r) {
    }
    assert InFlight(t, |s.runs|);
  }

  lemma SettlesKeepsInv(s: State, run: nat, ok: bool, l: Limits)
    requires Inv(s, l)
    ensures Inv(Settles(s, run, ok), l)
  {
    SettlesKeepsSingleFlight(s, run, ok);
    SettlesKeepsRecords(s, run, ok, l);
  }

  lemma SettlesKeepsSingleFlight(s: State, run: nat, ok: bool)
    requires SingleFlight(s)
    ensures SingleFlight(Settles(s, run, ok))
  {
    var t := Settles(s, run, ok);
    assert |t.runs| == |s.runs| && forall r :: 0 <= r < |s.runs| ==> t.runs[r].key == s.runs[r].key;
    forall r | 0 <= r < |t.runs| ensures InFlight(t, r) <==> InFlight(s, r) {
    }
  }

  lemma SettlesKeepsRecords(s: State, run: nat, ok: bool, l: Limits)
    requires VerdictsAgree(s) && OnlySuccessesCommitted(s) && WindowsKept(s, l)
    ensures var t := Settles(s, run, ok); VerdictsAgree(t) && OnlySuccessesCommitted(t) && WindowsKept(t, l)
  {
    var t := Settles(s, run, ok);
    forall r | 0 <= r < |t.runs| ensures OutsideWindow(t.runs[r], t.log, l) {
      assert OutsideWindow(s.runs[r], s.log, l);
    }
  }

  lemma ResumesKeepsInv(s: State, caller: nat, l: Limits)
    requires Inv(s, l)
    ensures Inv(Resumes(s, caller, l), l)
  {
    if CanResume(s, caller) {
      ResumesKeepsSingleFlight(s, caller, l);
      ResumesKeepsVerdicts(s, caller, l);
      ResumesKeepsMemory(s, caller, l);
    }
  }

  lemma ResumesKeepsVerdicts(s: State, caller: nat, l: Limits)
    requires CanResume(s, caller) && VerdictsAgree(s) && OnlySuccessesCommitted(s) && InOrder(s)
    ensures var t := Resumes(s, caller, l); VerdictsAgree(t) && OnlySuccessesCommitted(t) && InOrder(t)
  {
  }

  lemma ResumesKeepsMemory(s: State, caller: nat, l: Limits)
    requires CanResume(s, caller) && Remembers(s, l) && WindowsKept(s, l)
    ensures var t := Resumes(s, caller, l); Remembers(t, l) && WindowsKept(t, l)
  {
    var c := s.callers[caller];
    if c.owner && s.runs[c.run].status == Landed {
      var x := Commit(s.runs[c.run].key, s.clock, c.run);
      CommittedFollows(s.committed, s.log, x, l.ttlMs, l.maxSize);
      CommittedComplete(s.committed, s.log, x, s.clock, l.ttlMs, l.maxSize);
      WindowsSurviveCommit(s, x, l);
    }
  }

  lemma WindowsSurviveCommit(s: State, x: Commit, l: Limits)
    requires WindowsKept(s, l)
    ensures WindowsKept(s.(log := s.log + [x]), l)
  {
    forall r | 0 <= r < |s.runs| ensures OutsideWindow(s.runs[r], s.log + [x], l) {
      assert OutsideWindow(s.runs[r], s.log, l);
      assert (s.log + [x])[..s.runs[r].commits] == s.log[..s.runs[r].commits];
    }
  }

  lemma ResumesKeepsSingleFlight(s: State, caller: nat, l: Limits)
    requires SingleFlight(s) && CanResume(s, caller)
    ensures SingleFlight(Resumes(s, caller, l))
  {
    var t := Resumes(s, caller, l);
    forall c | 0 <= c < |t.callers| && t.callers[c].owner && t.callers[c].verdict == Pending
      ensures InFlight(t, t.callers[c].run)
    {
      assert InFlight(s, s.callers[c].run);
    }
  }

  lemma TimeKeepsInv(s: State, elapsed: nat, l: Limits)
    requires Inv(s, l)
    ensures Inv(s.(clock := s.clock + elapsed), l)
  {
    CompleteLater(s.committed, s.log, s.clock, s.clock + elapsed, l);
    SameRunsSameWindows(s, s.(clock := s.clock + elapsed), l);
  }

  lemma SameRunsSameWindows(s: State, t: State, l: Limits)
    requires WindowsKept(s, l) && t.runs == s.runs && t.log == s.log
    ensures WindowsKept(t, l)
  {
  }

  lemma CompleteLater(es: seq<Entry>, log: seq<Commit>, now: int, later: int, l: Limits)
    requires Complete(es, log, now, l.ttlMs, l.maxSize) && now <= later
    ensures Complete(es, log, later, l.ttlMs, l.maxSize)
  {
    forall key | LastOf(log, key) >= 0 && !HasKey(es, key)
      ensures LostTrack(log, LastOf(log, key), later, l.ttlMs, l.maxSize)
    {
      assert LostTrack(log, LastOf(log, key), now, l.ttlMs, l.maxSize);
    }
  }

  lemma AwaitedKeepsInv(s: State, e: Event, l: Limits)
    requires Inv(s, l) && (e.Settlement? || e.Resumption?)
    ensures Inv(Step(s, e, l), l)
  {
    match e {
      case Settlement(run, ok) => SettlesKeepsInv(s, run, ok, l);
      case Resumption(caller) => ResumesKeepsInv(s, caller, l);
    }
  }

  lemma StepKeepsInv(s: State, e: Event, l: Limits)
    requires Inv(s, l)
    ensures Inv(Step(s, e, l), l)
  {
    match e {
      case Arrival(key) => ArrivesKeepsInv(s, key, l);
      case TimePasses(elapsed) => TimeKeepsInv(s, elapsed, l);
      case _ => AwaitedKeepsInv(s, e, l);
    }
  }

  lemma {:induction false} EveryRunKeepsInv(events: seq<Event>, l: Limits)
    ensures Inv(After(events, l), l)
    decreases |events|
  {
    if events != [] {
      EveryRunKeepsInv(events[..|events| - 1], l);
      StepKeepsInv(After(events[..|events| - 1], l), events[|events| - 1], l);
    }
  }

  // ------------------------------------------------------------------------ theorems

  /** Two dispatches of one pair never overlap. */
  lemma DispatchesOfAPairNeverOverlap(events: seq<Event>, l: Limits, a: nat, b: nat)
    requires var s := After(events, l);
      && a < |s.runs| && b < |s.runs| && s.runs[a].key == s.runs[b].key
      && s.runs[a].status == Flying && s.runs[b].status == Flying
    ensures a == b
  {
    EveryRunKeepsInv(events, l);
    var s := After(events, l);
    assert InFlight(s, a) && InFlight(s, b);
  }

  /** And none starts while one is unsettled, or settled and not yet put away. */
  lemma NoneStartsBesideAnother(events: seq<Event>, l: Limits, key: Key, r: nat)
    requires var s := After(events, l); r < |s.runs| && s.runs[r].key == key && s.runs[r].status == Flying
    ensures var s := After(events, l); Arrives(s, key).runs == s.runs
  {
    EveryRunKeepsInv(events, l);
    assert InFlight(After(events, l), r);
  }

  /** After a success committed at t no dispatch of the pair starts before t + ttl, unless
      at least maxSize other pairs were committed in between. */
  lemma NoDispatchWithinTheWindow(events: seq<Event>, l: Limits, r: nat, c: nat)
    requires var s := After(events, l);
      && r < |s.runs| && c < s.runs[r].commits <= |s.log| && s.log[c].key == s.runs[r].key
    ensures var s := After(events, l);
      || s.log[c].at + l.ttlMs <= s.runs[r].startedAt
      || |NewerKeys(s.log[..s.runs[r].commits], c) - {s.runs[r].key}| >= l.maxSize
  {
    EveryRunKeepsInv(events, l);
    StartedOutsideWindow(After(events, l), l, r, c);
  }

  lemma StartedOutsideWindow(s: State, l: Limits, r: nat, c: nat)
    requires r < |s.runs| && c < s.runs[r].commits <= |s.log| && s.log[c].key == s.runs[r].key
    requires InOrder(s) && OutsideWindow(s.runs[r], s.log, l)
    ensures
      || s.log[c].at + l.ttlMs <= s.runs[r].startedAt
      || |NewerKeys(s.log[..s.runs[r].commits], c) - {s.runs[r].key}| >= l.maxSize
  {
    var then', key := s.log[..s.runs[r].commits], s.runs[r].key;
    LastIsLast(then', key, c);
    var d := LastOf(then', key);
    assert then'[d] == s.log[d] && s.log[c].at <= s.log[d].at;
    NewerThanTheLast(then', key, c);
    SubsetIsNoLarger(NewerKeys(then', d), NewerKeys(then', c) - {key});
  }

  lemma NewerThanTheLast(log: seq<Commit>, key: Key, c: nat)
    requires c <= LastOf(log, key)
    ensures NewerKeys(log, LastOf(log, key)) <= NewerKeys(log, c) - {key}
  {
    forall j | LastOf(log, key) < j < |log| ensures log[j].key != key {
      if log[j].key == key {
        LastIsLast(log, key, j);
      }
    }
  }

  lemma {:induction false} LastIsLast(log: seq<Commit>, key: Key, c: nat)
    requires c < |log| && log[c].key == key
    ensures c <= LastOf(log, key)
    decreases |log|
  {
    if log[|log| - 1].key != key {
      LastIsLast(log[..|log| - 1], key, c);
    }
  }

  /** The owner and everybody who waited with it share one fate, and a failure leaves
      nothing behind. */
  lemma OneFateForAll(events: seq<Event>, l: Limits, a: nat, b: nat)
    requires var s := After(events, l);
      && a < |s.callers| && b < |s.callers| && s.callers[a].run == s.callers[b].run
      && s.callers[a].verdict != Pending && s.callers[b].verdict != Pending
    ensures var s := After(events, l);
      && (s.callers[a].verdict == Failed <==> s.callers[b].verdict == Failed)
      && (s.callers[a].verdict == Dispatched && s.callers[b].verdict == Dispatched ==> a == b)
      && (s.callers[a].verdict == Failed ==> forall i :: 0 <= i < |s.log| ==> s.log[i].run != s.callers[a].run)
  {
    EveryRunKeepsInv(events, l);
    var s := After(events, l);
    assert Told(s.callers[a], s.runs[s.callers[a].run].status);
    assert Told(s.callers[b], s.runs[s.callers[b].run].status);
  }

  // ------------------------------------------------------------------------ the class

  /** A dispatch as the map of those in flight knows it. */
  datatype Promise = Promise(key: Key, status: Status)

  class EventDedupe {
    const limits: Limits
    var committed: seq<Entry>
    var inFlight: map<Key, nat>
    var promises: seq<Promise>
    var callers: seq<Caller>
    ghost var runs: seq<Run>
    ghost var log: seq<Commit>
    ghost var clock: int

    ghost function View(): State
      reads this
    {
      State(committed, inFlight, runs, callers, log, clock)
    }

    ghost predicate Linked()
      reads this
    {
      |promises| == |runs| && forall r :: 0 <= r < |runs| ==> promises[r] == Promise(runs[r].key, runs[r].status)
    }

    ghost predicate Valid()
      reads this
    {
      Linked() && Inv(View(), limits)
    }

    constructor (ttlMs: int, maxSize: nat)
      ensures Valid() && View() == INITIAL && limits == Limits(ttlMs, maxSize)
    {
      limits := Limits(ttlMs, maxSize);
      committed, inFlight, promises, callers, runs, log, clock := [], map[], [], [], [], [], 0;
    }

    /** Whether the key has a committed entry still in force. */
    method Live(key: Key, now: int) returns (live: bool)
      ensures live <==> IsLive(committed, key, now)
    {
      for i := 0 to |committed|
        invariant forall j :: 0 <= j < i ==> !(committed[j].key == key && committed[j].expiresAt > now)
      {
        if committed[i].key == key && committed[i].expiresAt > now {
          return true;
        }
      }
      return false;
    }

    /** `dispatchOnce` up to its await; true when it answers at once. */
    method DispatchOnce(userId: string, eventId: string, now: int) returns (duplicate: bool)
      requires Valid() && now == clock
      modifies this
      ensures Valid() && View() == Arrives(old(View()), KeyOf(userId, eventId))
      ensures duplicate <==> IsLive(old(committed), KeyOf(userId, eventId), now)
    {
      var key := KeyOf(userId, eventId);
      ArrivesKeepsInv(View(), key, limits);
      duplicate := Live(key, now);
      if !duplicate {
        Attach(key, now);
      }
    }

    /** Wait for the dispatch in flight, or start one and own it. */
    method Attach(key: Key, now: int)
      requires Linked() && now == clock && !IsLive(committed, key, now)
      modifies this
      ensures Linked() && View() == Arrives(old(View()), key)
    {
      if key in inFlight {
        callers := callers + [Caller(inFlight[key], false, Pending)];
        return;
      }
      inFlight := inFlight[key := |promises|];
      callers := callers + [Caller(|promises|, true, Pending)];
      promises := promises + [Promise(key, Flying)];
      runs := runs + [Run(key, now, |log|, Flying)];
    }

    method OnSettled(run: nat, ok: bool)
      requires Valid() && run < |promises| && promises[run].status == Flying
      modifies this
      ensures Valid() && View() == Settles(old(View()), run, ok)
    {
      SettlesKeepsInv(View(), run, ok, limits);
      var status := if ok then Landed else Crashed;
      promises := promises[run := promises[run].(status := status)];
      runs := runs[run := runs[run].(status := status)];
    }

    /** The rest of `dispatchOnce`: what the caller is told. */
    method OnResumed(caller: nat, now: int) returns (verdict: Verdict)
      requires Valid() && now == clock && CanResume(View(), caller)
      modifies this
      ensures Valid() && View() == Resumes(old(View()), caller, limits)
      ensures callers[caller].verdict == verdict
    {
      ResumesKeepsInv(View(), caller, limits);
      var c := callers[caller];
      var run := promises[c.run];
      verdict := if run.status == Crashed then Failed else if c.owner then Dispatched else Duplicate;
      callers := callers[caller := c.(verdict := verdict)];
      if c.owner {
        inFlight := inFlight - {run.key};
        if run.status == Landed {
          CommitKey(run.key, now);
          log := log + [Commit(run.key, now, c.run)];
        }
      }
    }

    method CommitKey(key: Key, now: int)
      modifies this`committed
      ensures committed == Committed(old(committed), key, now, limits.ttlMs, limits.maxSize)
    {
      committed := Deleted(committed, key);
      committed := committed + [Entry(key, now + limits.ttlMs)];
      if |committed| > limits.maxSize {
        EvictExpired(now);
      }
      EvictOldest();
    }

    /** The oldest entries go while there are more than the map may hold. */
    method EvictOldest()
      modifies this`committed
      ensures committed == Newest(old(committed), limits.maxSize)
    {
      ghost var rest := committed;
      while |committed| > limits.maxSize
        invariant |committed| <= |rest| && committed == rest[|rest| - |committed|..]
        invariant |committed| >= limits.maxSize || committed == rest
      {
        committed := committed[1..];
      }
    }

    method EvictExpired(now: int)
      modifies this`committed
      ensures committed == Unexpired(old(committed), now)
    {
      var all := committed;
      var kept: seq<Entry> := [];
      for i := 0 to |all|
        invariant kept == Unexpired(all[..i], now) && committed == kept + all[i..]
      {
        assert all[..i + 1][..i] == all[..i];
        if all[i].expiresAt > now {
          kept := kept + [all[i]];
        } else {
          committed := kept + all[i + 1..];
        }
      }
      assert all[..|all|] == all;
    }

    ghost method TimePassing(elapsed: nat)
      requires Valid()
      modifies this`clock
      ensures Valid() && clock == old(clock) + elapsed
    {
      ghost var s := View();
      TimeKeepsInv(s, elapsed, limits);
      clock := clock + elapsed;
      assert View() == s.(clock := s.clock + elapsed);
    }
  }
}
