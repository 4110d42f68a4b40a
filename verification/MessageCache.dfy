/** The plugin's cache of message texts: which text may surface as a summary, and which
    records are kept. Maps are in insertion order. */
module MessageCache {
  import opened Prelude

  datatype Role = User | Assistant

  datatype Rec = Rec(messageId: string, role: Option<Role>, text: Option<string>)

  datatype Session = Session(sessionId: string, records: seq<Rec>)

  datatype Bounds = Bounds(maxMessages: nat, maxTextLength: nat, maxSessions: nat)

  predicate Positive(b: Bounds) {
    b.maxMessages > 0 && b.maxTextLength > 0 && b.maxSessions > 0
  }

  datatype Event =
    | RoleKnown(sessionId: string, messageId: string, role: Role)
    | TextArrived(sessionId: string, messageId: string, text: string)
    | ClearSession(sessionId: string)
    | Clear

  type History = seq<Event>

  // -------------------------------------------------------------------- the records

  function Find(rs: seq<Rec>, messageId: string): Rec
    decreases |rs|
  {
    if rs == [] then Rec(messageId, None, None)
    else if rs[|rs| - 1].messageId == messageId then rs[|rs| - 1]
    else Find(rs[..|rs| - 1], messageId)
  }

  function Without(rs: seq<Rec>, messageId: string): seq<Rec>
    decreases |rs|
  {
    if rs == [] then []
    else Without(rs[..|rs| - 1], messageId) + (if rs[|rs| - 1].messageId == messageId then [] else [rs[|rs| - 1]])
  }

  /** The message's record becomes `r`, the most recently active; the least recently
      active go beyond the cap. */
  function Touched(rs: seq<Rec>, r: Rec, b: Bounds): seq<Rec> {
    Newest(Without(rs, r.messageId) + [r], b.maxMessages)
  }

  function WithRole(r: Rec, role: Role): Rec {
    Rec(r.messageId, Some(role), if role == User then None else r.text)
  }

  function WithText(r: Rec, text: string, b: Bounds): Rec {
    if r.role == Some(User) then r else r.(text := Some(Truncate(text, b.maxTextLength)))
  }

  /** The event's effect on the records of its session. */
  function Recorded(rs: seq<Rec>, e: Event, b: Bounds): seq<Rec>
    requires e.RoleKnown? || e.TextArrived?
  {
    match e
    case RoleKnown(_, m, role) => Touched(rs, WithRole(Find(rs, m), role), b)
    case TextArrived(_, m, text) => Touched(rs, WithText(Find(rs, m), text, b), b)
  }

  // ------------------------------------------------------------------- the sessions

  predicate Has(ss: seq<Session>, id: string) {
    exists i :: 0 <= i < |ss| && ss[i].sessionId == id
  }

  function Index(ss: seq<Session>, id: string): (i: nat)
    requires Has(ss, id)
    ensures i < |ss| && ss[i].sessionId == id
    decreases |ss|
  {
    if ss[|ss| - 1].sessionId == id then |ss| - 1 else Index(ss[..|ss| - 1], id)
  }

  function Deleted(ss: seq<Session>, id: string): seq<Session>
    decreases |ss|
  {
    if ss == [] then []
    else Deleted(ss[..|ss| - 1], id) + (if ss[|ss| - 1].sessionId == id then [] else [ss[|ss| - 1]])
  }

  /** A session that is not there is added, the oldest beyond the cap dropped. */
  function WithSession(ss: seq<Session>, id: string, b: Bounds): seq<Session> {
    if Has(ss, id) then ss else Newest(ss + [Session(id, [])], b.maxSessions)
  }

  lemma WithSessionHas(ss: seq<Session>, id: string, b: Bounds)
    requires Positive(b)
    ensures Has(WithSession(ss, id, b), id)
  {
    if !Has(ss, id) {
      var r := WithSession(ss, id, b);
      assert r[|r| - 1].sessionId == id;
    }
  }

  function Step(ss: seq<Session>, e: Event, b: Bounds): seq<Session>
    requires Positive(b)
  {
    match e
    case ClearSession(id) => Deleted(ss, id)
    case Clear => []
    case _ =>
      WithSessionHas(ss, e.sessionId, b);
      var rs := WithSession(ss, e.sessionId, b);
      var i := Index(rs, e.sessionId);
      rs[i := Session(e.sessionId, Recorded(rs[i].records, e, b))]
  }

  function After(h: History, b: Bounds): seq<Session>
    requires Positive(b)
    decreases |h|
  {
    if h == [] then [] else Step(After(h[..|h| - 1], b), h[|h| - 1], b)
  }

  // ------------------------------------------------------------------- the summary

  /** What counts as blank is left open. */
  predicate Eligible(r: Rec, blank: string -> bool) {
    r.role == Some(Assistant) && r.text.Some? && !blank(r.text.value)
  }

  /** The text of the most recently active eligible record. */
  function SummaryOf(rs: seq<Rec>, blank: string -> bool): Option<string>
    decreases |rs|
  {
    if rs == [] then None
    else if Eligible(rs[|rs| - 1], blank) then rs[|rs| - 1].text
    else SummaryOf(rs[..|rs| - 1], blank)
  }

  lemma {:induction false} SummaryIsLatestEligible(rs: seq<Rec>, blank: string -> bool)
    ensures match SummaryOf(rs, blank)
      case None => forall i :: 0 <= i < |rs| ==> !Eligible(rs[i], blank)
      case Some(t) => exists i :: 0 <= i < |rs| && Eligible(rs[i], blank) && rs[i].text == Some(t)
                                  && forall j :: i < j < |rs| ==> !Eligible(rs[j], blank)
    decreases |rs|
  {
    if rs != [] {
      SummaryIsLatestEligible(rs[..|rs| - 1], blank);
      var n := |rs| - 1;
      if !Eligible(rs[n], blank) && SummaryOf(rs[..n], blank).Some? {
        var i :| 0 <= i < n && Eligible(rs[..n][i], blank) && rs[..n][i].text == SummaryOf(rs, blank)
                 && forall j :: i < j < n ==> !Eligible(rs[..n][j], blank);
        assert rs[i] == rs[..n][i] && forall j :: i < j < n ==> rs[j] == rs[..n][j];
      }
    }
  }

  // ------------------------------------------------------------ where a text comes from

  predicate About(e: Event, id: string, m: string) {
    (e.RoleKnown? || e.TextArrived?) && e.sessionId == id && e.messageId == m
  }

  /** Where the message's latest text is in the history; -1 if nowhere. */
  function LastText(h: History, id: string, m: string): (i: int)
    ensures -1 <= i < |h| && (i >= 0 ==> h[i].TextArrived? && About(h[i], id, m))
    decreases |h|
  {
    if h == [] then -1
    else if h[|h| - 1].TextArrived? && About(h[|h| - 1], id, m) then |h| - 1
    else LastText(h[..|h| - 1], id, m)
  }

  function LastUser(h: History, id: string, m: string): (i: int)
    ensures -1 <= i < |h|
    decreases |h|
  {
    if h == [] then -1
    else if h[|h| - 1] == RoleKnown(id, m, User) then |h| - 1
    else LastUser(h[..|h| - 1], id, m)
  }

  function LastRole(h: History, id: string, m: string): Option<Role>
    decreases |h|
  {
    if h == [] then None
    else if h[|h| - 1].RoleKnown? && About(h[|h| - 1], id, m) then Some(h[|h| - 1].role)
    else LastRole(h[..|h| - 1], id, m)
  }

  lemma {:induction false} LastUserMeans(h: History, id: string, m: string)
    ensures var u := LastUser(h, id, m);
      && (u >= 0 ==> h[u] == RoleKnown(id, m, User))
      && forall j :: u < j < |h| ==> h[j] != RoleKnown(id, m, User)
    decreases |h|
  {
    if h != [] {
      LastUserMeans(h[..|h| - 1], id, m);
    }
  }

  /** The record's role is the message's latest, its text the latest delivered, and
      delivered since the message was last said to be the user's. */
  predicate Sound(h: History, id: string, r: Rec, b: Bounds) {
    && (r.role.Some? ==> LastRole(h, id, r.messageId) == r.role)
    && (r.role == Some(User) ==> r.text.None?)
    && (r.text.Some? ==>
          var i := LastText(h, id, r.messageId);
          i > LastUser(h, id, r.messageId) && h[i].TextArrived? && r.text == Some(Truncate(h[i].text, b.maxTextLength)))
  }

  ghost predicate AllSound(h: History, id: string, rs: seq<Rec>, b: Bounds) {
    forall r :: r in rs ==> Sound(h, id, r, b)
  }

  lemma {:induction false} WithoutMeans(rs: seq<Rec>, m: string, r: Rec)
    ensures r in Without(rs, m) <==> r in rs && r.messageId != m
    decreases |rs|
  {
    if rs != [] {
      WithoutMeans(rs[..|rs| - 1], m, r);
      assert rs == rs[..|rs| - 1] + [rs[|rs| - 1]];
    }
  }

  lemma {:induction false} FindMeans(rs: seq<Rec>, m: string)
    ensures Find(rs, m).messageId == m
    ensures Find(rs, m) in rs || Find(rs, m) == Rec(m, None, None)
    decreases |rs|
  {
    if rs != [] && rs[|rs| - 1].messageId != m {
      FindMeans(rs[..|rs| - 1], m);
    }
  }

  lemma NewestMeans<T>(s: seq<T>, n: nat, x: T)
    requires x in Newest(s, n)
    ensures x in s
  {
  }

  /** An event about another message changes nothing for this one. */
  lemma OthersStaySound(h: History, e: Event, id: string, r: Rec, b: Bounds)
    requires Sound(h, id, r, b) && !About(e, id, r.messageId)
    ensures Sound(h + [e], id, r, b)
  {
    assert (h + [e])[..|h|] == h;
  }

  lemma RecordedStaysSound(h: History, e: Event, rs: seq<Rec>, b: Bounds)
    requires e.RoleKnown? || e.TextArrived?
    requires AllSound(h, e.sessionId, rs, b)
    ensures AllSound(h + [e], e.sessionId, Recorded(rs, e, b), b)
  {
    var id, m := e.sessionId, e.messageId;
    var was := Find(rs, m);
    FindMeans(rs, m);
    assert (h + [e])[..|h|] == h;
    assert Sound(h, id, was, b);
    var now := if e.RoleKnown? then WithRole(was, e.role) else WithText(was, e.text, b);
    assert Sound(h + [e], id, now, b);
    forall r | r in Recorded(rs, e, b) ensures Sound(h + [e], id, r, b) {
      NewestMeans(Without(rs, m) + [now], b.maxMessages, r);
      if r != now {
        WithoutMeans(rs, m, r);
        OthersStaySound(h, e, id, r, b);
      }
    }
  }

  // ------------------------------------------------------------- which records are kept

  function Ids(rs: seq<Rec>): seq<string> {
    seq(|rs|, i requires 0 <= i < |rs| => rs[i].messageId)
  }

  function Removed(ids: seq<string>, m: string): seq<string>
    decreases |ids|
  {
    if ids == [] then []
    else Removed(ids[..|ids| - 1], m) + (if ids[|ids| - 1] == m then [] else [ids[|ids| - 1]])
  }

  /** The messages about which anything was heard, least recently active first. */
  function ByActivity(acts: seq<string>): seq<string>
    decreases |acts|
  {
    if acts == [] then []
    else Removed(ByActivity(acts[..|acts| - 1]), acts[|acts| - 1]) + [acts[|acts| - 1]]
  }

  function LastActive(acts: seq<string>, m: string): (i: int)
    ensures -1 <= i < |acts|
    decreases |acts|
  {
    if acts == [] then -1
    else if acts[|acts| - 1] == m then |acts| - 1
    else LastActive(acts[..|acts| - 1], m)
  }

  lemma {:induction false} RemovedMeans(ids: seq<string>, m: string, x: string)
    ensures x in Removed(ids, m) <==> x in ids && x != m
    decreases |ids|
  {
    if ids != [] {
      RemovedMeans(ids[..|ids| - 1], m, x);
      assert ids == ids[..|ids| - 1] + [ids[|ids| - 1]];
    }
  }

  ghost predicate Rising(ids: seq<string>, acts: seq<string>) {
    && (forall i :: 0 <= i < |ids| ==> LastActive(acts, ids[i]) >= 0)
    && (forall i, j :: 0 <= i < j < |ids| ==> LastActive(acts, ids[i]) < LastActive(acts, ids[j]))
  }

  lemma {:induction false} RemovedRises(ids: seq<string>, m: string, acts: seq<string>)
    requires Rising(ids, acts)
    ensures Rising(Removed(ids, m), acts)
    decreases |ids|
  {
    if ids != [] {
      var n := |ids| - 1;
      var r := Removed(ids[..n], m);
      RemovedRises(ids[..n], m, acts);
      forall i | 0 <= i < |r| ensures LastActive(acts, r[i]) < LastActive(acts, ids[n]) {
        RemovedMeans(ids[..n], m, r[i]);
        assert r[i] in ids[..n];
      }
    }
  }

  /** That order is each message once, by its last activity. */
  lemma {:induction false} ByActivityMeans(acts: seq<string>, m: string)
    ensures Rising(ByActivity(acts), acts)
    ensures m in ByActivity(acts) <==> m in acts
    decreases |acts|
  {
    if acts != [] {
      var n := |acts| - 1;
      var before, last := acts[..n], acts[n];
      ByActivityMeans(before, m);
      RemovedMeans(ByActivity(before), last, m);
      RemovedMeans(ByActivity(before), last, last);
      RemovedRises(ByActivity(before), last, before);
      AppendedRises(Removed(ByActivity(before), last), before, last);
      AppendedMembers(Removed(ByActivity(before), last), before, last, m);
      assert acts == before + [last];
    }
  }

  lemma AppendedMembers(ids: seq<string>, acts: seq<string>, last: string, m: string)
    requires m in ids <==> m in acts && m != last
    ensures m in ids + [last] <==> m in acts + [last]
  {
  }

  lemma AppendedRises(ids: seq<string>, acts: seq<string>, last: string)
    requires Rising(ids, acts) && last !in ids
    ensures Rising(ids + [last], acts + [last])
  {
    assert (acts + [last])[..|acts|] == acts;
    forall i | 0 <= i < |ids| ensures LastActive(acts + [last], ids[i]) == LastActive(acts, ids[i]) {
      assert ids[i] in ids;
    }
  }

  lemma {:induction false} WithoutIds(rs: seq<Rec>, m: string)
    ensures Ids(Without(rs, m)) == Removed(Ids(rs), m)
    decreases |rs|
  {
    if rs != [] {
      var n := |rs| - 1;
      WithoutIds(rs[..n], m);
      assert Ids(rs)[..n] == Ids(rs[..n]);
      assert Ids(Without(rs, m)) == Ids(Without(rs[..n], m)) + (if rs[n].messageId == m then [] else [rs[n].messageId]);
    }
  }

  /** Cutting to the cap before a touch or only after it comes to the same. */
  lemma CutAndTouch(ids: seq<string>, m: string, n: nat)
    requires n > 0
    requires forall i, j :: 0 <= i < j < |ids| ==> ids[i] != ids[j]
    ensures Newest(Removed(Newest(ids, n), m) + [m], n) == Newest(Removed(ids, m) + [m], n)
  {
    if |ids| > n {
      var k := |ids| - n;
      assert ids == ids[..k] + ids[k..];
      RemovedConcat(ids[..k], ids[k..], m);
      RemovedAtMostOne(ids[k..], m);
      NewestOfConcat(Removed(ids[..k], m), Removed(ids[k..], m), m, n);
    }
  }

  lemma NewestOfConcat(a: seq<string>, c: seq<string>, m: string, n: nat)
    requires |c| + 1 >= n
    ensures Newest(a + c + [m], n) == Newest(c + [m], n)
  {
    assert a + c + [m] == a + (c + [m]);
  }

  lemma {:induction false} RemovedConcat(a: seq<string>, b: seq<string>, m: string)
    ensures Removed(a + b, m) == Removed(a, m) + Removed(b, m)
    decreases |b|
  {
    if b == [] {
      assert a + b == a;
    } else {
      var n := |b| - 1;
      RemovedConcat(a, b[..n], m);
      assert (a + b)[..|a + b| - 1] == a + b[..n];
    }
  }

  lemma {:induction false} RemovedAtMostOne(ids: seq<string>, m: string)
    requires forall i, j :: 0 <= i < j < |ids| ==> ids[i] != ids[j]
    ensures |Removed(ids, m)| == |ids| - (if m in ids then 1 else 0)
    decreases |ids|
  {
    if ids != [] {
      var n := |ids| - 1;
      RemovedAtMostOne(ids[..n], m);
      assert ids == ids[..n] + [ids[n]];
    }
  }

  // --------------------------------------------------------------------- every session

  ghost predicate Distinct(ss: seq<Session>) {
    forall i, j :: 0 <= i < j < |ss| ==> ss[i].sessionId != ss[j].sessionId
  }

  function RecordsOf(ss: seq<Session>, id: string): seq<Rec> {
    if Has(ss, id) then ss[Index(ss, id)].records else []
  }

  lemma RecordsAt(ss: seq<Session>, i: nat)
    requires Distinct(ss) && i < |ss|
    ensures Has(ss, ss[i].sessionId) && Index(ss, ss[i].sessionId) == i
    ensures RecordsOf(ss, ss[i].sessionId) == ss[i].records
  {
    var id := ss[i].sessionId;
    assert Has(ss, id);
    var k := Index(ss, id);
    assert ss[k].sessionId == ss[i].sessionId;
    assert k == i;
  }

  /** Of two caches, one holds only sessions of the other. */
  ghost predicate Within(a: seq<Session>, b: seq<Session>) {
    forall s :: s in a ==> s in b
  }

  lemma WithinHolds(a: seq<Session>, b: seq<Session>, id: string)
    requires Distinct(a) && Distinct(b) && Within(a, b) && Has(a, id)
    ensures Has(b, id) && RecordsOf(a, id) == RecordsOf(b, id)
  {
    var i := Index(a, id);
    assert a[i] in a;
    var j :| 0 <= j < |b| && a[i] == b[j];
    RecordsAt(b, j);
  }

  lemma NewestWithin(ss: seq<Session>, n: nat)
    requires Distinct(ss)
    ensures Distinct(Newest(ss, n)) && Within(Newest(ss, n), ss)
  {
  }

  lemma {:induction false} DeletedMeans(ss: seq<Session>, id: string, t: Session)
    ensures t in Deleted(ss, id) <==> t in ss && t.sessionId != id
    decreases |ss|
  {
    if ss != [] {
      DeletedMeans(ss[..|ss| - 1], id, t);
      assert ss == ss[..|ss| - 1] + [ss[|ss| - 1]];
    }
  }

  lemma {:induction false} DeletedIsDistinct(ss: seq<Session>, id: string)
    requires Distinct(ss)
    ensures Distinct(Deleted(ss, id)) && |Deleted(ss, id)| <= |ss|
    decreases |ss|
  {
    if ss != [] {
      var n := |ss| - 1;
      var r := Deleted(ss[..n], id);
      DeletedIsDistinct(ss[..n], id);
      forall i | 0 <= i < |r| ensures r[i].sessionId != ss[n].sessionId {
        DeletedMeans(ss[..n], id, r[i]);
      }
    }
  }

  lemma DeletedWithin(ss: seq<Session>, id: string)
    requires Distinct(ss)
    ensures Distinct(Deleted(ss, id)) && |Deleted(ss, id)| <= |ss|
    ensures Within(Deleted(ss, id), ss) && !Has(Deleted(ss, id), id)
  {
    DeletedIsDistinct(ss, id);
    forall t ensures t in Deleted(ss, id) <==> t in ss && t.sessionId != id {
      DeletedMeans(ss, id, t);
    }
    forall i | 0 <= i < |Deleted(ss, id)| ensures Deleted(ss, id)[i].sessionId != id {
      assert Deleted(ss, id)[i] in Deleted(ss, id);
    }
  }

  lemma ReplacedHolds(ss: seq<Session>, i: nat, t: Session)
    requires Distinct(ss) && i < |ss| && t.sessionId == ss[i].sessionId
    ensures Distinct(ss[i := t]) && Has(ss[i := t], t.sessionId) && RecordsOf(ss[i := t], t.sessionId) == t.records
  {
    RecordsAt(ss[i := t], i);
  }

  /** A session that had to be added has no records yet. */
  lemma GrownHolds(ss: seq<Session>, id: string, b: Bounds)
    requires Positive(b) && Distinct(ss) && |ss| <= b.maxSessions
    ensures var r := WithSession(ss, id, b);
      Distinct(r) && |r| <= b.maxSessions && Has(r, id) && RecordsOf(r, id) == RecordsOf(ss, id)
    ensures !Has(ss, id) ==> Within(WithSession(ss, id, b), ss + [Session(id, [])])
  {
    WithSessionHas(ss, id, b);
    if !Has(ss, id) {
      var r := WithSession(ss, id, b);
      NewestWithin(ss + [Session(id, [])], b.maxSessions);
      assert r[|r| - 1] == Session(id, []);
      RecordsAt(r, |r| - 1);
    }
  }

  /** The session an event is about has its records rewritten, beginning with none. */
  lemma StepSelf(ss: seq<Session>, e: Event, b: Bounds)
    requires Positive(b) && Distinct(ss) && |ss| <= b.maxSessions && (e.RoleKnown? || e.TextArrived?)
    ensures var id, n := e.sessionId, Step(ss, e, b);
      && Distinct(n) && |n| <= b.maxSessions && Has(n, id)
      && RecordsOf(n, id) == Recorded(RecordsOf(ss, id), e, b)
  {
    var id := e.sessionId;
    var grown := WithSession(ss, id, b);
    GrownHolds(ss, id, b);
    var i := Index(grown, id);
    ReplacedHolds(grown, i, Session(id, Recorded(grown[i].records, e, b)));
  }

  /** The other sessions that are still there are as they were. */
  lemma StepOther(ss: seq<Session>, e: Event, b: Bounds, id: string)
    requires Positive(b) && Distinct(ss) && |ss| <= b.maxSessions
    requires e.Clear? || e.sessionId != id
    requires Has(Step(ss, e, b), id)
    ensures Has(ss, id) && RecordsOf(Step(ss, e, b), id) == RecordsOf(ss, id)
  {
    match e {
      case ClearSession(gone) =>
        DeletedWithin(ss, gone);
        WithinHolds(Deleted(ss, gone), ss, id);
      case Clear =>
      case _ =>
        GrownHolds(ss, e.sessionId, b);
        var grown, t := WithSession(ss, e.sessionId, b), RecordsOf(ss, e.sessionId);
        ReplacedOther(grown, Index(grown, e.sessionId), Session(e.sessionId, Recorded(t, e, b)), id);
        GrownOther(ss, e.sessionId, b, id);
    }
  }

  lemma ReplacedOther(ss: seq<Session>, k: nat, t: Session, id: string)
    requires Distinct(ss) && k < |ss| && t.sessionId == ss[k].sessionId != id && Has(ss[k := t], id)
    ensures Has(ss, id) && RecordsOf(ss[k := t], id) == RecordsOf(ss, id)
  {
    var n := ss[k := t];
    var i :| 0 <= i < |n| && n[i].sessionId == id;
    assert i != k && ss[i] == n[i];
    RecordsAt(n, i);
    RecordsAt(ss, i);
  }

  lemma GrownOther(ss: seq<Session>, added: string, b: Bounds, id: string)
    requires Positive(b) && Distinct(ss) && |ss| <= b.maxSessions && id != added && Has(WithSession(ss, added, b), id)
    ensures Has(ss, id) && RecordsOf(WithSession(ss, added, b), id) == RecordsOf(ss, id)
  {
    GrownHolds(ss, added, b);
    if !Has(ss, added) {
      var all := ss + [Session(added, [])];
      WithinHolds(WithSession(ss, added, b), all, id);
      var j := Index(all, id);
      assert j < |ss| && all[j] == ss[j];
      RecordsAt(ss, j);
    }
  }

  lemma {:induction false} EveryRunIsDistinct(h: History, b: Bounds)
    requires Positive(b)
    ensures Distinct(After(h, b)) && |After(h, b)| <= b.maxSessions
    decreases |h|
  {
    if h != [] {
      var ss, e := After(h[..|h| - 1], b), h[|h| - 1];
      EveryRunIsDistinct(h[..|h| - 1], b);
      match e {
        case ClearSession(id) => DeletedWithin(ss, id);
        case Clear =>
        case _ => StepSelf(ss, e, b);
      }
    }
  }

  // ------------------------------------------------------------------------ theorems

  /** Where the session's present map was made: since then it has never been away. */
  function Born(h: History, id: string, b: Bounds): (k: nat)
    requires Positive(b)
    ensures k <= |h|
    decreases |h|
  {
    if h == [] then 0
    else if Has(After(h[..|h| - 1], b), id) then Born(h[..|h| - 1], id, b)
    else |h| - 1
  }

  /** There was no map before the event that made it. */
  lemma {:induction false} BornFromNothing(h: History, id: string, b: Bounds)
    requires Positive(b) && Has(After(h, b), id)
    ensures Born(h, id, b) < |h| && !Has(After(h[..Born(h, id, b)], b), id)
    decreases |h|
  {
    var before := h[..|h| - 1];
    if Has(After(before, b), id) {
      BornFromNothing(before, id, b);
      PrefixOfPrefix(h, Born(before, id, b));
    }
  }

  /** And there has been one after every event since. */
  lemma {:induction false} PresentSinceBorn(h: History, id: string, b: Bounds, j: nat)
    requires Positive(b) && Has(After(h, b), id) && Born(h, id, b) < j <= |h|
    ensures Has(After(h[..j], b), id)
    decreases |h|
  {
    PrefixOfPrefix(h, j);
    if j < |h| {
      PresentSinceBorn(h[..|h| - 1], id, b, j);
    }
  }

  lemma PrefixOfPrefix(h: History, j: nat)
    requires 0 < |h| && j <= |h|
    ensures h[..j] == if j < |h| then h[..|h| - 1][..j] else h
  {
  }

  /** The messages of one session anything was heard about, in order. */
  function Acts(h: History, id: string): seq<string>
    decreases |h|
  {
    if h == [] then []
    else
      var e := h[|h| - 1];
      Acts(h[..|h| - 1], id)
      + (if (e.RoleKnown? || e.TextArrived?) && e.sessionId == id then [e.messageId] else [])
  }

  /** What is known of the records of a session: where each text is from, and which
      there are. */
  ghost predicate Explained(h: History, id: string, b: Bounds)
    requires Positive(b)
  {
    var rs := RecordsOf(After(h, b), id);
    AllSound(h, id, rs, b) && Ids(rs) == Newest(ByActivity(Acts(h[Born(h, id, b)..], id)), b.maxMessages)
  }

  lemma SelfIsExplained(h: History, e: Event, b: Bounds)
    requires Positive(b) && (e.RoleKnown? || e.TextArrived?)
    requires Has(After(h, b), e.sessionId) ==> Explained(h, e.sessionId, b)
    ensures Explained(h + [e], e.sessionId, b)
  {
    var id, ss, g := e.sessionId, After(h, b), h + [e];
    EveryRunIsDistinct(h, b);
    assert g[..|h|] == h;
    StepSelf(ss, e, b);
    RecordedStaysSound(h, e, RecordsOf(ss, id), b);
    SelfIds(h, e, b, RecordsOf(ss, id));
  }

  lemma SelfIds(h: History, e: Event, b: Bounds, rs: seq<Rec>)
    requires Positive(b) && (e.RoleKnown? || e.TextArrived?)
    requires var id := e.sessionId;
      if Has(After(h, b), id) then Ids(rs) == Newest(ByActivity(Acts(h[Born(h, id, b)..], id)), b.maxMessages) else rs == []
    ensures var id, g := e.sessionId, h + [e];
      Ids(Recorded(rs, e, b)) == Newest(ByActivity(Acts(g[Born(g, id, b)..], id)), b.maxMessages)
  {
    var id, g := e.sessionId, h + [e];
    assert g[..|h|] == h;
    var k := Born(g, id, b);
    ActsAppend(h, e, k, id);
    RecordedIds(rs, e, b);
    OneMoreAct(Acts(h[k..], id), e.messageId, b.maxMessages);
  }

  /** The capped order after one more activity, from the capped order before it. */
  lemma OneMoreAct(acts: seq<string>, m: string, n: nat)
    requires n > 0
    ensures Newest(Removed(Newest(ByActivity(acts), n), m) + [m], n) == Newest(ByActivity(acts + [m]), n)
  {
    ByActivityMeans(acts, m);
    CutAndTouch(ByActivity(acts), m, n);
    assert (acts + [m])[..|acts|] == acts;
  }

  lemma ActsAppend(h: History, e: Event, k: nat, id: string)
    requires k <= |h|
    ensures Acts((h + [e])[k..], id)
         == if (e.RoleKnown? || e.TextArrived?) && e.sessionId == id then Acts(h[k..], id) + [e.messageId]
            else Acts(h[k..], id)
  {
    var g := (h + [e])[k..];
    assert g[..|g| - 1] == h[k..] && g[|g| - 1] == e;
  }

  lemma RecordedIds(rs: seq<Rec>, e: Event, b: Bounds)
    requires e.RoleKnown? || e.TextArrived?
    ensures Ids(Recorded(rs, e, b)) == Newest(Removed(Ids(rs), e.messageId) + [e.messageId], b.maxMessages)
  {
    FindMeans(rs, e.messageId);
    WithoutIds(rs, e.messageId);
    var was := Find(rs, e.messageId);
    var now := if e.RoleKnown? then WithRole(was, e.role) else WithText(was, e.text, b);
    assert Ids(Without(rs, e.messageId) + [now]) == Removed(Ids(rs), e.messageId) + [e.messageId];
  }

  lemma OtherIsExplained(h: History, e: Event, b: Bounds, id: string)
    requires Positive(b) && (e.Clear? || e.sessionId != id) && Has(After(h + [e], b), id)
    requires Has(After(h, b), id) ==> Explained(h, id, b)
    ensures Explained(h + [e], id, b)
  {
    var g := h + [e];
    EveryRunIsDistinct(h, b);
    assert g[..|h|] == h;
    StepOther(After(h, b), e, b, id);
    OthersKeepTheirBirth(h, e, b, id);
    ActsAppend(h, e, Born(h, id, b), id);
    AllOthersStaySound(h, e, id, RecordsOf(After(h, b), id), b);
  }

  lemma OthersKeepTheirBirth(h: History, e: Event, b: Bounds, id: string)
    requires Positive(b) && Has(After(h, b), id)
    ensures Born(h + [e], id, b) == Born(h, id, b)
  {
    assert (h + [e])[..|h|] == h;
  }

  lemma AllOthersStaySound(h: History, e: Event, id: string, rs: seq<Rec>, b: Bounds)
    requires AllSound(h, id, rs, b) && (e.Clear? || e.sessionId != id)
    ensures AllSound(h + [e], id, rs, b)
  {
    forall r | r in rs ensures Sound(h + [e], id, r, b) {
      OthersStaySound(h, e, id, r, b);
    }
  }

  lemma {:induction false} EverySessionIsExplained(h: History, id: string, b: Bounds)
    requires Positive(b) && Has(After(h, b), id)
    ensures Explained(h, id, b)
    decreases |h|
  {
    var before, e := h[..|h| - 1], h[|h| - 1];
    assert before + [e] == h;
    if Has(After(before, b), id) {
      EverySessionIsExplained(before, id, b);
    }
    if (e.RoleKnown? || e.TextArrived?) && e.sessionId == id {
      SelfIsExplained(before, e, b);
    } else {
      if e.ClearSession? && e.sessionId == id {
        EveryRunIsDistinct(before, b);
        DeletedWithin(After(before, b), id);
      }
      OtherIsExplained(before, e, b, id);
    }
  }

  /** A session retains exactly the messages it heard of most recently, since its map was
      made, as many as the cap allows. */
  lemma RetainsTheMostRecentlyActive(h: History, id: string, b: Bounds, m: string)
    requires Positive(b) && Has(After(h, b), id)
    ensures var acts := Acts(h[Born(h, id, b)..], id);
      && Ids(RecordsOf(After(h, b), id)) == Newest(ByActivity(acts), b.maxMessages)
      && Rising(ByActivity(acts), acts) && (m in ByActivity(acts) <==> m in acts)
  {
    EverySessionIsExplained(h, id, b);
    ByActivityMeans(Acts(h[Born(h, id, b)..], id), m);
  }

  /** In every run a summary is the truncation of the latest text of a message of which
      the latest role heard is assistant, and which was not said to be the user's since
      that text. */
  lemma SummaryIsAssistantText(h: History, id: string, b: Bounds, blank: string -> bool) returns (m: string)
    requires Positive(b) && SummaryOf(RecordsOf(After(h, b), id), blank).Some?
    ensures var i := LastText(h, id, m);
      && i > LastUser(h, id, m) && i >= 0 && h[i].TextArrived?
      && SummaryOf(RecordsOf(After(h, b), id), blank) == Some(Truncate(h[i].text, b.maxTextLength))
      && LastRole(h, id, m) == Some(Assistant)
      && forall j :: i < j < |h| ==> h[j] != RoleKnown(id, m, User)
  {
    var rs := RecordsOf(After(h, b), id);
    SummaryIsLatestEligible(rs, blank);
    EverySessionIsExplained(h, id, b);
    var i :| 0 <= i < |rs| && Eligible(rs[i], blank) && rs[i].text == SummaryOf(rs, blank);
    m := rs[i].messageId;
    assert Sound(h, id, rs[i], b);
    LastUserMeans(h, id, m);
  }

  // ------------------------------------------------------------------------ the class

  class MessageCache {
    const bounds: Bounds
    var sessions: seq<Session>
    ghost var history: History

    ghost predicate Valid()
      reads this
    {
      Positive(bounds) && sessions == After(history, bounds)
    }

    constructor Make(bounds: Bounds)
      requires Positive(bounds)
      ensures Valid() && history == [] && this.bounds == bounds
    {
      this.bounds := bounds;
      sessions, history := [], [];
    }

    /** The source throws a RangeError for a bound that is not positive. */
    static method New(maxMessages: int, maxTextLength: int, maxSessions: int) returns (c: MessageCache?)
      ensures c == null <==> maxMessages <= 0 || maxTextLength <= 0 || maxSessions <= 0
      ensures c != null ==> fresh(c) && c.Valid() && c.history == []
                            && c.bounds == Bounds(maxMessages, maxTextLength, maxSessions)
    {
      if maxMessages <= 0 || maxTextLength <= 0 || maxSessions <= 0 {
        return null;
      }
      c := new MessageCache.Make(Bounds(maxMessages, maxTextLength, maxSessions));
    }

    method OnRole(sessionId: string, messageId: string, role: Role)
      requires Valid()
      modifies this
      ensures Valid() && history == old(history) + [RoleKnown(sessionId, messageId, role)]
    {
      var i := RecordsFor(sessionId);
      var rs := RecordRole(sessions[i].records, messageId, role);
      sessions := sessions[i := Session(sessionId, rs)];
      Remember(RoleKnown(sessionId, messageId, role));
    }

    method RecordRole(records: seq<Rec>, messageId: string, role: Role) returns (rs: seq<Rec>)
      requires Positive(bounds)
      ensures rs == Touched(records, WithRole(Find(records, messageId), role), bounds)
    {
      rs := Touch(records, messageId);
      var record := rs[|rs| - 1];
      TouchedLast(records, record, WithRole(record, role), bounds);
      record := record.(role := Some(role));
      if role == User {
        record := record.(text := None);
      }
      rs := rs[|rs| - 1 := record];
    }

    method OnText(sessionId: string, messageId: string, text: string)
      requires Valid()
      modifies this
      ensures Valid() && history == old(history) + [TextArrived(sessionId, messageId, text)]
    {
      var i := RecordsFor(sessionId);
      var rs := RecordText(sessions[i].records, messageId, text);
      sessions := sessions[i := Session(sessionId, rs)];
      Remember(TextArrived(sessionId, messageId, text));
    }

    method RecordText(records: seq<Rec>, messageId: string, text: string) returns (rs: seq<Rec>)
      requires Positive(bounds)
      ensures rs == Touched(records, WithText(Find(records, messageId), text, bounds), bounds)
    {
      rs := Touch(records, messageId);
      var record := rs[|rs| - 1];
      TouchedLast(records, record, WithText(record, text, bounds), bounds);
      if record.role == Some(User) {
        return;
      }
      rs := rs[|rs| - 1 := record.(text := Some(Truncate(text, bounds.maxTextLength)))];
    }

    ghost method Remember(e: Event)
      requires Positive(bounds) && sessions == Step(After(history, bounds), e, bounds)
      modifies this`history
      ensures Valid() && history == old(history) + [e]
    {
      assert (history + [e])[..|history|] == history;
      history := history + [e];
    }

    /** The place of the session's records, made if need be. */
    method RecordsFor(id: string) returns (i: nat)
      requires Positive(bounds)
      modifies this`sessions
      ensures sessions == WithSession(old(sessions), id, bounds) && Has(sessions, id) && i == Index(sessions, id)
    {
      WithSessionHas(sessions, id, bounds);
      if !Has(sessions, id) {
        sessions := sessions + [Session(id, [])];
        ghost var all := sessions;
        while |sessions| > bounds.maxSessions
          invariant |sessions| <= |all| && sessions == all[|all| - |sessions|..]
          invariant |sessions| >= bounds.maxSessions || sessions == all
        {
          sessions := sessions[1..];
        }
      }
      i := Index(sessions, id);
    }

    /** Moves the message's record, new if need be, to the tail; evicts beyond the cap. */
    method Touch(records: seq<Rec>, messageId: string) returns (rs: seq<Rec>)
      requires Positive(bounds)
      ensures rs == Touched(records, Find(records, messageId), bounds)
      ensures rs != [] && rs[|rs| - 1] == Find(records, messageId)
    {
      FindMeans(records, messageId);
      rs := Without(records, messageId) + [Find(records, messageId)];
      ghost var all := rs;
      while |rs| > bounds.maxMessages
        invariant |rs| <= |all| && rs == all[|all| - |rs|..]
        invariant |rs| >= bounds.maxMessages || rs == all
      {
        rs := rs[1..];
      }
    }

    method Summary(sessionId: string, blank: string -> bool) returns (text: Option<string>)
      requires Valid()
      ensures text == SummaryOf(RecordsOf(sessions, sessionId), blank)
    {
      if !Has(sessions, sessionId) {
        return None;
      }
      var ordered := sessions[Index(sessions, sessionId)].records;
      var i := |ordered|;
      assert ordered[..i] == ordered;
      while i > 0
        invariant 0 <= i <= |ordered| && SummaryOf(ordered, blank) == SummaryOf(ordered[..i], blank)
      {
        i := i - 1;
        assert ordered[..i + 1][..i] == ordered[..i];
        if Eligible(ordered[i], blank) {
          return ordered[i].text;
        }
      }
      return None;
    }

    method Forget(sessionId: string)
      requires Valid()
      modifies this
      ensures Valid() && history == old(history) + [ClearSession(sessionId)]
    {
      sessions := Deleted(sessions, sessionId);
      Remember(ClearSession(sessionId));
    }

    method ForgetAll()
      requires Valid()
      modifies this
      ensures Valid() && history == old(history) + [Clear]
    {
      sessions := [];
      Remember(Clear);
    }
  }

  lemma TouchedLast(rs: seq<Rec>, r: Rec, t: Rec, b: Bounds)
    requires Positive(b) && r.messageId == t.messageId
    ensures var x := Touched(rs, r, b); x != [] && Touched(rs, t, b) == x[|x| - 1 := t]
  {
  }
}
