/** What a summary says, told from the events alone, and when a session goes away. */
module MessageAnswers {
  import opened Prelude
  import opened MessageCache

  // ------------------------------------------------------------ what a record says

  predicate Retained(ss: seq<Session>, id: string, m: string) {
    m in Ids(RecordsOf(ss, id))
  }

  /** Where the message's present record was made: since then it was never dropped. */
  function KeptSince(h: History, id: string, m: string, b: Bounds): (k: nat)
    requires Positive(b)
    ensures k <= |h|
    decreases |h|
  {
    if h == [] then 0
    else if Retained(After(h[..|h| - 1], b), id, m) then KeptSince(h[..|h| - 1], id, m, b)
    else |h| - 1
  }

  /** A text of the message that arrives while it is not known to be the user's. */
  predicate Counts(g: History, i: nat, id: string, m: string)
    requires i < |g|
  {
    g[i].TextArrived? && About(g[i], id, m) && LastRole(g[..i], id, m) != Some(User)
  }

  /** The latest such text, if the message has not been said to be the user's since. */
  predicate Stands(g: History, i: nat, id: string, m: string)
    requires i < |g|
  {
    Counts(g, i, id, m) && forall j :: i < j < |g| ==> !Counts(g, j, id, m) && g[j] != RoleKnown(id, m, User)
  }

  /** The record holds what the events say: the latest role, and the text that stands. */
  ghost predicate Holds(g: History, id: string, r: Rec, b: Bounds) {
    && r.role == LastRole(g, id, r.messageId)
    && (forall i :: 0 <= i < |g| && Stands(g, i, id, r.messageId) ==>
          r.text == Some(Truncate(g[i].text, b.maxTextLength)))
    && (r.text.Some? ==> exists i :: 0 <= i < |g| && Stands(g, i, id, r.messageId))
  }

  function Heard(r: Rec, e: Event, id: string, b: Bounds): Rec {
    if !About(e, id, r.messageId) then r
    else if e.RoleKnown? then WithRole(r, e.role)
    else WithText(r, e.text, b)
  }

  lemma CountsInPrefix(g: History, e: Event, i: nat, id: string, m: string)
    requires i < |g|
    ensures Counts(g + [e], i, id, m) <==> Counts(g, i, id, m)
  {
    assert (g + [e])[..i] == g[..i];
  }

  /** A text stands after an event if it is the event's, or stood and was not displaced. */
  lemma StandsAfter(g: History, e: Event, i: nat, id: string, m: string)
    requires i <= |g|
    ensures Stands(g + [e], i, id, m) <==>
      if i == |g| then Counts(g + [e], i, id, m)
      else Stands(g, i, id, m) && !Counts(g + [e], |g|, id, m) && e != RoleKnown(id, m, User)
  {
    forall j: nat | j < |g| ensures Counts(g + [e], j, id, m) <==> Counts(g, j, id, m) {
      CountsInPrefix(g, e, j, id, m);
    }
    var n := g + [e];
    assert forall j :: 0 <= j < |g| ==> n[j] == g[j];
    if i < |g| && Stands(n, i, id, m) {
      assert Counts(n, i, id, m) && !Counts(n, |g|, id, m) && n[|g|] == e;
      forall j | i < j < |g| ensures !Counts(g, j, id, m) && g[j] != RoleKnown(id, m, User) {
        assert !Counts(n, j, id, m) && n[j] == g[j];
      }
    }
  }

  lemma HeardHolds(g: History, e: Event, id: string, r: Rec, b: Bounds)
    requires Holds(g, id, r, b)
    ensures Holds(g + [e], id, Heard(r, e, id, b), b)
  {
    var m, n, now := r.messageId, g + [e], Heard(r, e, id, b);
    assert n[..|g|] == g;
    assert Counts(n, |g|, id, m) <==> e.TextArrived? && About(e, id, m) && r.role != Some(User);
    forall i: nat | i <= |g| ensures Stands(n, i, id, m) <==>
        if i == |g| then Counts(n, i, id, m)
        else Stands(g, i, id, m) && !Counts(n, |g|, id, m) && e != RoleKnown(id, m, User)
    {
      StandsAfter(g, e, i, id, m);
    }
    forall i | 0 <= i < |n| && Stands(n, i, id, m) ensures now.text == Some(Truncate(n[i].text, b.maxTextLength)) {
      if i < |g| {
        assert n[i] == g[i] && Stands(g, i, id, m);
      }
    }
    if now.text.Some? {
      if Counts(n, |g|, id, m) {
        assert Stands(n, |g|, id, m);
      } else {
        var i :| 0 <= i < |g| && Stands(g, i, id, m);
        assert Stands(n, i, id, m);
      }
    }
  }

  lemma {:induction false} FindAbsent(rs: seq<Rec>, m: string)
    requires m !in Ids(rs)
    ensures Find(rs, m) == Rec(m, None, None)
    decreases |rs|
  {
    if rs != [] {
      var n := |rs| - 1;
      assert Ids(rs) == Ids(rs[..n]) + [rs[n].messageId];
      FindAbsent(rs[..n], m);
    }
  }

  lemma {:induction false} FindWithout(rs: seq<Rec>, x: string, m: string)
    requires x != m
    ensures Find(Without(rs, x), m) == Find(rs, m)
    decreases |rs|
  {
    if rs != [] {
      var n := |rs| - 1;
      FindWithout(rs[..n], x, m);
      var w := Without(rs[..n], x);
      if rs[n].messageId == x {
        assert Without(rs, x) == w;
      } else {
        assert Without(rs, x) == w + [rs[n]] && (w + [rs[n]])[..|w|] == w;
      }
    }
  }

  lemma {:induction false} FindInSuffix(rs: seq<Rec>, k: nat, m: string)
    requires k <= |rs| && m in Ids(rs[k..])
    ensures Find(rs[k..], m) == Find(rs, m)
    decreases |rs|
  {
    var n, s := |rs| - 1, rs[k..];
    assert s[|s| - 1] == rs[n] && s[..|s| - 1] == rs[..n][k..];
    if rs[n].messageId != m {
      assert Ids(s) == Ids(s[..|s| - 1]) + [rs[n].messageId];
      FindInSuffix(rs[..n], k, m);
    }
  }

  /** An event about one message leaves the other records that remain as they were. */
  lemma RecordedSparesOthers(rs: seq<Rec>, t: Rec, m: string, b: Bounds)
    requires t.messageId != m && m in Ids(Touched(rs, t, b))
    ensures Find(Touched(rs, t, b), m) == Find(rs, m) && m in Ids(rs)
  {
    var w := Without(rs, t.messageId);
    var all := w + [t];
    assert all[..|w|] == w;
    FindWithout(rs, t.messageId, m);
    if |all| > b.maxMessages {
      FindInSuffix(all, |all| - b.maxMessages, m);
    }
    var i :| 0 <= i < |Touched(rs, t, b)| && Touched(rs, t, b)[i].messageId == m;
    NewestMeans(all, b.maxMessages, Touched(rs, t, b)[i]);
    WithoutMeans(rs, t.messageId, Touched(rs, t, b)[i]);
    var j :| 0 <= j < |rs| && rs[j] == Touched(rs, t, b)[i];
    assert Ids(rs)[j] == m;
  }

  /** The record after an event on its session. */
  lemma RecordedIsHeard(rs: seq<Rec>, e: Event, id: string, m: string, b: Bounds)
    requires Positive(b) && (e.RoleKnown? || e.TextArrived?) && e.sessionId == id && m in Ids(Recorded(rs, e, b))
    ensures Find(Recorded(rs, e, b), m) == Heard(Find(rs, m), e, id, b)
    ensures e.messageId != m ==> m in Ids(rs)
  {
    FindMeans(rs, m);
    FindMeans(rs, e.messageId);
    var was := Find(rs, e.messageId);
    var t := if e.RoleKnown? then WithRole(was, e.role) else WithText(was, e.text, b);
    assert Recorded(rs, e, b) == Touched(rs, t, b);
    if e.messageId != m {
      RecordedSparesOthers(rs, t, m, b);
    } else {
      var now := Touched(rs, t, b);
      assert now[|now| - 1] == t;
    }
  }

  /** One event: a retained record was retained before, or the event has made it. */
  lemma StepIsHeard(ss: seq<Session>, e: Event, id: string, m: string, b: Bounds)
    requires Positive(b) && Distinct(ss) && |ss| <= b.maxSessions && Retained(Step(ss, e, b), id, m)
    ensures Find(RecordsOf(Step(ss, e, b), id), m) == Heard(Find(RecordsOf(ss, id), m), e, id, b)
    ensures !About(e, id, m) ==> Retained(ss, id, m)
  {
    FindMeans(RecordsOf(ss, id), m);
    if (e.RoleKnown? || e.TextArrived?) && e.sessionId == id {
      StepSelf(ss, e, b);
      RecordedIsHeard(RecordsOf(ss, id), e, id, m, b);
    } else {
      if e.ClearSession? {
        DeletedWithin(ss, e.sessionId);
      }
      assert Has(Step(ss, e, b), id);
      StepOther(ss, e, b, id);
    }
  }

  lemma FirstHeard(e: Event, id: string, m: string, b: Bounds)
    ensures Holds([e], id, Heard(Rec(m, None, None), e, id, b), b)
  {
    HeardHolds([], e, id, Rec(m, None, None), b);
    assert [] + [e] == [e];
  }

  lemma SinceThen(h: History, before: History, e: Event, id: string, m: string, b: Bounds)
    requires Positive(b) && h == before + [e]
    ensures var k := KeptSince(h, id, m, b);
      if Retained(After(before, b), id, m) then
        k == KeptSince(before, id, m, b) && h[k..] == before[k..] + [e]
      else h[k..] == [e]
  {
    assert h[..|h| - 1] == before;
  }

  /** In every run a retained record holds exactly what its events say since it was made. */
  lemma {:induction false} RecordSaysWhatWasHeard(h: History, id: string, m: string, b: Bounds)
    requires Positive(b) && Retained(After(h, b), id, m)
    ensures Holds(h[KeptSince(h, id, m, b)..], id, Find(RecordsOf(After(h, b), id), m), b)
    decreases |h|
  {
    var before, e := h[..|h| - 1], h[|h| - 1];
    var was := Find(RecordsOf(After(before, b), id), m);
    EveryRunIsDistinct(before, b);
    StepIsHeard(After(before, b), e, id, m, b);
    SinceThen(h, before, e, id, m, b);
    if Retained(After(before, b), id, m) {
      RecordSaysWhatWasHeard(before, id, m, b);
      HeardHolds(before[KeptSince(before, id, m, b)..], e, id, was, b);
    } else {
      FindAbsent(RecordsOf(After(before, b), id), m);
      FirstHeard(e, id, m, b);
    }
  }

  // ----------------------------------------------------------- what a summary says

  /** By the events since its record was made, the message is the assistant's and its
      text, cut to length, is `t`. */
  ghost predicate Says(h: History, id: string, m: string, b: Bounds, t: string)
    requires Positive(b)
  {
    var g := h[KeptSince(h, id, m, b)..];
    LastRole(g, id, m) == Some(Assistant)
    && exists i :: 0 <= i < |g| && Stands(g, i, id, m) && t == Truncate(g[i].text, b.maxTextLength)
  }

  ghost predicate Speaks(h: History, id: string, m: string, b: Bounds, blank: string -> bool)
    requires Positive(b)
  {
    exists t :: Says(h, id, m, b, t) && !blank(t)
  }

  lemma RetainedOnce(h: History, id: string, b: Bounds, p: nat)
    requires Positive(b) && p < |RecordsOf(After(h, b), id)|
    ensures var rs := RecordsOf(After(h, b), id); Find(rs, rs[p].messageId) == rs[p]
  {
    var rs := RecordsOf(After(h, b), id);
    var m := rs[p].messageId;
    RetainsTheMostRecentlyActive(h, id, b, m);
    var acts := ByActivity(Acts(h[Born(h, id, b)..], id));
    assert forall i, j :: 0 <= i < j < |acts| ==> acts[i] != acts[j];
    assert Ids(rs)[p] == m;
    assert forall j :: p < j < |rs| ==> Ids(rs)[j] == rs[j].messageId && Ids(rs)[j] != m;
    FindAt(rs, p);
  }

  lemma {:induction false} FindAt(rs: seq<Rec>, p: nat)
    requires p < |rs| && forall j :: p < j < |rs| ==> rs[j].messageId != rs[p].messageId
    ensures Find(rs, rs[p].messageId) == rs[p]
    decreases |rs|
  {
    if p < |rs| - 1 {
      FindAt(rs[..|rs| - 1], p);
    }
  }

  lemma EligibleMeans(h: History, id: string, b: Bounds, blank: string -> bool, p: nat)
    requires Positive(b) && p < |RecordsOf(After(h, b), id)|
    ensures var r := RecordsOf(After(h, b), id)[p];
      && (Eligible(r, blank) <==> Speaks(h, id, r.messageId, b, blank))
      && (Eligible(r, blank) ==> Says(h, id, r.messageId, b, r.text.value))
  {
    var rs := RecordsOf(After(h, b), id);
    var m := rs[p].messageId;
    RetainedOnce(h, id, b, p);
    assert Ids(rs)[p] == m;
    RecordSaysWhatWasHeard(h, id, m, b);
    var g := h[KeptSince(h, id, m, b)..];
    if Eligible(rs[p], blank) {
      var i :| 0 <= i < |g| && Stands(g, i, id, m);
      assert Says(h, id, m, b, rs[p].text.value);
    }
  }

  /** In every run the summary is the text of the most recently active retained message
      that has one to tell, and there is none exactly when no retained message has. */
  lemma SummaryIsTheLatestTold(h: History, id: string, b: Bounds, blank: string -> bool)
    requires Positive(b)
    ensures var rs := RecordsOf(After(h, b), id);
      match SummaryOf(rs, blank)
      case None => forall p :: 0 <= p < |rs| ==> !Speaks(h, id, rs[p].messageId, b, blank)
      case Some(t) => exists p :: 0 <= p < |rs| && Says(h, id, rs[p].messageId, b, t) && !blank(t)
                                  && forall q :: p < q < |rs| ==> !Speaks(h, id, rs[q].messageId, b, blank)
  {
    var rs := RecordsOf(After(h, b), id);
    SummaryIsLatestEligible(rs, blank);
    forall p | 0 <= p < |rs|
      ensures Eligible(rs[p], blank) <==> Speaks(h, id, rs[p].messageId, b, blank)
      ensures Eligible(rs[p], blank) ==> Says(h, id, rs[p].messageId, b, rs[p].text.value)
    {
      EligibleMeans(h, id, b, blank, p);
    }
  }

  // ----------------------------------------------------- when a session goes away

  /** A session goes when it is cleared, when all are, or when it is the oldest of a full
      cache that hears of a session it does not know; then only. */
  lemma SessionGoesExactly(ss: seq<Session>, e: Event, b: Bounds, id: string)
    requires Positive(b) && Distinct(ss) && |ss| <= b.maxSessions && Has(ss, id)
    ensures !Has(Step(ss, e, b), id) <==>
      || e == Clear || e == ClearSession(id)
      || ((e.RoleKnown? || e.TextArrived?) && !Has(ss, e.sessionId)
          && |ss| == b.maxSessions && ss[0].sessionId == id)
  {
    var i := Index(ss, id);
    match e {
      case Clear =>
      case ClearSession(gone) =>
        DeletedWithin(ss, gone);
        DeletedMeans(ss, gone, ss[i]);
        if gone != id {
          var j :| 0 <= j < |Deleted(ss, gone)| && Deleted(ss, gone)[j] == ss[i];
        }
      case _ =>
        WithSessionHas(ss, e.sessionId, b);
        var grown := WithSession(ss, e.sessionId, b);
        var k := Index(grown, e.sessionId);
        RewrittenHas(grown, k, Session(e.sessionId, Recorded(grown[k].records, e, b)), id);
        if !Has(ss, e.sessionId) {
          GrownHas(ss, e.sessionId, b, id);
        }
    }
  }

  lemma RewrittenHas(ss: seq<Session>, k: nat, t: Session, id: string)
    requires k < |ss| && t.sessionId == ss[k].sessionId
    ensures Has(ss[k := t], id) <==> Has(ss, id)
  {
    assert forall j :: 0 <= j < |ss| ==> ss[k := t][j].sessionId == ss[j].sessionId;
  }

  lemma GrownHas(ss: seq<Session>, added: string, b: Bounds, id: string)
    requires Positive(b) && Distinct(ss) && |ss| <= b.maxSessions && Has(ss, id) && !Has(ss, added)
    ensures Has(WithSession(ss, added, b), id) <==> !(|ss| == b.maxSessions && ss[0].sessionId == id)
  {
    var i, r := Index(ss, id), WithSession(ss, added, b);
    if |ss| < b.maxSessions {
      assert r[i] == ss[i];
    } else {
      assert forall j :: 0 <= j < |r| - 1 ==> r[j] == ss[j + 1];
      if i > 0 {
        assert r[i - 1] == ss[i];
      }
    }
  }

  /** The sessions stand in the order in which their maps were made. */
  lemma {:induction false} OldestSessionFirst(h: History, b: Bounds, i: nat, j: nat)
    requires Positive(b) && i < j < |After(h, b)|
    ensures Born(h, After(h, b)[i].sessionId, b) < Born(h, After(h, b)[j].sessionId, b)
    decreases |h|
  {
    var n := |h| - 1;
    var ss, e := After(h[..n], b), h[n];
    EveryRunIsDistinct(h[..n], b);
    StepKeepsTheOrder(ss, e, b, i, j);
    var x, y := After(h, b)[i].sessionId, After(h, b)[j].sessionId;
    if Has(ss, y) {
      OldestSessionFirst(h[..n], b, Index(ss, x), Index(ss, y));
    }
  }

  /** A new session comes last, and the others keep their order. */
  lemma StepKeepsTheOrder(ss: seq<Session>, e: Event, b: Bounds, i: nat, j: nat)
    requires Positive(b) && Distinct(ss) && |ss| <= b.maxSessions && i < j < |Step(ss, e, b)|
    ensures var x, y := Step(ss, e, b)[i].sessionId, Step(ss, e, b)[j].sessionId;
      Has(ss, x) && (Has(ss, y) ==> Index(ss, x) < Index(ss, y))
  {
    match e {
      case Clear =>
      case ClearSession(gone) =>
        DeletedInOrder(ss, gone, i, j);
      case _ =>
        StepKeepsPlaces(ss, e, b, i);
        StepKeepsPlaces(ss, e, b, j);
        GrownInOrder(ss, e.sessionId, b, i, j);
    }
  }

  lemma StepKeepsPlaces(ss: seq<Session>, e: Event, b: Bounds, i: nat)
    requires Positive(b) && (e.RoleKnown? || e.TextArrived?) && i < |Step(ss, e, b)|
    ensures |Step(ss, e, b)| == |WithSession(ss, e.sessionId, b)|
    ensures Step(ss, e, b)[i].sessionId == WithSession(ss, e.sessionId, b)[i].sessionId
  {
    WithSessionHas(ss, e.sessionId, b);
  }

  lemma GrownInOrder(ss: seq<Session>, added: string, b: Bounds, i: nat, j: nat)
    requires Positive(b) && Distinct(ss) && |ss| <= b.maxSessions && i < j < |WithSession(ss, added, b)|
    ensures var x, y := WithSession(ss, added, b)[i].sessionId, WithSession(ss, added, b)[j].sessionId;
      Has(ss, x) && (Has(ss, y) ==> Index(ss, x) < Index(ss, y))
  {
    var grown := WithSession(ss, added, b);
    var d := |ss| + (if Has(ss, added) then 0 else 1) - |grown|;
    assert grown[i] == ss[i + d];
    RecordsAt(ss, i + d);
    if j + d < |ss| {
      assert grown[j] == ss[j + d];
      RecordsAt(ss, j + d);
    }
  }

  lemma {:induction false} DeletedInOrder(ss: seq<Session>, gone: string, i: nat, j: nat)
    requires Distinct(ss) && i < j < |Deleted(ss, gone)|
    ensures var x, y := Deleted(ss, gone)[i].sessionId, Deleted(ss, gone)[j].sessionId;
      Has(ss, x) && Has(ss, y) && Index(ss, x) < Index(ss, y)
    decreases |ss|
  {
    var n := |ss| - 1;
    var d := Deleted(ss[..n], gone);
    assert ss[n].sessionId != gone ==> Deleted(ss, gone) == d + [ss[n]];
    DeletedMeans(ss[..n], gone, d[i]);
    var p :| 0 <= p < n && ss[p] == d[i];
    RecordsAt(ss, p);
    if j < |d| {
      DeletedInOrder(ss[..n], gone, i, j);
      DeletedMeans(ss[..n], gone, d[j]);
      var q :| 0 <= q < n && ss[q] == d[j];
      RecordsAt(ss, q);
      RecordsAt(ss[..n], p);
      RecordsAt(ss[..n], q);
    } else {
      RecordsAt(ss, n);
    }
  }
}
