/** What a push message says of its event: the end of its title tells what happened, and
    its body carries the event's own texts. */
module PushText {
  import opened Prelude
  import opened PushCompaction

  // ------------------------------------------------------------------------- titles

  /** The event is what this label announces. */
  predicate Announces(spoken: string, p: Payload) {
    || (spoken == "任务已完成" && p.Terminal? && p.outcome == Completed)
    || (spoken == "任务失败" && p.Terminal? && p.outcome == Failed)
    || (spoken == "任务已停止" && p.Terminal? && p.outcome == Stopped)
    || (spoken == "需要回答" && p.Questions?)
    || (spoken == "需要授权" && p.Permission?)
    || (spoken == "需要操作" && p.Provider?)
    || (spoken == "任务进行中" && p.Heartbeat?)
    || (spoken == "操作已处理" && p.Resolved?)
  }

  predicate IsLabel(spoken: string) {
    || spoken in ["任务已完成", "任务失败", "任务已停止", "任务进行中"]
    || spoken in ["需要回答", "需要授权", "需要操作", "操作已处理"]
  }

  predicate EndsWith(s: string, end: string) {
    |end| <= |s| && s[|s| - |end|..] == end
  }

  lemma LastTells(s: string, end: string)
    requires EndsWith(s, end) && end != ""
    ensures s != "" && s[|s| - 1] == end[|end| - 1]
  {
    assert s[|s| - |end|..][|end| - 1] == s[|s| - 1];
  }

  /** No two labels end alike. */
  lemma LabelsEndDifferently(a: string, b: string)
    requires IsLabel(a) && IsLabel(b)
    ensures a != "" && b != "" && (a[|a| - 1] == b[|b| - 1] ==> a == b)
  {
  }

  lemma OneLabelAnnounces(p: Payload, spoken: string)
    ensures IsLabel(StatusLabel(p))
    ensures Announces(spoken, p) <==> spoken == StatusLabel(p)
  {
  }

  lemma TitleEndsWithItsLabel(e: Event, d: Display)
    ensures EndsWith(FullTitle(e, d), StatusLabel(e.payload))
  {
    var machine, title := d.trimmed(e.source.machine), d.trimmed(e.session.title);
    var front := (if machine == "" then "unknown" else machine)
      + " · " + d.directoryOf(e.source.directory)
      + " · " + (if title == "" || title == e.session.id then "未命名会话" else title)
      + " · ";
    assert FullTitle(e, d) == front + StatusLabel(e.payload);
  }

  /** A title ends with a label exactly when the event is what the label announces. */
  lemma TitleTellsWhatHappened(e: Event, d: Display, spoken: string)
    requires IsLabel(spoken)
    ensures EndsWith(FullTitle(e, d), spoken) <==> Announces(spoken, e.payload)
  {
    var own := StatusLabel(e.payload);
    OneLabelAnnounces(e.payload, spoken);
    LabelsEndDifferently(spoken, own);
    TitleEndsWithItsLabel(e, d);
    if EndsWith(FullTitle(e, d), spoken) {
      LastTells(FullTitle(e, d), spoken);
      LastTells(FullTitle(e, d), own);
    }
  }

  // ----------------------------------------------------------------- parts of a text

  ghost predicate Within(part: string, whole: string) {
    exists i: nat :: IsAt(part, whole, i)
  }

  predicate IsAt(part: string, whole: string, i: nat) {
    i + |part| <= |whole| && whole[i..i + |part|] == part
  }

  lemma WithinPlus(part: string, a: string, b: string)
    requires Within(part, a) || Within(part, b)
    ensures Within(part, a + b)
  {
    if i: nat :| IsAt(part, a, i) {
      assert (a + b)[i..i + |part|] == a[i..i + |part|];
      assert IsAt(part, a + b, i);
    } else {
      var j: nat :| IsAt(part, b, j);
      assert (a + b)[|a| + j..|a| + j + |part|] == b[j..j + |part|];
      assert IsAt(part, a + b, |a| + j);
    }
  }

  lemma WithinItself(s: string)
    ensures Within(s, s)
  {
    assert s[0..|s|] == s;
    assert IsAt(s, s, 0);
  }

  lemma {:induction false} WithinJoin(parts: seq<string>, sep: string, k: nat, part: string)
    requires k < |parts| && Within(part, parts[k])
    ensures Within(part, Join(parts, sep))
    decreases |parts|
  {
    if |parts| > 1 {
      if k > 0 {
        WithinJoin(parts[1..], sep, k - 1, part);
      } else {
        WithinPlus(part, parts[0], sep);
      }
      WithinPlus(part, parts[0] + sep, Join(parts[1..], sep));
    }
  }

  /** What a title names: the machine, the directory and the session, each by what there
      is to call it. */
  predicate Names(e: Event, d: Display, text: string) {
    var machine, title := d.trimmed(e.source.machine), d.trimmed(e.session.title);
    || (text == machine && machine != "")
    || (text == "unknown" && machine == "")
    || text == d.directoryOf(e.source.directory)
    || (text == title && title != "" && title != e.session.id)
    || (text == "未命名会话" && (title == "" || title == e.session.id))
  }

  /** A title carries all that it names. */
  lemma TitleNamesWhereItHappened(e: Event, d: Display, text: string)
    requires Names(e, d, text)
    ensures Within(text, FullTitle(e, d))
  {
    var machine, title := d.trimmed(e.source.machine), d.trimmed(e.session.title);
    var parts := [if machine == "" then "unknown" else machine, d.directoryOf(e.source.directory),
                  if title == "" || title == e.session.id then "未命名会话" else title, StatusLabel(e.payload)];
    WithinItself(text);
    var k := if text == parts[0] then 0 else if text == parts[1] then 1 else 2;
    WithinJoin(parts, " · ", k, text);
    FourJoined(parts, " · ");
  }

  lemma FourJoined(parts: seq<string>, sep: string)
    requires |parts| == 4
    ensures Join(parts, sep) == parts[0] + sep + parts[1] + sep + parts[2] + sep + parts[3]
  {
    var a, b, c := parts[1..], parts[1..][1..], parts[1..][1..][1..];
    assert Join(c, sep) == parts[3];
    assert Join(b, sep) == parts[2] + sep + parts[3];
    assert Join(a, sep) == parts[1] + sep + parts[2] + sep + parts[3];
  }

  // ------------------------------------------------------------------------- bodies

  predicate IsDigit(c: char) {
    '0' <= c <= '9'
  }

  predicate AllDigits(s: string) {
    forall i :: 0 <= i < |s| ==> IsDigit(s[i])
  }

  function Value(s: string): nat
    requires AllDigits(s)
    decreases |s|
  {
    if s == "" then 0 else 10 * Value(s[..|s| - 1]) + (s[|s| - 1] as int - '0' as int)
  }

  lemma LastDigit(n: nat)
    ensures var d := Decimal(n);
      && d != "" && IsDigit(d[|d| - 1]) && d[|d| - 1] as int - '0' as int == n % 10
      && d[..|d| - 1] == if n < 10 then "" else Decimal(n / 10)
  {
    var digits := ['0', '1', '2', '3', '4', '5', '6', '7', '8', '9'];
    assert forall k :: 0 <= k < 10 ==> IsDigit(digits[k]) && digits[k] as int - '0' as int == k;
    assert Decimal(n)[|Decimal(n)| - 1] == digits[n % 10];
  }

  /** A number is written in digits that tell it. */
  lemma {:induction false} DecimalRoundTrip(n: nat)
    ensures AllDigits(Decimal(n)) && Value(Decimal(n)) == n
  {
    LastDigit(n);
    if n >= 10 {
      DecimalRoundTrip(n / 10);
    }
  }

  /** What follows the duration. */
  function TailOf(summary: Option<string>): string {
    " 秒" + (if summary.Some? then "\n" + summary.value else "")
  }

  lemma SameDigits(a: string, s: string, b: string, t: string)
    requires AllDigits(a) && AllDigits(b) && s != "" && t != "" && s[0] == ' ' && t[0] == ' '
    requires a + s == b + t
    ensures a == b && s == t
  {
    var w := a + s;
    assert w[|a|] == ' ' && w[|b|] == ' ';
    assert forall i :: 0 <= i < |a| ==> w[i] == a[i];
    assert forall i :: 0 <= i < |b| ==> w[i] == b[i];
    assert |a| == |b|;
    assert a == w[..|a|] && b == w[..|b|] && s == w[|a|..] && t == w[|b|..];
  }

  lemma TerminalBody(p: Payload)
    requires p.Terminal?
    ensures FullBody(p) == "用时 " + (Decimal(p.elapsedSeconds) + TailOf(p.summary))
  {
  }

  lemma TailsTellApart(x: Option<string>, y: Option<string>)
    ensures TailOf(x) == TailOf(y) ==> x == y
  {
    if TailOf(x) == TailOf(y) {
      assert |TailOf(x)| == if x.Some? then 3 + |x.value| else 2;
      assert |TailOf(y)| == if y.Some? then 3 + |y.value| else 2;
      if x.Some? && y.Some? {
        assert x.value == TailOf(x)[3..] && y.value == TailOf(y)[3..];
      }
    }
  }

  lemma SameRest(prefix: string, a: string, b: string)
    requires prefix + a == prefix + b
    ensures a == b
  {
    assert a == (prefix + a)[|prefix|..] && b == (prefix + b)[|prefix|..];
  }

  /** The body of a terminal tells its duration and its summary, and whether it has one. */
  lemma TerminalBodiesTellApart(p: Payload, q: Payload)
    requires p.Terminal? && q.Terminal?
    ensures FullBody(p) == FullBody(q) <==> p.elapsedSeconds == q.elapsedSeconds && p.summary == q.summary
  {
    if FullBody(p) == FullBody(q) {
      TerminalBody(p);
      TerminalBody(q);
      var x, y := Decimal(p.elapsedSeconds), Decimal(q.elapsedSeconds);
      SameRest("用时 ", x + TailOf(p.summary), y + TailOf(q.summary));
      DecimalRoundTrip(p.elapsedSeconds);
      DecimalRoundTrip(q.elapsedSeconds);
      SameDigits(x, TailOf(p.summary), y, TailOf(q.summary));
      TailsTellApart(p.summary, q.summary);
    }
  }

  /** The texts that the body of a request for action shows. */
  ghost predicate Shows(p: Payload, text: string) {
    match p
    case Questions(_, questions) =>
      exists i: nat, k: nat :: ShowsAt(questions, text, i, k)
    case Permission(_, permission, section) => text == permission || text == section
    case Provider(_, _, _, message, _, _) => text == message
    case _ => false
  }

  /** The text of one of the first three questions, or a caption offered with it. */
  predicate ShowsAt(questions: seq<Question>, text: string, i: nat, k: nat) {
    && i < 3 && i < |questions|
    && (text == questions[i].question
        || (questions[i].options.Some? && k < |questions[i].options.value|
            && text == questions[i].options.value[k].caption))
  }

  lemma {:induction false} LinesHold(qs: seq<Question>, i: nat, text: string)
    requires i < |qs| && exists j :: 0 <= j < |LinesOf(qs[i])| && Within(text, LinesOf(qs[i])[j])
    ensures exists j :: 0 <= j < |Lines(qs)| && Within(text, Lines(qs)[j])
    decreases |qs|
  {
    var first := LinesOf(qs[0]);
    if i == 0 {
      var j :| 0 <= j < |first| && Within(text, first[j]);
      assert Lines(qs)[j] == first[j];
    } else {
      LinesHold(qs[1..], i - 1, text);
      var j :| 0 <= j < |Lines(qs[1..])| && Within(text, Lines(qs[1..])[j]);
      assert Lines(qs)[|first| + j] == Lines(qs[1..])[j];
    }
  }

  lemma ShownIsInItsLines(q: Question, text: string, k: nat)
    requires text == q.question || (q.options.Some? && k < |q.options.value| && text == q.options.value[k].caption)
    ensures exists j :: 0 <= j < |LinesOf(q)| && Within(text, LinesOf(q)[j])
  {
    if text == q.question {
      WithinItself(text);
      assert LinesOf(q)[0] == text;
    } else {
      var captions := Captions(q.options.value);
      WithinItself(text);
      WithinJoin(captions, "、", k, text);
      WithinPlus(text, "选项：", Join(captions, "、"));
      assert LinesOf(q)[1] == "选项：" + Join(captions, "、");
    }
  }

  lemma QuestionBodyHolds(qs: seq<Question>, text: string, i: nat, k: nat)
    requires ShowsAt(qs, text, i, k)
    ensures Within(text, QuestionBody(qs))
  {
    var shown := if |qs| <= 3 then qs else qs[..3];
    var more := |qs| - |shown|;
    var all := Lines(shown) + (if more > 0 then ["还有 " + Decimal(more) + " 个问题"] else []);
    ShownIsInItsLines(shown[i], text, k);
    LinesHold(shown, i, text);
    var j :| 0 <= j < |Lines(shown)| && Within(text, Lines(shown)[j]);
    assert all[j] == Lines(shown)[j];
    WithinJoin(all, "\n", j, text);
  }

  /** The body of a request for action carries every text it is to show: the first three
      questions with what they offer, the permission and its summary, the message. */
  lemma BodyCarriesItsTexts(p: Payload, text: string)
    requires Shows(p, text)
    ensures Within(text, FullBody(p))
  {
    WithinItself(text);
    match p
    case Questions(_, questions) =>
      var i: nat, k: nat :| ShowsAt(questions, text, i, k);
      QuestionBodyHolds(questions, text, i, k);
    case Permission(_, permission, section) =>
      if text == permission {
        WithinPlus(text, "请求权限：", permission);
        WithinPlus(text, "请求权限：" + permission, "\n");
        WithinPlus(text, "请求权限：" + permission + "\n", section);
      } else {
        WithinPlus(text, "请求权限：" + permission + "\n", section);
      }
    case Provider(_, _, _, message, _, _) =>
  }

  lemma {:induction false} JoinEndsWithLast(parts: seq<string>, sep: string)
    requires parts != []
    ensures EndsWith(Join(parts, sep), parts[|parts| - 1])
    decreases |parts|
  {
    if |parts| > 1 {
      JoinEndsWithLast(parts[1..], sep);
      var rest, last := Join(parts[1..], sep), parts[|parts| - 1];
      assert parts[1..][|parts[1..]| - 1] == last;
      assert Join(parts, sep) == (parts[0] + sep) + rest;
      assert Join(parts, sep)[|Join(parts, sep)| - |last|..] == rest[|rest| - |last|..];
    }
  }

  /** Beyond three, the body ends with the number of questions it does not show. */
  lemma FurtherQuestionsAreCounted(questions: seq<Question>)
    requires |questions| > 3
    ensures EndsWith(QuestionBody(questions), "还有 " + Decimal(|questions| - 3) + " 个问题")
  {
    var last := "还有 " + Decimal(|questions| - 3) + " 个问题";
    var all := Lines(questions[..3]) + [last];
    assert all[|all| - 1] == last;
    JoinEndsWithLast(all, "\n");
  }
}
