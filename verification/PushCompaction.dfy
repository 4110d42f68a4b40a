/** The push message of an event, and how it is made to fit its budget. Texts are
    sequences of code points; how a directory is shortened for display and how blanks
    are trimmed is left open. */
module PushCompaction {
  import opened Prelude

  // ---------------------------------------------------------------------------- events

  datatype Source = Source(machine: string, project: string, directory: string)

  datatype SessionRef = SessionRef(id: string, title: string)

  datatype Choice = Choice(caption: string, description: Option<string>)

  datatype Question = Question(question: string, options: Option<seq<Choice>>, multiple: Option<bool>)

  datatype Outcome = Completed | Failed | Stopped

  datatype Payload =
    | Heartbeat(status: string, elapsed: nat)
    | Terminal(outcome: Outcome, elapsedSeconds: nat, summary: Option<string>)
    | Questions(requestId: string, questions: seq<Question>)
    | Permission(requestId: string, permission: string, section: string)
    | Provider(requestId: string, provider: string, title: string, message: string, caption: string, link: Option<string>)
    | Resolved(requestId: string, kind: string)

  datatype Event = Event(eventId: string, occurredAt: string, source: Source, session: SessionRef, payload: Payload)

  predicate ActionRequired(e: Event) {
    e.payload.Questions? || e.payload.Permission? || e.payload.Provider?
  }

  // ------------------------------------------------------------------------------ text

  function Join(parts: seq<string>, sep: string): string
    decreases |parts|
  {
    if parts == [] then ""
    else if |parts| == 1 then parts[0]
    else parts[0] + sep + Join(parts[1..], sep)
  }

  function Decimal(n: nat): string {
    (if n < 10 then "" else Decimal(n / 10)) + [['0', '1', '2', '3', '4', '5', '6', '7', '8', '9'][n % 10]]
  }

  /** The bytes of a code point in UTF-8. */
  function Width(c: char): nat {
    var code := c as int;
    if code < 0x80 then 1 else if code < 0x800 then 2 else if code < 0x1_0000 then 3 else 4
  }

  function Utf8Bytes(s: string): nat
    decreases |s|
  {
    if s == "" then 0 else Width(s[0]) + Utf8Bytes(s[1..])
  }

  function HexDigit(d: nat): char
    requires d < 16
  {
    ['0', '1', '2', '3', '4', '5', '6', '7', '8', '9', 'a', 'b', 'c', 'd', 'e', 'f'][d]
  }

  /** A code point inside a JSON string. */
  function EscapedChar(c: char): string {
    var code := c as int;
    if c == '"' then "\\\""
    else if c == '\\' then "\\\\"
    else if code == 8 then "\\b"
    else if code == 12 then "\\f"
    else if c == '\n' then "\\n"
    else if c == '\r' then "\\r"
    else if c == '\t' then "\\t"
    else if code < 0x20 then "\\u00" + [HexDigit(code / 16), HexDigit(code % 16)]
    else [c]
  }

  function FlatMap(f: char -> string, s: string): string
    decreases |s|
  {
    if s == "" then "" else f(s[0]) + FlatMap(f, s[1..])
  }

  function Escaped(s: string): string {
    FlatMap(EscapedChar, s)
  }

  function Quoted(s: string): string {
    "\"" + Escaped(s) + "\""
  }

  // ------------------------------------------------------------------------ serializing

  /** A member of an object; the names are plain words. */
  function Member(name: string, value: string): string {
    "\"" + name + "\":" + value
  }

  function Optional(name: string, value: Option<string>): seq<string> {
    if value.Some? then [Member(name, Quoted(value.value))] else []
  }

  function Object(members: seq<string>): string {
    "{" + Join(members, ",") + "}"
  }

  function Array(items: seq<string>): string {
    "[" + Join(items, ",") + "]"
  }

  function ChoiceJson(c: Choice): string {
    Object([Member("label", Quoted(c.caption))] + Optional("description", c.description))
  }

  function ChoicesJson(cs: seq<Choice>): seq<string> {
    seq(|cs|, i requires 0 <= i < |cs| => ChoiceJson(cs[i]))
  }

  function QuestionJson(q: Question): string {
    Object([Member("question", Quoted(q.question))]
           + (if q.options.Some? then [Member("options", Array(ChoicesJson(q.options.value)))] else [])
           + (if q.multiple.Some? then [Member("multiple", if q.multiple.value then "true" else "false")] else []))
  }

  function QuestionsJson(qs: seq<Question>): seq<string> {
    seq(|qs|, i requires 0 <= i < |qs| => QuestionJson(qs[i]))
  }

  function OutcomeName(o: Outcome): string {
    match o
    case Completed => "\"completed\""
    case Failed => "\"failed\""
    case Stopped => "\"stopped\""
  }

  function TypeName(p: Payload): string {
    match p
    case Heartbeat(_, _) => "\"heartbeat\""
    case Terminal(_, _, _) => "\"terminal\""
    case Resolved(_, _) => "\"action_resolved\""
    case _ => "\"action_required\""
  }

  function PayloadJson(p: Payload): string {
    match p
    case Heartbeat(status, elapsed) =>
      Object([Member("status", Quoted(status)), Member("elapsedSeconds", Decimal(elapsed))])
    case Terminal(outcome, elapsed, summary) =>
      Object([Member("outcome", OutcomeName(outcome)), Member("elapsedSeconds", Decimal(elapsed))]
             + Optional("summary", summary))
    case Questions(id, questions) =>
      Object([Member("requestId", Quoted(id)), Member("kind", "\"question\""),
              Member("questions", Array(QuestionsJson(questions)))])
    case Permission(id, permission, section) =>
      Object([Member("requestId", Quoted(id)), Member("kind", "\"permission\""),
              Member("permission", Object([Member("permission", Quoted(permission)), Member("summary", Quoted(section))]))])
    case Provider(id, provider, title, message, caption, link) =>
      Object([Member("requestId", Quoted(id)), Member("kind", "\"provider_action\""),
              Member("providerAction",
                     Object([Member("provider", Quoted(provider)), Member("title", Quoted(title)),
                             Member("message", Quoted(message)), Member("label", Quoted(caption))]
                            + Optional("link", link)))])
    case Resolved(id, kind) => Object([Member("requestId", Quoted(id)), Member("kind", Quoted(kind))])
  }

  function EventJson(e: Event): string {
    Object([Member("eventId", Quoted(e.eventId)),
            Member("type", TypeName(e.payload)),
            Member("occurredAt", Quoted(e.occurredAt)),
            Member("source", Object([Member("machine", Quoted(e.source.machine)),
                                     Member("project", Quoted(e.source.project)),
                                     Member("directory", Quoted(e.source.directory))])),
            Member("session", Object([Member("id", Quoted(e.session.id)), Member("title", Quoted(e.session.title))])),
            Member("payload", PayloadJson(e.payload))])
  }

  /** The serialized message, around its three texts already escaped. */
  function Wrapped(title: string, body: string, dataEvent: string): string {
    "{\"notification\":{\"title\":\"" + title + "\",\"body\":\"" + body
    + "\"},\"data\":{\"event\":\"" + dataEvent + "\"}}"
  }

  function MeasureMessage(title: string, body: string, dataEvent: string): nat {
    Utf8Bytes(Wrapped(Escaped(title), Escaped(body), Escaped(dataEvent)))
  }

  // ------------------------------------------------------------------------ compaction

  datatype Caps = Caps(text: nat, section: nat, title: nat, body: nat)

  const FCM_MESSAGE_BUDGET_BYTES: nat := 3600

  const INITIAL_CAPS := Caps(500, 300, 100, 200)

  const FLOOR := Caps(1, 1, 1, 1)

  const LAST_PASS: nat := 8

  function Half(n: nat): nat {
    if n / 2 < 1 then 1 else n / 2
  }

  function Halved(c: Caps): Caps {
    Caps(Half(c.text), Half(c.section), Half(c.title), Half(c.body))
  }

  function CompactChoices(cs: seq<Choice>, caps: Caps): seq<Choice> {
    seq(|cs|, i requires 0 <= i < |cs| => Choice(Truncate(cs[i].caption, caps.text), None))
  }

  function CompactQuestion(q: Question, caps: Caps): Question {
    q.(question := Truncate(q.question, caps.text),
       options := if q.options.Some? then Some(CompactChoices(q.options.value, caps)) else None)
  }

  function CompactQuestions(qs: seq<Question>, caps: Caps): seq<Question> {
    seq(|qs|, i requires 0 <= i < |qs| => CompactQuestion(qs[i], caps))
  }

  function CompactEvent(e: Event, caps: Caps): Event {
    match e.payload
    case Terminal(_, _, _) => e.(payload := e.payload.(summary := None))
    case Questions(id, questions) => e.(payload := Questions(id, CompactQuestions(questions, caps)))
    case Permission(_, _, section) => e.(payload := e.payload.(section := Truncate(section, caps.section)))
    case Provider(_, _, _, message, _, _) => e.(payload := e.payload.(message := Truncate(message, caps.section)))
    case _ => e
  }

  /** What the display text makes of a directory, and of blanks around a text. */
  datatype Display = Display(directoryOf: string -> string, trimmed: string -> string)

  function StatusLabel(p: Payload): string {
    match p
    case Terminal(Completed, _, _) => "任务已完成"
    case Terminal(Failed, _, _) => "任务失败"
    case Terminal(Stopped, _, _) => "任务已停止"
    case Questions(_, _) => "需要回答"
    case Permission(_, _, _) => "需要授权"
    case Provider(_, _, _, _, _, _) => "需要操作"
    case Heartbeat(_, _) => "任务进行中"
    case Resolved(_, _) => "操作已处理"
  }

  function FullTitle(e: Event, d: Display): string {
    var machine, title := d.trimmed(e.source.machine), d.trimmed(e.session.title);
    (if machine == "" then "unknown" else machine)
    + " · " + d.directoryOf(e.source.directory)
    + " · " + (if title == "" || title == e.session.id then "未命名会话" else title)
    + " · " + StatusLabel(e.payload)
  }

  function Captions(cs: seq<Choice>): seq<string> {
    seq(|cs|, i requires 0 <= i < |cs| => cs[i].caption)
  }

  /** The lines one question takes. */
  function LinesOf(q: Question): seq<string> {
    [q.question]
    + (if q.options.Some? && q.options.value != [] then ["选项：" + Join(Captions(q.options.value), "、")] else [])
  }

  function Lines(qs: seq<Question>): seq<string>
    decreases |qs|
  {
    if qs == [] then [] else LinesOf(qs[0]) + Lines(qs[1..])
  }

  function QuestionBody(qs: seq<Question>): string {
    var shown := if |qs| <= 3 then qs else qs[..3];
    var more := |qs| - |shown|;
    Join(Lines(shown) + (if more > 0 then ["还有 " + Decimal(more) + " 个问题"] else []), "\n")
  }

  /** The notification body before it is cut to its cap. */
  function FullBody(p: Payload): string {
    match p
    case Terminal(_, elapsed, summary) =>
      "用时 " + Decimal(elapsed) + " 秒" + (if summary.Some? then "\n" + summary.value else "")
    case Questions(_, questions) => QuestionBody(questions)
    case Permission(_, permission, section) => "请求权限：" + permission + "\n" + section
    case Provider(_, _, _, message, _, _) => message
    case _ => ""
  }

  datatype Content = Content(title: string, body: string, dataEvent: string)

  /** Heartbeats and resolutions are never pushed; the source covers them all the same. */
  predicate Silent(p: Payload) {
    p.Heartbeat? || p.Resolved?
  }

  function TitleOf(candidate: Event, caps: Caps, d: Display): string {
    if Silent(candidate.payload) then "OpenCode" else Truncate(FullTitle(candidate, d), caps.title)
  }

  function BodyOf(candidate: Event, caps: Caps): string {
    if Silent(candidate.payload) then "" else Truncate(FullBody(candidate.payload), caps.body)
  }

  /** The content of one pass: the candidate event, described within the caps. */
  function Describe(candidate: Event, caps: Caps, d: Display): Content {
    Content(TitleOf(candidate, caps, d), BodyOf(candidate, caps), EventJson(candidate))
  }

  function CapsAt(k: nat): Caps {
    if k == 0 then INITIAL_CAPS else Halved(CapsAt(k - 1))
  }

  function CandidateAt(e: Event, k: nat): Event {
    if k == 0 then e else CompactEvent(e, CapsAt(k))
  }

  /** The k-th pass of the halving schedule. */
  function PassAt(e: Event, d: Display, k: nat): Content {
    Describe(CandidateAt(e, k), CapsAt(k), d)
  }

  function Measure(c: Content): nat {
    MeasureMessage(c.title, c.body, c.dataEvent)
  }

  predicate Fits(c: Content) {
    Measure(c) <= FCM_MESSAGE_BUDGET_BYTES
  }

  // ---------------------------------------------------------------- what a text costs

  /** The bytes a text takes inside a JSON string. */
  function Cost(s: string): nat {
    Utf8Bytes(Escaped(s))
  }

  lemma {:induction false} BytesConcat(a: string, b: string)
    ensures Utf8Bytes(a + b) == Utf8Bytes(a) + Utf8Bytes(b)
    decreases |a|
  {
    if a == "" {
      assert a + b == b;
    } else {
      BytesConcat(a[1..], b);
      assert (a + b)[1..] == a[1..] + b;
    }
  }

  lemma {:induction false} FlatMapConcat(f: char -> string, a: string, b: string)
    ensures FlatMap(f, a + b) == FlatMap(f, a) + FlatMap(f, b)
    decreases |a|
  {
    if a == "" {
      assert a + b == b;
    } else {
      FlatMapConcat(f, a[1..], b);
      assert (a + b)[1..] == a[1..] + b;
    }
  }

  lemma EscapedConcat(a: string, b: string)
    ensures Escaped(a + b) == Escaped(a) + Escaped(b)
  {
    FlatMapConcat(EscapedChar, a, b);
  }

  lemma CostConcat(a: string, b: string)
    ensures Cost(a + b) == Cost(a) + Cost(b)
  {
    EscapedConcat(a, b);
    BytesConcat(Escaped(a), Escaped(b));
  }

  lemma CheaperConcat(a: string, b: string, c: string, d: string)
    requires Cost(a) <= Cost(c) && Cost(b) <= Cost(d)
    ensures Cost(a + b) <= Cost(c + d)
  {
    CostConcat(a, b);
    CostConcat(c, d);
  }

  lemma PrefixIsCheaper(a: string, b: string)
    requires a <= b
    ensures Cost(a) <= Cost(b)
  {
    assert b == a + b[|a|..];
    CostConcat(a, b[|a|..]);
  }

  lemma QuotedPrefixIsCheaper(a: string, b: string)
    requires a <= b
    ensures Cost(Quoted(a)) <= Cost(Quoted(b))
  {
    assert b == a + b[|a|..];
    EscapedConcat(a, b[|a|..]);
    PrefixIsCheaper(Escaped(a), Escaped(b));
    CheaperConcat("\"", Escaped(a), "\"", Escaped(b));
    CheaperConcat("\"" + Escaped(a), "\"", "\"" + Escaped(b), "\"");
  }

  lemma MemberCheaper(name: string, a: string, b: string)
    requires Cost(a) <= Cost(b)
    ensures Cost(Member(name, a)) <= Cost(Member(name, b))
  {
    var key := "\"" + name + "\":";
    CheaperConcat(key, a, key, b);
  }

  ghost predicate AllCheaper(a: seq<string>, b: seq<string>) {
    |a| == |b| && forall i :: 0 <= i < |a| ==> Cost(a[i]) <= Cost(b[i])
  }

  lemma {:induction false} JoinCheaper(a: seq<string>, b: seq<string>, sep: string)
    requires AllCheaper(a, b)
    ensures Cost(Join(a, sep)) <= Cost(Join(b, sep))
    decreases |a|
  {
    if |a| > 1 {
      JoinCheaper(a[1..], b[1..], sep);
      CheaperConcat(a[0], sep, b[0], sep);
      CheaperConcat(a[0] + sep, Join(a[1..], sep), b[0] + sep, Join(b[1..], sep));
    }
  }

  lemma {:induction false} JoinLonger(a: seq<string>, x: string, sep: string)
    ensures Cost(Join(a, sep)) <= Cost(Join(a + [x], sep))
    decreases |a|
  {
    if |a| == 1 {
      assert (a + [x])[1..] == [x];
      CostConcat(a[0] + sep, x);
      CostConcat(a[0], sep);
    } else if |a| > 1 {
      JoinLonger(a[1..], x, sep);
      assert (a + [x])[1..] == a[1..] + [x];
      CheaperConcat(a[0] + sep, Join(a[1..], sep), a[0] + sep, Join(a[1..] + [x], sep));
    } else {
      assert Join(a, sep) == "";
    }
  }

  lemma ObjectCheaper(a: seq<string>, b: seq<string>)
    requires Cost(Join(a, ",")) <= Cost(Join(b, ","))
    ensures Cost(Object(a)) <= Cost(Object(b)) && Cost(Array(a)) <= Cost(Array(b))
  {
    CheaperConcat("{", Join(a, ","), "{", Join(b, ","));
    CheaperConcat("{" + Join(a, ","), "}", "{" + Join(b, ","), "}");
    CheaperConcat("[", Join(a, ","), "[", Join(b, ","));
    CheaperConcat("[" + Join(a, ","), "]", "[" + Join(b, ","), "]");
  }

  lemma ListCheaper(a: seq<string>, b: seq<string>)
    requires AllCheaper(a, b)
    ensures Cost(Object(a)) <= Cost(Object(b)) && Cost(Array(a)) <= Cost(Array(b))
  {
    JoinCheaper(a, b, ",");
    ObjectCheaper(a, b);
  }

  // -------------------------------------------------- shorter events, cheaper messages

  ghost predicate ChoiceBelow(a: Choice, b: Choice) {
    a.caption <= b.caption && (a.description == b.description || a.description.None?)
  }

  ghost predicate ChoicesBelow(a: seq<Choice>, b: seq<Choice>) {
    |a| == |b| && forall i :: 0 <= i < |a| ==> ChoiceBelow(a[i], b[i])
  }

  ghost predicate QuestionBelow(a: Question, b: Question) {
    && a.question <= b.question && a.multiple == b.multiple
    && (a.options.Some? <==> b.options.Some?)
    && (a.options.Some? ==> ChoicesBelow(a.options.value, b.options.value))
  }

  ghost predicate QuestionsBelow(a: seq<Question>, b: seq<Question>) {
    |a| == |b| && forall i :: 0 <= i < |a| ==> QuestionBelow(a[i], b[i])
  }

  /** The same payload with display text cut short, or optional display text dropped. */
  ghost predicate PayloadBelow(a: Payload, b: Payload) {
    match (a, b)
    case (Terminal(o, t, s), Terminal(o', t', s')) => o == o' && t == t' && (s == s' || s.None?)
    case (Questions(id, qs), Questions(id', qs')) => id == id' && QuestionsBelow(qs, qs')
    case (Permission(id, p, s), Permission(id', p', s')) => id == id' && p == p' && s <= s'
    case (Provider(id, p, t, m, c, l), Provider(id', p', t', m', c', l')) =>
      id == id' && p == p' && t == t' && m <= m' && c == c' && l == l'
    case _ => a == b
  }

  /** Identity is untouched: only display text of the payload is shortened or dropped. */
  ghost predicate EventBelow(a: Event, b: Event) {
    && a.eventId == b.eventId && a.occurredAt == b.occurredAt && a.source == b.source && a.session == b.session
    && PayloadBelow(a.payload, b.payload)
  }

  lemma ChoiceJsonCheaper(a: Choice, b: Choice)
    requires ChoiceBelow(a, b)
    ensures Cost(ChoiceJson(a)) <= Cost(ChoiceJson(b))
  {
    var x, y := [Member("label", Quoted(a.caption))], [Member("label", Quoted(b.caption))];
    QuotedPrefixIsCheaper(a.caption, b.caption);
    MemberCheaper("label", Quoted(a.caption), Quoted(b.caption));
    if a.description == b.description {
      ListCheaper(x + Optional("description", a.description), y + Optional("description", b.description));
    } else {
      assert x + Optional("description", a.description) == x;
      JoinCheaper(x, y, ",");
      JoinLonger(y, Member("description", Quoted(b.description.value)), ",");
      ObjectCheaper(x, y + Optional("description", b.description));
    }
  }

  lemma ChoicesJsonCheaper(a: seq<Choice>, b: seq<Choice>)
    requires ChoicesBelow(a, b)
    ensures Cost(Array(ChoicesJson(a))) <= Cost(Array(ChoicesJson(b)))
  {
    forall i | 0 <= i < |a| ensures Cost(ChoicesJson(a)[i]) <= Cost(ChoicesJson(b)[i]) {
      ChoiceJsonCheaper(a[i], b[i]);
    }
    ListCheaper(ChoicesJson(a), ChoicesJson(b));
  }

  lemma QuestionJsonCheaper(a: Question, b: Question)
    requires QuestionBelow(a, b)
    ensures Cost(QuestionJson(a)) <= Cost(QuestionJson(b))
  {
    QuotedPrefixIsCheaper(a.question, b.question);
    MemberCheaper("question", Quoted(a.question), Quoted(b.question));
    if a.options.Some? {
      ChoicesJsonCheaper(a.options.value, b.options.value);
      MemberCheaper("options", Array(ChoicesJson(a.options.value)), Array(ChoicesJson(b.options.value)));
    }
    var x := [Member("question", Quoted(a.question))]
      + (if a.options.Some? then [Member("options", Array(ChoicesJson(a.options.value)))] else [])
      + (if a.multiple.Some? then [Member("multiple", if a.multiple.value then "true" else "false")] else []);
    var y := [Member("question", Quoted(b.question))]
      + (if b.options.Some? then [Member("options", Array(ChoicesJson(b.options.value)))] else [])
      + (if b.multiple.Some? then [Member("multiple", if b.multiple.value then "true" else "false")] else []);
    ListCheaper(x, y);
  }

  lemma QuestionsJsonCheaper(a: seq<Question>, b: seq<Question>)
    requires QuestionsBelow(a, b)
    ensures Cost(Array(QuestionsJson(a))) <= Cost(Array(QuestionsJson(b)))
  {
    forall i | 0 <= i < |a| ensures Cost(QuestionsJson(a)[i]) <= Cost(QuestionsJson(b)[i]) {
      QuestionJsonCheaper(a[i], b[i]);
    }
    ListCheaper(QuestionsJson(a), QuestionsJson(b));
  }

  lemma TerminalJsonCheaper(a: Payload, b: Payload)
    requires a.Terminal? && b.Terminal? && PayloadBelow(a, b)
    ensures Cost(PayloadJson(a)) <= Cost(PayloadJson(b))
  {
    if a != b {
      var x := [Member("outcome", OutcomeName(b.outcome)), Member("elapsedSeconds", Decimal(b.elapsedSeconds))];
      assert x + Optional("summary", None) == x;
      JoinLonger(x, Member("summary", Quoted(b.summary.value)), ",");
      ObjectCheaper(x, x + Optional("summary", b.summary));
    }
  }

  lemma QuestionsPayloadCheaper(a: Payload, b: Payload)
    requires a.Questions? && b.Questions? && PayloadBelow(a, b)
    ensures Cost(PayloadJson(a)) <= Cost(PayloadJson(b))
  {
    QuestionsJsonCheaper(a.questions, b.questions);
    var x, y := Array(QuestionsJson(a.questions)), Array(QuestionsJson(b.questions));
    MemberCheaper("questions", x, y);
    RequestCheaper(b.requestId, "\"question\"", Member("questions", x), Member("questions", y));
  }

  lemma PermissionJsonCheaper(a: Payload, b: Payload)
    requires a.Permission? && b.Permission? && PayloadBelow(a, b)
    ensures Cost(PayloadJson(a)) <= Cost(PayloadJson(b))
  {
    QuotedPrefixIsCheaper(a.section, b.section);
    MemberCheaper("summary", Quoted(a.section), Quoted(b.section));
    var name := Member("permission", Quoted(b.permission));
    var x, y := [name, Member("summary", Quoted(a.section))], [name, Member("summary", Quoted(b.section))];
    ListCheaper(x, y);
    MemberCheaper("permission", Object(x), Object(y));
    RequestCheaper(b.requestId, "\"permission\"", Member("permission", Object(x)), Member("permission", Object(y)));
  }

  lemma RequestCheaper(id: string, kind: string, x: string, y: string)
    requires Cost(x) <= Cost(y)
    ensures Cost(Object([Member("requestId", Quoted(id)), Member("kind", kind), x]))
         <= Cost(Object([Member("requestId", Quoted(id)), Member("kind", kind), y]))
  {
    var a, b := Member("requestId", Quoted(id)), Member("kind", kind);
    ListCheaper([a, b, x], [a, b, y]);
  }

  lemma ProviderJsonCheaper(a: Payload, b: Payload)
    requires a.Provider? && b.Provider? && PayloadBelow(a, b)
    ensures Cost(PayloadJson(a)) <= Cost(PayloadJson(b))
  {
    QuotedPrefixIsCheaper(a.message, b.message);
    MemberCheaper("message", Quoted(a.message), Quoted(b.message));
    var provider, title, caption :=
      Member("provider", Quoted(b.provider)), Member("title", Quoted(b.title)), Member("label", Quoted(b.caption));
    var x := [provider, title, Member("message", Quoted(a.message)), caption] + Optional("link", b.link);
    var y := [provider, title, Member("message", Quoted(b.message)), caption] + Optional("link", b.link);
    ListCheaper(x, y);
    MemberCheaper("providerAction", Object(x), Object(y));
    RequestCheaper(b.requestId, "\"provider_action\"", Member("providerAction", Object(x)),
                   Member("providerAction", Object(y)));
  }

  lemma PayloadJsonCheaper(a: Payload, b: Payload)
    requires PayloadBelow(a, b)
    ensures Cost(PayloadJson(a)) <= Cost(PayloadJson(b))
  {
    match b {
      case Terminal(_, _, _) => TerminalJsonCheaper(a, b);
      case Questions(_, _) => QuestionsPayloadCheaper(a, b);
      case Permission(_, _, _) => PermissionJsonCheaper(a, b);
      case Provider(_, _, _, _, _, _) => ProviderJsonCheaper(a, b);
      case _ =>
    }
  }

  function Members(e: Event, payload: string): seq<string> {
    [Member("eventId", Quoted(e.eventId)),
     Member("type", TypeName(e.payload)),
     Member("occurredAt", Quoted(e.occurredAt)),
     Member("source", Object([Member("machine", Quoted(e.source.machine)),
                              Member("project", Quoted(e.source.project)),
                              Member("directory", Quoted(e.source.directory))])),
     Member("session", Object([Member("id", Quoted(e.session.id)), Member("title", Quoted(e.session.title))])),
     Member("payload", payload)]
  }

  lemma EventJsonCheaper(a: Event, b: Event)
    requires EventBelow(a, b)
    ensures Cost(EventJson(a)) <= Cost(EventJson(b))
  {
    PayloadJsonCheaper(a.payload, b.payload);
    MemberCheaper("payload", PayloadJson(a.payload), PayloadJson(b.payload));
    assert TypeName(a.payload) == TypeName(b.payload);
    assert Members(a, PayloadJson(b.payload)) == Members(b, PayloadJson(b.payload));
    ListCheaper(Members(a, PayloadJson(a.payload)), Members(b, PayloadJson(b.payload)));
  }

  /** The message costs what its three texts cost inside it, and the wrapper. */
  lemma WrappedCosts(x: string, y: string, z: string)
    ensures Utf8Bytes(Wrapped(x, y, z)) == Utf8Bytes(Wrapped("", "", "")) + Utf8Bytes(x) + Utf8Bytes(y) + Utf8Bytes(z)
  {
    PiecesCost("{\"notification\":{\"title\":\"", x, "\",\"body\":\"", y, "\"},\"data\":{\"event\":\"", z, "\"}}");
    PiecesCost("{\"notification\":{\"title\":\"", "", "\",\"body\":\"", "", "\"},\"data\":{\"event\":\"", "", "\"}}");
  }

  lemma PiecesCost(a: string, x: string, b: string, y: string, c: string, z: string, d: string)
    ensures Utf8Bytes(a + x + b + y + c + z + d)
         == Utf8Bytes(a) + Utf8Bytes(b) + Utf8Bytes(c) + Utf8Bytes(d) + Utf8Bytes(x) + Utf8Bytes(y) + Utf8Bytes(z)
  {
    BytesConcat(a + x + b + y + c + z, d);
    BytesConcat(a + x + b + y + c, z);
    BytesConcat(a + x + b + y, c);
    BytesConcat(a + x + b, y);
    BytesConcat(a + x, b);
    BytesConcat(a, x);
  }

  lemma MeasureGrowsWithTexts(a: Content, b: Content)
    requires Cost(a.title) <= Cost(b.title) && Cost(a.body) <= Cost(b.body) && Cost(a.dataEvent) <= Cost(b.dataEvent)
    ensures Measure(a) <= Measure(b)
  {
    WrappedCosts(Escaped(a.title), Escaped(a.body), Escaped(a.dataEvent));
    WrappedCosts(Escaped(b.title), Escaped(b.body), Escaped(b.dataEvent));
  }

  // --------------------------------------------------------- what compaction may change

  predicate CapsBelow(a: Caps, b: Caps) {
    a.text <= b.text && a.section <= b.section && a.title <= b.title && a.body <= b.body
  }

  lemma CompactIsBelow(e: Event, caps: Caps)
    ensures EventBelow(CompactEvent(e, caps), e)
  {
    if e.payload.Questions? {
      forall i | 0 <= i < |e.payload.questions|
        ensures QuestionBelow(CompactQuestions(e.payload.questions, caps)[i], e.payload.questions[i])
      {
        CompactQuestionIsBelow(e.payload.questions[i], caps);
      }
    }
  }

  lemma CompactQuestionIsBelow(q: Question, caps: Caps)
    ensures QuestionBelow(CompactQuestion(q, caps), q)
  {
  }

  lemma CompactIsMonotone(e: Event, a: Caps, b: Caps)
    requires CapsBelow(a, b)
    ensures EventBelow(CompactEvent(e, a), CompactEvent(e, b))
  {
    if e.payload.Questions? {
      var qs := e.payload.questions;
      forall i | 0 <= i < |qs| ensures QuestionBelow(CompactQuestions(qs, a)[i], CompactQuestions(qs, b)[i]) {
        CompactQuestionIsMonotone(qs[i], a, b);
      }
    }
  }

  lemma CompactQuestionIsMonotone(q: Question, a: Caps, b: Caps)
    requires CapsBelow(a, b)
    ensures QuestionBelow(CompactQuestion(q, a), CompactQuestion(q, b))
  {
  }

  lemma {:induction false} CapsShrink(k: nat)
    ensures CapsBelow(CapsAt(k + 1), CapsAt(k)) && CapsBelow(FLOOR, CapsAt(k))
  {
    if k > 0 {
      CapsShrink(k - 1);
    }
  }

  lemma {:induction false} CapsOnlyShrink(j: nat, k: nat)
    requires j <= k
    ensures CapsBelow(CapsAt(k), CapsAt(j))
    decreases k
  {
    if j < k {
      CapsOnlyShrink(j, k - 1);
      CapsShrink(k - 1);
    }
  }

  /** The schedule reaches the floor at the eighth halving, and not before. */
  lemma CapsSchedule()
    ensures CapsAt(LAST_PASS) == FLOOR && forall k :: 0 <= k < LAST_PASS ==> CapsAt(k) != FLOOR
  {
    assert CapsAt(1) == Caps(250, 150, 50, 100);
    assert CapsAt(2) == Caps(125, 75, 25, 50);
    assert CapsAt(3) == Caps(62, 37, 12, 25);
    assert CapsAt(4) == Caps(31, 18, 6, 12);
    assert CapsAt(5) == Caps(15, 9, 3, 6);
    assert CapsAt(6) == Caps(7, 4, 1, 3);
    assert CapsAt(7) == Caps(3, 2, 1, 1);
    assert CapsAt(8) == FLOOR;
  }

  // ----------------------------------------------------------------------- the body

  /** The two texts begin with the same n code points. */
  predicate Agree(n: nat, x: string, y: string) {
    Truncate(x, n) == Truncate(y, n)
  }

  lemma AgreeConcat(n: nat, a: string, b: string, c: string, d: string)
    requires Agree(n, a, c) && Agree(n, b, d)
    ensures Agree(n, a + b, c + d)
  {
    if |a| < n {
      assert a == c;
      var m := n - |a|;
      assert Truncate(b, n)[..if |b| < m then |b| else m] == Truncate(b, m);
      assert Truncate(d, n)[..if |d| < m then |d| else m] == Truncate(d, m);
      assert Truncate(a + b, n) == a + Truncate(b, m);
      assert Truncate(c + d, n) == c + Truncate(d, m);
    } else {
      assert Truncate(a + b, n) == Truncate(a, n);
      assert Truncate(c + d, n) == Truncate(c, n);
    }
  }

  lemma AgreeTruncate(n: nat, s: string, cap: nat)
    requires n <= cap
    ensures Agree(n, Truncate(s, cap), s)
  {
  }

  ghost predicate AllAgree(n: nat, a: seq<string>, b: seq<string>) {
    |a| == |b| && forall i :: 0 <= i < |a| ==> Agree(n, a[i], b[i])
  }

  lemma {:induction false} JoinAgree(n: nat, a: seq<string>, b: seq<string>, sep: string)
    requires AllAgree(n, a, b)
    ensures Agree(n, Join(a, sep), Join(b, sep))
    decreases |a|
  {
    if |a| > 1 {
      JoinAgree(n, a[1..], b[1..], sep);
      AgreeConcat(n, a[0], sep, b[0], sep);
      AgreeConcat(n, a[0] + sep, Join(a[1..], sep), b[0] + sep, Join(b[1..], sep));
    }
  }

  lemma LinesOfAgree(n: nat, q: Question, caps: Caps)
    requires n <= caps.text
    ensures AllAgree(n, LinesOf(CompactQuestion(q, caps)), LinesOf(q))
  {
    AgreeTruncate(n, q.question, caps.text);
    if q.options.Some? && q.options.value != [] {
      var cs := q.options.value;
      var a, b := Captions(CompactChoices(cs, caps)), Captions(cs);
      forall i | 0 <= i < |cs| ensures Agree(n, a[i], b[i]) {
        AgreeTruncate(n, cs[i].caption, caps.text);
      }
      JoinAgree(n, a, b, "、");
      AgreeConcat(n, "选项：", Join(a, "、"), "选项：", Join(b, "、"));
    }
  }

  lemma {:induction false} LinesAgree(n: nat, qs: seq<Question>, caps: Caps)
    requires n <= caps.text
    ensures AllAgree(n, Lines(CompactQuestions(qs, caps)), Lines(qs))
    decreases |qs|
  {
    if qs != [] {
      LinesOfAgree(n, qs[0], caps);
      LinesAgree(n, qs[1..], caps);
      assert CompactQuestions(qs, caps)[1..] == CompactQuestions(qs[1..], caps);
      AllAgreeConcat(n, LinesOf(CompactQuestion(qs[0], caps)), LinesOf(qs[0]),
                     Lines(CompactQuestions(qs[1..], caps)), Lines(qs[1..]));
    }
  }

  lemma AllAgreeConcat(n: nat, a: seq<string>, b: seq<string>, c: seq<string>, d: seq<string>)
    requires AllAgree(n, a, b) && AllAgree(n, c, d)
    ensures AllAgree(n, a + c, b + d)
  {
  }

  lemma QuestionBodyAgrees(n: nat, qs: seq<Question>, caps: Caps)
    requires n <= caps.text
    ensures Agree(n, QuestionBody(CompactQuestions(qs, caps)), QuestionBody(qs))
  {
    var shown := if |qs| <= 3 then qs else qs[..3];
    var cs := CompactQuestions(qs, caps);
    assert (if |cs| <= 3 then cs else cs[..3]) == CompactQuestions(shown, caps);
    LinesAgree(n, shown, caps);
    var more := |qs| - |shown|;
    var tail := if more > 0 then ["还有 " + Decimal(more) + " 个问题"] else [];
    JoinAgree(n, Lines(CompactQuestions(shown, caps)) + tail, Lines(shown) + tail, "\n");
  }

  /** What is asked is cut, never altered: after any compaction whose text and section
      caps are no smaller than its body cap, the body is the uncompacted body cut to
      that cap. */
  lemma BodyIsUncompactedBodyCut(e: Event, caps: Caps)
    requires ActionRequired(e) && caps.body <= caps.text && caps.body <= caps.section
    ensures Truncate(FullBody(CompactEvent(e, caps).payload), caps.body) == Truncate(FullBody(e.payload), caps.body)
  {
    match e.payload {
      case Questions(_, qs) => QuestionBodyAgrees(caps.body, qs, caps);
      case Permission(_, permission, section) =>
        AgreeTruncate(caps.body, section, caps.section);
        var head := "请求权限：" + permission + "\n";
        AgreeConcat(caps.body, head, Truncate(section, caps.section), head, section);
      case Provider(_, _, _, message, _, _) => AgreeTruncate(caps.body, message, caps.section);
    }
  }

  lemma {:induction false} BodyCapIsLeast(k: nat)
    ensures CapsAt(k).body <= CapsAt(k).text && CapsAt(k).body <= CapsAt(k).section
  {
    if k > 0 {
      BodyCapIsLeast(k - 1);
    }
  }

  /** So on every pass. */
  lemma BodyOnEveryPass(e: Event, k: nat)
    requires ActionRequired(e)
    ensures BodyOf(CandidateAt(e, k), CapsAt(k)) == Truncate(FullBody(e.payload), CapsAt(k).body)
  {
    BodyCapIsLeast(k);
    BodyIsUncompactedBodyCut(e, CapsAt(k));
  }

  // ------------------------------------------------------------------------ the passes

  lemma TruncatePrefix(a: string, b: string, m: nat, n: nat)
    requires a <= b && m <= n
    ensures Truncate(a, m) <= Truncate(b, n)
  {
  }

  lemma CandidateShrinks(e: Event, j: nat, k: nat)
    requires j < k
    ensures EventBelow(CandidateAt(e, k), CandidateAt(e, j))
  {
    if j == 0 {
      CompactIsBelow(e, CapsAt(k));
    } else {
      CapsOnlyShrink(j, k);
      CompactIsMonotone(e, CapsAt(k), CapsAt(j));
    }
  }

  lemma BodyShrinks(e: Event, j: nat, k: nat)
    requires j < k
    ensures BodyOf(CandidateAt(e, k), CapsAt(k)) <= BodyOf(CandidateAt(e, j), CapsAt(j))
  {
    CapsOnlyShrink(j, k);
    if ActionRequired(e) {
      BodyOnEveryPass(e, j);
      BodyOnEveryPass(e, k);
      TruncatePrefix(FullBody(e.payload), FullBody(e.payload), CapsAt(k).body, CapsAt(j).body);
    } else if e.payload.Terminal? {
      var a, b := CandidateAt(e, k), CandidateAt(e, j);
      CandidateShrinks(e, j, k);
      TerminalBodyShrinks(a.payload, b.payload);
      TruncatePrefix(FullBody(a.payload), FullBody(b.payload), CapsAt(k).body, CapsAt(j).body);
    }
  }

  lemma TerminalBodyShrinks(a: Payload, b: Payload)
    requires a.Terminal? && PayloadBelow(a, b)
    ensures FullBody(a) <= FullBody(b)
  {
  }

  lemma TitleShrinks(e: Event, d: Display, j: nat, k: nat)
    requires j < k
    ensures TitleOf(CandidateAt(e, k), CapsAt(k), d) <= TitleOf(CandidateAt(e, j), CapsAt(j), d)
  {
    CapsOnlyShrink(j, k);
    CandidateShrinks(e, j, k);
    var a, b := CandidateAt(e, k), CandidateAt(e, j);
    BelowHasSameTitle(a, b, d);
    TruncatePrefix(FullTitle(a, d), FullTitle(b, d), CapsAt(k).title, CapsAt(j).title);
  }

  lemma BelowHasSameTitle(a: Event, b: Event, d: Display)
    requires EventBelow(a, b)
    ensures FullTitle(a, d) == FullTitle(b, d) && (Silent(a.payload) <==> Silent(b.payload))
  {
    assert StatusLabel(a.payload) == StatusLabel(b.payload);
  }

  /** No pass makes the message larger than any pass before it. */
  lemma MessageNeverGrows(e: Event, d: Display, j: nat, k: nat)
    requires j < k
    ensures Measure(PassAt(e, d, k)) <= Measure(PassAt(e, d, j))
  {
    TitleShrinks(e, d, j, k);
    BodyShrinks(e, j, k);
    CandidateShrinks(e, j, k);
    EventJsonCheaper(CandidateAt(e, k), CandidateAt(e, j));
    PrefixIsCheaper(PassAt(e, d, k).title, PassAt(e, d, j).title);
    PrefixIsCheaper(PassAt(e, d, k).body, PassAt(e, d, j).body);
    MeasureGrowsWithTexts(PassAt(e, d, k), PassAt(e, d, j));
  }

  lemma FitCarriesOver(e: Event, d: Display, j: nat, k: nat)
    requires j <= k && Fits(PassAt(e, d, j))
    ensures Fits(PassAt(e, d, k))
  {
    if j < k {
      MessageNeverGrows(e, d, j, k);
    }
  }

  lemma LastPass(e: Event, d: Display, last: nat)
    requires last > 0 && CapsAt(last) == FLOOR
    ensures PassAt(e, d, last) == Describe(CompactEvent(e, FLOOR), FLOOR, d)
  {
  }

  ghost predicate SomePassFits(e: Event, d: Display) {
    exists k :: 0 <= k <= LAST_PASS && Fits(PassAt(e, d, k))
  }

  /** Some pass of the schedule fits exactly when the all-ones compaction does. */
  lemma SomePassFitsExactly(e: Event, d: Display)
    ensures SomePassFits(e, d) <==> Fits(Describe(CompactEvent(e, FLOOR), FLOOR, d))
  {
    var last := LAST_PASS;
    CapsSchedule();
    LastPass(e, d, last);
    if SomePassFits(e, d) {
      var k :| 0 <= k <= LAST_PASS && Fits(PassAt(e, d, k));
      FitCarriesOver(e, d, k, last);
    } else {
      NoneFits(e, d, last);
    }
  }

  lemma NoneFits(e: Event, d: Display, k: nat)
    requires k <= LAST_PASS && !SomePassFits(e, d)
    ensures !Fits(PassAt(e, d, k))
  {
  }

  /** Whatever pass is sent, the event in it is the one that happened, with its display
      text cut short but never to nothing. */
  lemma IdentityIsUntouched(e: Event, k: nat)
    ensures EventBelow(CandidateAt(e, k), e)
    ensures e.payload.Questions? ==> forall i :: 0 <= i < |e.payload.questions| && e.payload.questions[i].question != "" ==>
      CandidateAt(e, k).payload.questions[i].question != ""
    ensures e.payload.Permission? && e.payload.section != "" ==> CandidateAt(e, k).payload.section != ""
    ensures e.payload.Provider? && e.payload.message != "" ==> CandidateAt(e, k).payload.message != ""
  {
    CapsShrink(k);
    CompactIsBelow(e, CapsAt(k));
    if e.payload.Questions? {
      forall i | 0 <= i < |e.payload.questions| ensures QuestionBelow(e.payload.questions[i], e.payload.questions[i]) {
      }
    }
  }

  // ------------------------------------------------------------------------- the loop

  /** The first pass of the schedule that fits the budget, and which; none exactly when
      even the all-ones compaction does not fit. */
  method BuildPushContent(event: Event, d: Display) returns (r: Option<Content>, ghost pass: nat)
    ensures r.Some? ==> pass <= LAST_PASS && r.value == PassAt(event, d, pass) && Fits(r.value)
    ensures r.Some? ==> FitsNoEarlier(event, d, pass)
    ensures r.None? <==> !Fits(Describe(CompactEvent(event, FLOOR), FLOOR, d))
  {
    var caps := INITIAL_CAPS;
    var candidate := event;
    pass := 0;
    while true
      invariant pass <= LAST_PASS && caps == CapsAt(pass) && candidate == CandidateAt(event, pass)
      invariant FitsNoEarlier(event, d, pass)
      decreases caps.text + caps.section + caps.title + caps.body
    {
      var content, fits := OnePass(candidate, caps, d);
      CapsGoOn(pass);
      if fits {
        FitMeansFloorFits(event, d, pass);
        return Some(content), pass;
      }
      if caps == FLOOR {
        return None, pass;
      }
      NorThis(event, d, pass, content);
      caps := Halved(caps);
      candidate := CompactEvent(event, caps);
      pass := pass + 1;
    }
  }

  lemma CapsGoOn(k: nat)
    requires k <= LAST_PASS
    ensures CapsAt(k) == FLOOR <==> k == LAST_PASS
    ensures CapsAt(k + 1) == Halved(CapsAt(k))
    ensures var c, h := CapsAt(k), CapsAt(k + 1);
      k < LAST_PASS ==> h.text + h.section + h.title + h.body < c.text + c.section + c.title + c.body
  {
    CapsSchedule();
    CapsShrink(k);
  }

  lemma FitMeansFloorFits(e: Event, d: Display, k: nat)
    requires k <= LAST_PASS && Fits(PassAt(e, d, k))
    ensures Fits(Describe(CompactEvent(e, FLOOR), FLOOR, d))
  {
    assert SomePassFits(e, d);
    SomePassFitsExactly(e, d);
  }

  ghost predicate FitsNoEarlier(e: Event, d: Display, k: nat) {
    forall j :: 0 <= j < k ==> !Fits(PassAt(e, d, j))
  }

  lemma NorThis(e: Event, d: Display, k: nat, content: Content)
    requires FitsNoEarlier(e, d, k) && content == PassAt(e, d, k) && !Fits(content)
    ensures FitsNoEarlier(e, d, k + 1)
  {
  }

  method OnePass(candidate: Event, caps: Caps, d: Display) returns (content: Content, fits: bool)
    ensures content == Describe(candidate, caps, d) && (fits <==> Fits(content))
  {
    content := Describe(candidate, caps, d);
    fits := MeasureMessage(content.title, content.body, content.dataEvent) <= FCM_MESSAGE_BUDGET_BYTES;
  }
}
