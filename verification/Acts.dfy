/**
 The state the graph carries, the act it is about to attempt, and the projections that
 bind an act to the question put about it (`state.py`, and `GraphState` in `graph.py`).

 A member the graph's state has not been given yet is modelled by its falsy value, which is
 the only way any reader of the state looks at it.
 */
module Acts {
  import opened Options

  // -- Python values, as far as this program looks at them ----------------------

  /** A value the model or a caller may put among an act's arguments. The program asks a
      value for its text, whether it is truthy, and whether the wire can carry it. */
  datatype Value =
    | Null
    | Text(s: string)
    | Names(names: seq<string>)
    | Other(shown: string, truthy: bool, carried: bool)

  /** `str(v)`. A list of names is shown the way Python shows a list of plain names. */
  function Shown(v: Value): string {
    match v
    case Null => "None"
    case Text(s) => s
    case Names(ns) => "[" + Quoted(ns) + "]"
    case Other(shown, _, _) => shown
  }

  function Quoted(ns: seq<string>): string {
    if ns == [] then ""
    else if |ns| == 1 then "'" + ns[0] + "'"
    else "'" + ns[0] + "', " + Quoted(ns[1..])
  }

  /** A list is shown in square brackets, each of its names in quotes, with a comma and a space
      between one and the next. */
  lemma AListIsShown(ns: seq<string>, n: string)
    ensures Shown(Names([])) == "[]" && Shown(Names(ns)) == "[" + Quoted(ns) + "]" && Quoted([n]) == "'" + n + "'"
    ensures ns != [] ==> Quoted(ns + [n]) == Quoted(ns) + (", " + Quoted([n]))
  {
    assert [] + [n] == [n];
    if ns != [] { QuotingOneMore(ns, n); }
  }

  lemma {:induction false} QuotingOneMore(ns: seq<string>, n: string)
    requires ns != []
    ensures Quoted(ns + [n]) == Quoted(ns) + (", " + Quoted([n]))
  {
    var first, rest := "'" + ns[0] + "'", ns[1..];
    assert (ns + [n])[0] == ns[0] && (ns + [n])[1..] == rest + [n];
    if rest == [] {
      assert rest + [n] == [n];
      Rejoined("'" + ns[0], "'", ", ", Quoted([n]));
    } else {
      QuotingOneMore(rest, n);
      Rejoined("'" + ns[0] + "', ", Quoted(rest), ", ", Quoted([n]));
    }
  }

  lemma Rejoined(a: string, b: string, c: string, d: string)
    ensures a + (b + (c + d)) == (a + b) + (c + d)
    ensures (a + b) + (c + d) == a + (b + c) + d
  {
  }

  predicate Truthy(v: Value) {
    match v
    case Null => false
    case Text(s) => s != ""
    case Names(ns) => ns != []
    case Other(_, truthy, _) => truthy
  }

  /** Of what the program can name, only nothing, the empty text and the empty list are falsy. */
  lemma OnlyTheEmptyIsFalsy(v: Value)
    requires !v.Other?
    ensures Truthy(v) <==> v != Null && v != Text("") && v != Names([])
  {
  }

  predicate Carried(v: Value) {
    v.Other? ==> v.carried
  }

  /** `v or default` */
  function Or(v: Value, default: string): Value {
    if Truthy(v) then v else Text(default)
  }

  function Get(args: map<string, Value>, key: string, default: Value): Value {
    if key in args then args[key] else default
  }

  /** The characters Python's `str.strip` removes. */
  predicate IsSpace(c: char) {
    var n := c as int;
    || 0x09 <= n <= 0x0D || 0x1C <= n <= 0x20 || n == 0x85 || n == 0xA0 || n == 0x1680
    || 0x2000 <= n <= 0x200A || n == 0x2028 || n == 0x2029 || n == 0x202F || n == 0x205F
    || n == 0x3000
  }

  function StripLeft(s: string): string {
    if s != "" && IsSpace(s[0]) then StripLeft(s[1..]) else s
  }

  function StripRight(s: string): string {
    if s != "" && IsSpace(s[|s| - 1]) then StripRight(s[..|s| - 1]) else s
  }

  function Strip(s: string): string {
    StripRight(StripLeft(s))
  }

  predicate Blank(s: string) {
    forall i :: 0 <= i < |s| ==> IsSpace(s[i])
  }

  lemma {:induction false} StrippingLeft(s: string) returns (pad: string)
    ensures Blank(pad) && s == pad + StripLeft(s)
    ensures StripLeft(s) != "" ==> !IsSpace(StripLeft(s)[0])
  {
    if s != "" && IsSpace(s[0]) {
      var rest := StrippingLeft(s[1..]);
      pad := [s[0]] + rest;
      assert s == [s[0]] + s[1..];
    } else {
      pad := "";
    }
  }

  lemma {:induction false} StrippingRight(s: string) returns (pad: string)
    ensures Blank(pad) && s == StripRight(s) + pad
    ensures StripRight(s) != "" ==> !IsSpace(StripRight(s)[|StripRight(s)| - 1])
  {
    if s != "" && IsSpace(s[|s| - 1]) {
      var rest := StrippingRight(s[..|s| - 1]);
      pad := rest + [s[|s| - 1]];
      assert s == s[..|s| - 1] + [s[|s| - 1]];
    } else {
      pad := "";
    }
  }

  /** Stripping takes the spaces off both ends and nothing else. */
  lemma StrippingTakesTheEndsOff(s: string)
    ensures exists left, right :: Blank(left) && Blank(right) && s == left + Strip(s) + right
    ensures Strip(s) != "" ==> !IsSpace(Strip(s)[0]) && !IsSpace(Strip(s)[|Strip(s)| - 1])
  {
    var left := StrippingLeft(s);
    var right := StrippingRight(StripLeft(s));
    assert s == left + Strip(s) + right;
    if Strip(s) != "" { assert StripLeft(s)[0] == Strip(s)[0]; }
  }

  /** `s.rpartition("@")[2]` */
  function Domain(s: string): string
    decreases |s|
  {
    if '@' !in s then s else Domain(AfterFirst(s))
  }

  function AfterFirst(s: string): (r: string)
    requires '@' in s
    ensures |r| < |s|
  {
    if s[0] == '@' then s[1..] else AfterFirst(s[1..])
  }

  // -- The four tools -----------------------------------------------------------

  datatype Tool = Read | Write | Send | Upload

  function ToolName(t: Tool): string {
    match t
    case Read => "read_documents"
    case Write => "write_internal_report"
    case Send => "send_external_email"
    case Upload => "upload_external"
  }

  function Capability(t: Tool): string {
    match t
    case Read => "documents.read"
    case Write => "report.write.internal"
    case Send => "communications.send.external"
    case Upload => "data.upload.external"
  }

  /** The node a tool name is routed to, and `None` for a name that is not a tool. */
  function ToolNamed(name: string): (t: Option<Tool>)
    ensures t.Some? ==> name == ToolName(t.value)
    ensures t.None? ==> forall u: Tool :: name != ToolName(u)
  {
    if name == ToolName(Read) then Some(Read)
    else if name == ToolName(Write) then Some(Write)
    else if name == ToolName(Send) then Some(Send)
    else if name == ToolName(Upload) then Some(Upload)
    else None
  }

  lemma NamesAndCapabilitiesAreDistinct(t: Tool, u: Tool)
    requires ToolName(t) == ToolName(u) || Capability(t) == Capability(u)
    ensures t == u
  {
    assert |ToolName(Read)| == 14 && |ToolName(Write)| == 21 && |ToolName(Send)| == 19 && |ToolName(Upload)| == 15;
    assert |Capability(Read)| == 14 && |Capability(Write)| == 21;
    assert |Capability(Send)| == 28 && |Capability(Upload)| == 20;
  }

  /** The tools as the model is shown them, each with the capability it is governed under. */
  const TOOLS := map[
    "read_documents" := "documents.read",
    "write_internal_report" := "report.write.internal",
    "send_external_email" := "communications.send.external",
    "upload_external" := "data.upload.external"]

  lemma EveryToolIsItsNamesOnly(name: string)
    ensures name in TOOLS <==> ToolNamed(name).Some?
    ensures name in TOOLS ==> TOOLS[name] == Capability(ToolNamed(name).value)
  {
    assert |"read_documents"| == 14 && |"write_internal_report"| == 21 && |"send_external_email"| == 19 && |"upload_external"| == 15;
    if name in TOOLS {
      assert name == ToolName(Read) || name == ToolName(Write) || name == ToolName(Send) || name == ToolName(Upload);
    }
  }

  const REPORT_FILENAME := "research-report.md"
  const EXTERNAL_SUBJECT := "ResearchOps report"

  // -- The graph's state --------------------------------------------------------

  datatype Call = Call(id: string, name: string, arguments: map<string, Value>)

  /** The act the model has proposed and the graph has committed to attempting. */
  datatype Pending = Pending(callId: string, tool: string, arguments: map<string, Value>, sequence: int)

  datatype Document = Document(name: string, text: string)

  datatype Refusal =
    | BadName(candidate: string)
    | NoReport
    | EmptyCorpus
    | NotAnAddress(recipient: string)

  /** What a tool reports back, by its parts rather than by its sentence. */
  datatype Outcome =
    | CorpusText(documents: seq<Document>)
    | Saved(filename: string, length: nat)
    | Delivered(recipient: string)
    | Uploaded(filename: string, destination: string)
    | Refused(why: Refusal)
    | NoSuchTool(name: string)

  datatype Message =
    | System
    | User(task: string)
    | Correction(step: string, attempt: int, hasDraft: bool, corpus: Option<Outcome>)
    | Assistant(content: string, calls: seq<Call>)
    | ToolResult(callId: string, name: string, outcome: Outcome)

  datatype State = State(
    task: string,
    messages: seq<Message>,
    pending: Option<Pending>,
    sequence: int,
    answer: string,
    draft: string,
    reportText: string,
    draftRequested: bool,
    nudge: bool,
    nudges: int)

  const EMPTY_STATE := State("", [], None, 0, "", "", "", false, false, 0)

  /** What a node returns, and what a caller may merge on resume: a value for some of the
      members. `pending` may be set to nothing, which is not the same as being left alone. */
  datatype Update = Update(
    task: Option<string>,
    messages: seq<Message>,
    pending: Option<Option<Pending>>,
    sequence: Option<int>,
    answer: Option<string>,
    draft: Option<string>,
    reportText: Option<string>,
    draftRequested: Option<bool>,
    nudge: Option<bool>,
    nudges: Option<int>)

  const NO_UPDATE := Update(None, [], None, None, None, None, None, None, None, None)

  function Else<T>(o: Option<T>, otherwise: T): T {
    if o.Some? then o.value else otherwise
  }

  /** Every member is overwritten except the messages, which are appended to. */
  function Merge(s: State, u: Update): State {
    State(
      Else(u.task, s.task),
      s.messages + u.messages,
      Else(u.pending, s.pending),
      Else(u.sequence, s.sequence),
      Else(u.answer, s.answer),
      Else(u.draft, s.draft),
      Else(u.reportText, s.reportText),
      Else(u.draftRequested, s.draftRequested),
      Else(u.nudge, s.nudge),
      Else(u.nudges, s.nudges))
  }

  /** An update that has every member. */
  function Whole(t: State): Update {
    Update(Some(t.task), t.messages, Some(t.pending), Some(t.sequence), Some(t.answer), Some(t.draft),
      Some(t.reportText), Some(t.draftRequested), Some(t.nudge), Some(t.nudges))
  }

  /** A merge overwrites every member it has, and appends the messages. */
  lemma MergingAStateGivesIt(s: State, t: State)
    ensures Merge(s, Whole(t)) == t.(messages := s.messages + t.messages)
  {
  }

  // -- What a run is configured with --------------------------------------------

  /** The corpus in its stable order, the acts a run has to attempt, the scope and principal of
      every question, and three functions nothing here looks inside: the digest of a text,
      the digest of a binding as the wire carries it, and the test a file name must pass. */
  datatype Setting = Setting(
    corpus: seq<Document>,
    required: seq<string>,
    scope: string,
    principal: string,
    digest: string -> string,
    wire: Binding -> string,
    checked: string -> Option<string>)

  function CorpusNames(c: Setting): seq<string> {
    seq(|c.corpus|, i requires 0 <= i < |c.corpus| => c.corpus[i].name)
  }

  ghost predicate Injective<A(!new), B>(f: A -> B) {
    forall a, b :: f(a) == f(b) ==> a == b
  }

  // -- Resolution and binding ---------------------------------------------------

  /** The complete arguments of an act: a listing of the corpus, or a mapping. */
  datatype Resolved = Corpus(listing: seq<string>) | Args(args: map<string, Value>)

  /** `resolved.get(key, "")` for a key a listing does not have */
  function Field(r: Resolved, key: string): Value {
    match r
    case Corpus(_) => Text("")
    case Args(args) => Get(args, key, Text(""))
  }

  /** What the model chose, completed by what the application supplies. */
  function Resolve(c: Setting, s: State): Resolved
    requires s.pending.Some?
  {
    var Pending(_, name, args, _) := s.pending.value;
    match ToolNamed(name)
    case Some(Read) => Corpus(CorpusNames(c))
    case Some(Write) => Args(map[
      "filename" := Text(Shown(Or(Get(args, "filename", Null), REPORT_FILENAME))),
      "content" := Text(s.draft)])
    case Some(Send) => Args(map[
      "recipient" := Text(Shown(Get(args, "recipient", Text("")))),
      "subject" := Text(Shown(Or(Get(args, "subject", Null), EXTERNAL_SUBJECT))),
      "body" := Text(if s.reportText != "" then s.reportText else s.draft)])
    case Some(Upload) => Args(map[
      "destination" := Text(Shown(Get(args, "destination", Text("")))),
      "filename" := Text(Shown(Or(Get(args, "filename", Null), REPORT_FILENAME)))])
    case None => Args(args)
  }

  /** The mapping an act is bound by, one shape per node. */
  datatype Binding =
    | ReadBinding(act: int, documents: Value)
    | WriteBinding(act: int, filename: string, contentDigest: string)
    | SendBinding(act: int, recipient: string, domain: string, subject: string, bodyDigest: string)
    | UploadBinding(act: int, destination: string, filename: string)

  function BindOf(c: Setting, t: Tool, act: int, r: Resolved): Binding {
    match t
    case Read => ReadBinding(act, if r.Corpus? then Names(r.listing) else Get(r.args, "documents", Names([])))
    case Write => WriteBinding(act, Shown(Field(r, "filename")), c.digest(Shown(Field(r, "content"))))
    case Send =>
      var recipient := Shown(Field(r, "recipient"));
      SendBinding(act, recipient, Domain(recipient), Shown(Field(r, "subject")), c.digest(Shown(Field(r, "body"))))
    case Upload => UploadBinding(act, Shown(Field(r, "destination")), Shown(Field(r, "filename")))
  }

  /** The projection a node's act is bound by, or nothing when the node refuses to bind it:
      there is no pending act, or the wire cannot carry what was projected. */
  function Bind(c: Setting, t: Tool, s: State): Option<Binding> {
    if s.pending.None? then None
    else
      var b := BindOf(c, t, s.pending.value.sequence, Resolve(c, s));
      if b.ReadBinding? && !Carried(b.documents) then None else Some(b)
  }

  datatype Question = Question(scope: string, principal: string, capability: string, digest: string)

  function QuestionFor(c: Setting, t: Tool, b: Binding): Question {
    Question(c.scope, c.principal, Capability(t), c.wire(b))
  }

  lemma MergingNothingChangesNothing(s: State)
    ensures Merge(s, NO_UPDATE) == s
  {
    assert s.messages + [] == s.messages;
  }

  /** Every act of a known tool that reaches its own node is bound. */
  lemma ProposedActsAreBound(c: Setting, t: Tool, s: State)
    requires s.pending.Some? && s.pending.value.tool == ToolName(t)
    ensures ToolNamed(s.pending.value.tool) == Some(t)
    ensures Bind(c, t, s).Some? && Bind(c, t, s).value.act == s.pending.value.sequence
  {
    var u := ToolNamed(ToolName(t));
    if u.Some? {
      NamesAndCapabilitiesAreDistinct(t, u.value);
    }
  }
}
