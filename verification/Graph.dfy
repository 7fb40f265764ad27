/**
 The reasoning node, the router, and what a tool node hands back (`graph.py`), with the
 scripted model that stands in for a model (`model.py`).
 */
module Graph {
  import opened Options
  import opened Acts
  import opened Tools

  const MAX_NUDGES := 6
  const MIN_DRAFT := 80

  /** One assistant turn. It wants tools when it carries a call. */
  datatype Reply = Reply(content: string, calls: seq<Call>)

  // -- Reading the transcript ---------------------------------------------------

  /** The names the transcript shows the model to have proposed. */
  function Attempted(messages: seq<Message>): set<string> {
    set m, call | m in messages && m.Assistant? && call in m.calls && call.name != "" :: call.name
  }

  /** The last thing a read returned, anywhere in the transcript. */
  function LastReading(messages: seq<Message>): Option<Outcome> {
    if messages == [] then None
    else
      var last := messages[|messages| - 1];
      if last.ToolResult? && last.name == ToolName(Read) then Some(last.outcome)
      else LastReading(messages[..|messages| - 1])
  }

  predicate IsReading(m: Message) {
    m.ToolResult? && m.name == "read_documents"
  }

  /** The last reading is the outcome of the last result of a read, and there is none only when
      nothing was read. */
  lemma {:induction false} TheLastReadingIsTheLast(messages: seq<Message>)
    ensures LastReading(messages).None? <==> forall i :: 0 <= i < |messages| ==> !IsReading(messages[i])
    ensures LastReading(messages).Some? ==> exists i ::
              && 0 <= i < |messages| && IsReading(messages[i]) && messages[i].outcome == LastReading(messages).value
              && forall j :: i < j < |messages| ==> !IsReading(messages[j])
  {
    if messages != [] {
      var n := |messages| - 1;
      var before := messages[..n];
      TheLastReadingIsTheLast(before);
      if !IsReading(messages[n]) && LastReading(before).Some? {
        var i :| 0 <= i < n && IsReading(before[i]) && before[i].outcome == LastReading(before).value
                 && forall j :: i < j < n ==> !IsReading(before[j]);
        assert messages[i] == before[i];
        assert forall j :: i < j < n ==> messages[j] == before[j];
      }
    }
  }

  function Corrections(messages: seq<Message>): nat {
    if messages == [] then 0
    else Corrections(messages[..|messages| - 1]) + if messages[|messages| - 1].Correction? then 1 else 0
  }

  function Missing(required: seq<string>, attempted: set<string>): seq<string> {
    if required == [] then []
    else (if required[0] in attempted then [] else [required[0]]) + Missing(required[1..], attempted)
  }

  // -- One model turn -----------------------------------------------------------

  function Opening(s: State): seq<Message> {
    if s.messages == [] then [System, User(s.task)] else []
  }

  /** Whether this turn's prose is the report: it answers a request for one, no report has
      been saved, and it is long enough. */
  predicate Drafts(s: State, reply: Reply) {
    s.draftRequested && s.reportText == "" && |Strip(reply.content)| >= MIN_DRAFT
  }

  function Drafted(s: State, reply: Reply): Update {
    if Drafts(s, reply) then NO_UPDATE.(draft := Some(reply.content), draftRequested := Some(false)) else NO_UPDATE
  }

  /** The update of one reasoning turn. */
  function Reason(required: seq<string>, s: State, reply: Reply): Update {
    var messages := s.messages + Opening(s);
    var missing := Missing(required, Attempted(messages));
    var drafted := Drafted(s, reply);
    if reply.calls == [] then
      if missing != [] && s.nudges < MAX_NUDGES then
        var hasDraft := drafted.draft.Some? || s.draft != "";
        var askingForDraft := missing[0] == ToolName(Write) && !hasDraft;
        var correction := Correction(missing[0], s.nudges + 1, hasDraft,
          if askingForDraft then LastReading(messages) else None);
        drafted.(
          messages := Opening(s) + [Assistant(reply.content, []), correction],
          pending := Some(None),
          nudge := Some(true),
          nudges := Some(s.nudges + 1),
          draftRequested := Some(askingForDraft))
      else
        drafted.(
          messages := Opening(s) + [Assistant(reply.content, [])],
          pending := Some(None),
          nudge := Some(false),
          answer := Some(reply.content))
    else
      var call := reply.calls[0];
      if ToolNamed(call.name).None? then
        NO_UPDATE.(
          messages := Opening(s) + [Assistant("", [call]), ToolResult(call.id, call.name, NoSuchTool(call.name))],
          pending := Some(None))
      else
        drafted.(
          messages := Opening(s) + [Assistant(reply.content, [call])],
          pending := Some(Some(Pending(call.id, call.name, call.arguments, s.sequence + 1))),
          sequence := Some(s.sequence + 1),
          nudge := Some(false))
  }

  datatype Node = ToReason | ToTool(tool: Tool) | ToEnd

  /** Exactly one destination per turn. */
  function Route(s: State): Node {
    match s.pending
    case None => if s.nudge then ToReason else ToEnd
    case Some(p) => if ToolNamed(p.tool).Some? then ToTool(ToolNamed(p.tool).value) else ToEnd
  }

  // -- What a tool node hands back ----------------------------------------------

  /** The report is marked as saved by what the pending act calls itself, at any node. */
  function ToolUpdate(p: Pending, r: Resolved, o: Outcome): Update {
    NO_UPDATE.(
      messages := [ToolResult(p.callId, p.tool, o)],
      pending := Some(None),
      reportText := if !o.Refused? && p.tool == ToolName(Write) then Some(Shown(Field(r, "content"))) else None)
  }

  // -- Facts about reading the transcript ---------------------------------------

  lemma AttemptedOfBoth(a: seq<Message>, b: seq<Message>)
    ensures Attempted(a + b) == Attempted(a) + Attempted(b)
  {
    forall name | name in Attempted(a + b) ensures name in Attempted(a) + Attempted(b) {
      var m, call :| m in a + b && m.Assistant? && call in m.calls && call.name != "" && call.name == name;
      assert m in a || m in b;
    }
    forall name | name in Attempted(a) + Attempted(b) ensures name in Attempted(a + b) {
      var m, call :| m in a + b && m.Assistant? && call in m.calls && call.name != "" && call.name == name;
    }
  }

  lemma {:induction false} MissingIsWhatWasNotAttempted(required: seq<string>, attempted: set<string>)
    ensures forall t :: t in Missing(required, attempted) <==> t in required && t !in attempted
  {
    if required != [] {
      MissingIsWhatWasNotAttempted(required[1..], attempted);
      assert required == [required[0]] + required[1..];
    }
  }

  lemma {:induction false} MissingOfBoth(a: seq<string>, b: seq<string>, attempted: set<string>)
    ensures Missing(a + b, attempted) == Missing(a, attempted) + Missing(b, attempted)
  {
    if a == [] {
      assert a + b == b;
    } else {
      assert (a + b)[1..] == a[1..] + b;
      MissingOfBoth(a[1..], b, attempted);
    }
  }

  /** The positions of the required acts still outstanding. */
  function Outstanding(required: seq<string>, attempted: set<string>): set<nat> {
    set k: nat | k < |required| && required[k] !in attempted
  }

  lemma {:induction false} AsManyAsAreOutstanding(required: seq<string>, attempted: set<string>)
    ensures |Missing(required, attempted)| == |Outstanding(required, attempted)|
  {
    if required != [] {
      var n := |required| - 1;
      var before, last := required[..n], required[n];
      AsManyAsAreOutstanding(before, attempted);
      MissingOfBoth(before, [last], attempted);
      assert required == before + [last];
      assert Outstanding(required, attempted) == Outstanding(before, attempted) + if last in attempted then {} else {n};
    }
  }

  /** The outstanding acts keep their order: each stands behind as many as are outstanding
      before it, and there are no others. */
  lemma MissingIsInOrder(required: seq<string>, attempted: set<string>, i: nat)
    requires i < |required| && required[i] !in attempted
    ensures |Missing(required, attempted)| == |Outstanding(required, attempted)|
    ensures var k := |Outstanding(required[..i], attempted)|;
            k < |Missing(required, attempted)| && Missing(required, attempted)[k] == required[i]
  {
    AsManyAsAreOutstanding(required, attempted);
    AsManyAsAreOutstanding(required[..i], attempted);
    MissingOfBoth(required[..i], required[i..], attempted);
    assert required == required[..i] + required[i..];
    assert Missing(required[i..], attempted)[0] == required[i];
  }

  /** The names of some calls, those that have one. */
  function Named(calls: seq<Call>): set<string> {
    set call | call in calls && call.name != "" :: call.name
  }

  lemma AttemptedOfOne(m: Message)
    ensures Attempted([m]) == if m.Assistant? then Named(m.calls) else {}
  {
    assert forall n :: n in [m] <==> n == m;
  }

  lemma NamedOneMore(calls: seq<Call>, call: Call)
    ensures Named(calls + [call]) == Named(calls) + if call.name != "" then {call.name} else {}
  {
    assert forall n :: n in calls + [call] <==> n in calls || n == call;
  }

  /** The same set, filled in two nested loops the way the program fills it. */
  method CollectAttempted(messages: seq<Message>) returns (names: set<string>)
    ensures names == Attempted(messages)
  {
    names := {};
    for i := 0 to |messages|
      invariant names == Attempted(messages[..i])
    {
      assert messages[..i + 1] == messages[..i] + [messages[i]];
      AttemptedOfBoth(messages[..i], [messages[i]]);
      AttemptedOfOne(messages[i]);
      if messages[i].Assistant? {
        var calls := messages[i].calls;
        ghost var before := names;
        for j := 0 to |calls|
          invariant names == before + Named(calls[..j])
        {
          assert calls[..j + 1] == calls[..j] + [calls[j]];
          NamedOneMore(calls[..j], calls[j]);
          if calls[j].name != "" {
            names := names + {calls[j].name};
          }
        }
        assert calls[..|calls|] == calls;
      }
    }
    assert messages[..|messages|] == messages;
  }

  // -- The scripted model -------------------------------------------------------

  /** The reply a script gives on its turn `turn`, counted from zero: each in order, the
      last one for ever, and an empty answer from an empty script. */
  function ScriptReply(replies: seq<Reply>, turn: nat): Reply {
    if replies == [] then Reply("", [])
    else replies[if turn < |replies| then turn else |replies| - 1]
  }

  function Role(m: Message): string {
    match m
    case System => "system"
    case User(_) => "user"
    case Correction(_, _, _, _) => "user"
    case Assistant(_, _) => "assistant"
    case ToolResult(_, _, _) => "tool"
  }

  function Roles(messages: seq<Message>): seq<string> {
    seq(|messages|, i requires 0 <= i < |messages| => Role(messages[i]))
  }

  class ScriptedModel {
    const replies: seq<Reply>
    var calls: seq<seq<string>>
    var cursor: nat

    constructor (replies: seq<Reply>)
      ensures this.replies == replies && cursor == 0 && calls == []
    {
      this.replies := replies;
      calls, cursor := [], 0;
    }

    /** `calls` keeps the roles of the transcript shown at every turn. An empty script never
        advances its cursor. */
    method Complete(messages: seq<Message>) returns (reply: Reply)
      modifies this
      ensures calls == old(calls) + [Roles(messages)]
      ensures reply == ScriptReply(replies, old(cursor))
      ensures old(cursor) < |replies| ==> reply == replies[old(cursor)]
      ensures 0 < |replies| <= old(cursor) ==> reply == replies[|replies| - 1]
      ensures cursor == if replies == [] then old(cursor) else old(cursor) + 1
    {
      calls := calls + [Roles(messages)];
      if replies == [] { return Reply("", []); }
      var index := if cursor < |replies| - 1 then cursor else |replies| - 1;
      cursor := cursor + 1;
      reply := replies[index];
    }
  }
}
