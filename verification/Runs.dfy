/**
 What every run keeps when no caller merges anything on resume: the shape of the
 transcript, the one draft, the blocks the questions come in, and how a run can end.
 The model's replies and the authority's answers are arbitrary throughout.
 */
module Runs {
  import opened Options
  import opened Acts
  import opened Tools
  import opened Graph
  import opened Protocol

  // -- The transcript -----------------------------------------------------------

  predicate Answers(m: Message, call: Call) {
    m.ToolResult? && m.callId == call.id && m.name == call.name
  }

  /** A proposal: an assistant message that carries a call. */
  predicate Proposes(m: Message) {
    m.Assistant? && m.calls != []
  }

  predicate EndsInProposal(messages: seq<Message>) {
    messages != [] && Proposes(messages[|messages| - 1])
  }

  /** After the opening, each proposal carries one call and is followed at once by its one
      result, except a proposal at the very end; and a result follows nothing else. */
  ghost predicate Paired(messages: seq<Message>) {
    && (messages != [] ==> |messages| >= 2 && messages[0] == System && messages[1].User?)
    && (forall i :: 2 <= i < |messages| ==> !messages[i].System? && !messages[i].User?)
    && (forall i :: 0 <= i < |messages| && Proposes(messages[i]) ==>
          |messages[i].calls| == 1 && (i + 1 < |messages| ==> Answers(messages[i + 1], messages[i].calls[0])))
    && (forall i :: 0 <= i < |messages| && messages[i].ToolResult? ==>
          0 < i && Proposes(messages[i - 1]) && Answers(messages[i], messages[i - 1].calls[0]))
  }

  /** Where the thread stands agrees with what is pending, and what is pending is the one
      proposal the transcript has not answered. */
  ghost predicate Placed(w: World) {
    var s := w.state;
    && (s.pending.Some? <==> w.at.AtTool? || w.at.Halted?)
    && (s.pending.Some? <==> EndsInProposal(s.messages))
    && (s.pending.Some? ==>
          && s.pending.value.tool == ToolName(w.at.tool)
          && s.pending.value.sequence == s.sequence
          && var call := s.messages[|s.messages| - 1].calls[0];
             call == Call(s.pending.value.callId, s.pending.value.tool, s.pending.value.arguments))
    && (w.at.NotStarted? ==> w == INITIAL)
    && (w.at.Halted? ==> w.at.why.Answered?)
  }

  ghost predicate TranscriptKept(w: World) {
    Paired(w.state.messages) && Placed(w)
  }

  lemma SayingKeepsPairs(messages: seq<Message>, m: Message)
    requires Paired(messages) && messages != [] && !EndsInProposal(messages)
    requires m.Correction? || (m.Assistant? && |m.calls| <= 1)
    ensures Paired(messages + [m])
  {
    var all := messages + [m];
    forall i | 0 <= i < |messages| ensures all[i] == messages[i] {}
  }

  lemma AnsweringKeepsPairs(messages: seq<Message>, m: Message)
    requires Paired(messages) && EndsInProposal(messages)
    requires Answers(m, messages[|messages| - 1].calls[0])
    ensures Paired(messages + [m]) && !EndsInProposal(messages + [m])
  {
    var all := messages + [m];
    forall i | 0 <= i < |messages| ensures all[i] == messages[i] {}
  }

  function Begun(s: State): seq<Message> {
    s.messages + Opening(s)
  }

  /** What a turn adds after the opening: the assistant's message, and at most one more. */
  lemma ATurnSays(c: Setting, s: State, reply: Reply) returns (said: Message, more: seq<Message>)
    ensures Merge(s, Reason(c.required, s, reply)).messages == Begun(s) + [said] + more
    ensures said.Assistant? && |said.calls| <= 1 && |more| <= 1
    ensures said.calls == [] <==> reply.calls == []
    ensures said.calls != [] ==> said.calls[0] == reply.calls[0]
    ensures more != [] ==>
              if said.calls == [] then more[0].Correction? && Reason(c.required, s, reply).nudge == Some(true)
              else Answers(more[0], said.calls[0]) && more[0].outcome.NoSuchTool?
    ensures said.calls == [] ==> (more != [] <==> Reason(c.required, s, reply).nudge == Some(true))
    ensures said.calls != [] ==> Reason(c.required, s, reply).nudge != Some(true)
    ensures said.calls != [] ==> (more != [] <==> ToolNamed(said.calls[0].name).None?)
  {
    var u := Reason(c.required, s, reply);
    var n := |Opening(s)|;
    said, more := u.messages[n], u.messages[n + 1..];
    if reply.calls == [] {
      assert said == Assistant(reply.content, []);
    } else if ToolNamed(reply.calls[0].name).None? {
      assert said == Assistant("", [reply.calls[0]]);
    } else {
      assert said == Assistant(reply.content, [reply.calls[0]]);
    }
    Regrouped(s.messages, Opening(s), u.messages, said, more);
  }

  lemma Regrouped(before: seq<Message>, opening: seq<Message>, all: seq<Message>, said: Message, more: seq<Message>)
    requires |opening| < |all| && all[..|opening|] == opening
    requires said == all[|opening|] && more == all[|opening| + 1..]
    ensures before + all == before + opening + [said] + more
  {
    assert all == opening + [said] + more;
  }

  lemma SayingMoreKeepsPairs(begun: seq<Message>, said: Message, more: seq<Message>)
    requires Paired(begun) && begun != [] && !EndsInProposal(begun)
    requires said.Assistant? && |said.calls| <= 1 && |more| <= 1
    requires more != [] ==> if said.calls == [] then more[0].Correction? else Answers(more[0], said.calls[0])
    ensures Paired(begun + [said] + more)
  {
    SayingKeepsPairs(begun, said);
    var all := begun + [said];
    if more == [] {
      assert all + more == all;
    } else {
      assert more == [more[0]];
      if said.calls == [] { SayingKeepsPairs(all, more[0]); } else { AnsweringKeepsPairs(all, more[0]); }
    }
  }

  lemma BeginningIsPaired(s: State)
    requires Paired(s.messages) && !EndsInProposal(s.messages)
    ensures Paired(Begun(s)) && Begun(s) != [] && !EndsInProposal(Begun(s))
  {
    if s.messages != [] { assert Begun(s) == s.messages; }
  }

  lemma TurnKeepsTranscript(c: Setting, w: World, reply: Reply)
    requires TranscriptKept(w) && w.at.AtReason?
    ensures TranscriptKept(TakeTurn(c, w, reply))
  {
    var said, more := ATurnSays(c, w.state, reply);
    BeginningIsPaired(w.state);
    SayingMoreKeepsPairs(Begun(w.state), said, more);
    TurnKeepsPlace(c, w, reply, said, more);
  }

  lemma TurnKeepsPlace(c: Setting, w: World, reply: Reply, said: Message, more: seq<Message>)
    requires Placed(w) && w.at.AtReason?
    requires TakeTurn(c, w, reply).state.messages == Begun(w.state) + [said] + more
    requires said.Assistant? && (said.calls == [] <==> reply.calls == [])
    requires said.calls != [] ==> said.calls[0] == reply.calls[0]
    requires |more| <= 1 && (more != [] ==> !Proposes(more[0]))
    requires said.calls != [] ==> (more != [] <==> ToolNamed(said.calls[0].name).None?)
    ensures Placed(TakeTurn(c, w, reply))
  {
  }

  lemma BodyKeepsTranscript(c: Setting, w: World, answer: Answer)
    requires TranscriptKept(w) && w.at.AtTool? && answer.Allow?
    ensures TranscriptKept(Execute(c, w, w.at.tool, answer))
  {
    var s := w.state;
    ProposedActsAreBound(c, w.at.tool, s);
    var w' := Execute(c, w, w.at.tool, answer);
    var result := w'.state.messages[|s.messages|];
    assert w'.state.messages == s.messages + [result];
    AnsweringKeepsPairs(s.messages, result);
  }

  lemma StepKeepsTranscript(c: Setting, w: World, e: Event)
    requires TranscriptKept(w) && (e.Resume? ==> e.update == NO_UPDATE)
    ensures TranscriptKept(Step(c, w, e))
  {
    match e
    case Start(_) =>
    case Turn(reply) => if w.at.AtReason? { TurnKeepsTranscript(c, w, reply); }
    case Ask(answer) =>
      if w.at.AtTool? {
        ProposedActsAreBound(c, w.at.tool, w.state);
        if answer.Allow? { BodyKeepsTranscript(c, w, answer); }
      }
    case Resume(_) => MergingNothingChangesNothing(w.state);
  }

  /** The transcript of every unmerged run is paired, and the one unanswered proposal is at
      the end and is the pending act, exactly while there is one. */
  lemma {:induction false} EveryTranscriptIsPaired(c: Setting, events: seq<Event>)
    requires Unmerged(events)
    ensures TranscriptKept(Run(c, events))
  {
    if events != [] {
      var before := events[..|events| - 1];
      EveryTranscriptIsPaired(c, before);
      StepKeepsTranscript(c, Run(c, before), events[|events| - 1]);
    }
  }

  // -- The one draft ------------------------------------------------------------

  ghost predicate DraftKept(w: World) {
    var s := w.state;
    && (s.draftRequested ==> s.draft == "")
    && (s.reportText != "" ==> s.reportText == s.draft)
    && (s.draft != "" ==> |Strip(s.draft)| >= MIN_DRAFT)
    && (forall name :: name in w.files.reports ==> s.draft != "" && w.files.reports[name] == s.draft)
    && (forall name :: name in w.files.outbox && w.files.outbox[name].MessageFile? ==>
          w.files.outbox[name].body == "" || w.files.outbox[name].body == s.draft)
    && (forall i :: 0 <= i < |w.trace| && w.trace[i].state.reportText != "" ==> w.trace[i].state.reportText == s.draft)
  }

  /** Later than `w`, and neither its draft nor its saved report has changed. */
  predicate SameText(w: World, later: World) {
    && (w.state.draft != "" ==> later.state.draft == w.state.draft)
    && (w.state.reportText != "" ==> later.state.reportText == w.state.reportText)
  }

  /** What a body writes of the state's text, when its act is its own. */
  lemma BodyWritesTheDraft(c: Setting, w: World, t: Tool, g: Governance)
    requires w.state.pending.Some? && w.state.pending.value.tool == ToolName(t) && DraftKept(w)
    ensures var (f, o) := Perform(c, t, Resolve(c, w.state), g, w.files);
            && (forall name :: name in f.reports ==> w.state.draft != "" && f.reports[name] == w.state.draft)
            && (forall name :: name in f.outbox && f.outbox[name].MessageFile? ==>
                  f.outbox[name].body == "" || f.outbox[name].body == w.state.draft)
            && (t == Write && !o.Refused? ==> w.state.draft != "")
  {
    ProposedActsAreBound(c, t, w.state);
    var r := Resolve(c, w.state);
    assert Strip("") == "";
    match t
    case Read =>
    case Write => assert Shown(Field(r, "content")) == w.state.draft;
    case Send => assert Shown(Field(r, "body")) == if w.state.reportText != "" then w.state.reportText else w.state.draft;
    case Upload =>
  }

  lemma BodyKeepsDraft(c: Setting, w: World, answer: Answer)
    requires Placed(w) && DraftKept(w) && w.at.AtTool? && answer.Allow?
    ensures var w' := Execute(c, w, w.at.tool, answer);
            DraftKept(w') && SameText(w, w') && w'.state.draft == w.state.draft
  {
    var t := w.at.tool;
    ProposedActsAreBound(c, t, w.state);
    BodyWritesTheDraft(c, w, t, LastAuthorisation(w.stamps[Capability(t) := answer.decisionRef], t));
    if w.state.pending.value.tool == ToolName(Write) {
      NamesAndCapabilitiesAreDistinct(t, Write);
      assert Shown(Field(Resolve(c, w.state), "content")) == w.state.draft;
    }
  }

  lemma TurnKeepsDraft(c: Setting, w: World, reply: Reply)
    requires Placed(w) && DraftKept(w) && w.at.AtReason?
    ensures var w' := TakeTurn(c, w, reply);
            && DraftKept(w') && SameText(w, w')
            && (w'.state.draft != w.state.draft ==> Drafts(w.state, reply) && w'.state.draft == reply.content)
  {
    assert Strip("") == "";
  }

  lemma StepKeepsDraft(c: Setting, w: World, e: Event)
    requires Placed(w) && DraftKept(w) && (e.Resume? ==> e.update == NO_UPDATE)
    ensures DraftKept(Step(c, w, e)) && SameText(w, Step(c, w, e))
    ensures Step(c, w, e).state.draft != w.state.draft ==>
              w.at.AtReason? && e.Turn? && Drafts(w.state, e.reply) && Step(c, w, e).state.draft == e.reply.content
  {
    match e
    case Start(_) =>
    case Turn(reply) => if w.at.AtReason? { TurnKeepsDraft(c, w, reply); }
    case Ask(answer) =>
      if w.at.AtTool? {
        ProposedActsAreBound(c, w.at.tool, w.state);
        if answer.Allow? { BodyKeepsDraft(c, w, answer); }
      }
    case Resume(_) => MergingNothingChangesNothing(w.state);
  }

  /** Event `k` is the reply that was taken as the report: a request for one was open. */
  ghost predicate WasDraftedBy(c: Setting, events: seq<Event>, k: nat, draft: string) {
    && k < |events| && events[k].Turn? && Run(c, events[..k]).at.AtReason?
    && Drafts(Run(c, events[..k]).state, events[k].reply)
    && events[k].reply.content == draft
  }

  /** Everything a run saved is its draft, everything it sent is its draft or nothing, and
      the draft is verbatim a reply given while a draft request was open. */
  lemma {:induction false} TheDraftIsOneReply(c: Setting, events: seq<Event>)
    requires Unmerged(events)
    ensures DraftKept(Run(c, events))
    ensures Run(c, events).state.draft != "" ==> exists k: nat :: WasDraftedBy(c, events, k, Run(c, events).state.draft)
  {
    if events != [] {
      var n := |events| - 1;
      var before := events[..n];
      TheDraftIsOneReply(c, before);
      EveryTranscriptIsPaired(c, before);
      StepKeepsDraft(c, Run(c, before), events[n]);
      var draft := Run(c, events).state.draft;
      if draft != "" {
        if draft == Run(c, before).state.draft {
          var k: nat :| WasDraftedBy(c, before, k, draft);
          assert before[..k] == events[..k];
          assert WasDraftedBy(c, events, k, draft);
        } else {
          assert WasDraftedBy(c, events, n, draft);
        }
      }
    }
  }

  /** Once there is a draft it never changes, and once a report is saved it never changes. */
  lemma {:induction false} TheDraftNeverChanges(c: Setting, events: seq<Event>, more: seq<Event>)
    requires Unmerged(events + more)
    ensures SameText(Run(c, events), Run(c, events + more))
  {
    if more == [] {
      assert events + more == events;
    } else {
      var shorter := more[..|more| - 1];
      assert (events + more)[..|events + more| - 1] == events + shorter;
      assert Unmerged(events + shorter) by {
        forall i | 0 <= i < |events + shorter| && (events + shorter)[i].Resume?
          ensures (events + shorter)[i].update == NO_UPDATE
        {
          assert (events + shorter)[i] == (events + more)[i];
        }
      }
      TheDraftNeverChanges(c, events, shorter);
      TheDraftIsOneReply(c, events + shorter);
      EveryTranscriptIsPaired(c, events + shorter);
      assert (events + more)[|events + shorter|] == more[|more| - 1];
      StepKeepsDraft(c, Run(c, events + shorter), more[|more| - 1]);
    }
  }

  /** Once a report is saved, every send is bound to the text of the draft, and that text is
      the body of whatever message it writes. */
  lemma EverySendAfterASaveIsBoundToTheDraft(c: Setting, events: seq<Event>, i: nat)
    requires Unmerged(events) && i < |Run(c, events).trace|
    requires Run(c, events).trace[i].tool == Send && Run(c, events).trace[i].state.reportText != ""
    ensures Bind(c, Send, Run(c, events).trace[i].state).Some?
    ensures Bind(c, Send, Run(c, events).trace[i].state).value.bodyDigest == c.digest(Run(c, events).state.draft)
    ensures forall g, f ::
              var (f', o) := SendEffect(Resolve(c, Run(c, events).trace[i].state), g, f);
              o.Delivered? ==> f'.outbox[MessageName(Reference(g))].body == Run(c, events).state.draft
  {
    TheDraftIsOneReply(c, events);
    EveryTraceIsInBlocks(c, events);
    EveryArtefactNamesItsOwnAllow(c, events);
    var s := Run(c, events).trace[i].state;
    ProposedActsAreBound(c, Send, s);
  }

  // -- The blocks the questions come in -----------------------------------------

  function Act(x: Exchange): (n: int)
    ensures n != 0 ==> x.state.pending.Some?
  {
    if x.state.pending.Some? then x.state.pending.value.sequence else 0
  }

  /** Every question is about a numbered act at its own node. */
  ghost predicate Numbered(trace: seq<Exchange>, sequence: int) {
    forall i :: 0 <= i < |trace| ==>
      0 < Act(trace[i]) <= sequence && trace[i].state.pending.value.tool == ToolName(trace[i].tool)
  }

  /** Acts are numbered upwards, and strictly so after an allow. */
  ghost predicate Rising(trace: seq<Exchange>) {
    && (forall i, j :: 0 <= i <= j < |trace| ==> Act(trace[i]) <= Act(trace[j]))
    && (forall i, j :: 0 <= i < j < |trace| && trace[i].answer.Allow? ==> Act(trace[i]) < Act(trace[j]))
  }

  ghost predicate OneStatePerAct(trace: seq<Exchange>) {
    forall i, j :: 0 <= i <= j < |trace| && Act(trace[i]) == Act(trace[j]) ==>
      trace[i].tool == trace[j].tool && trace[i].state == trace[j].state
  }

  /** What was asked about act `act` so far was asked by node `t` in state `s`, and not allowed. */
  ghost predicate StillAsked(trace: seq<Exchange>, act: int, t: Tool, s: State) {
    forall i :: 0 <= i < |trace| && Act(trace[i]) == act ==>
      !trace[i].answer.Allow? && trace[i].tool == t && trace[i].state == s
  }

  ghost predicate InBlocks(w: World) {
    && Numbered(w.trace, w.state.sequence) && Rising(w.trace) && OneStatePerAct(w.trace)
    && w.state.sequence >= 0
    && (w.state.pending.Some? ==>
          && 0 < w.state.sequence && (w.at.AtTool? || w.at.Halted?)
          && StillAsked(w.trace, w.state.sequence, w.at.tool, w.state))
  }

  lemma OneMoreIsRising(trace: seq<Exchange>, x: Exchange, t: Tool, s: State)
    requires Rising(trace) && Numbered(trace, Act(x)) && StillAsked(trace, Act(x), t, s)
    ensures Rising(trace + [x])
  {
    var all := trace + [x];
    assert forall i :: 0 <= i < |trace| ==> all[i] == trace[i];
  }

  lemma OneMoreOfItsAct(trace: seq<Exchange>, x: Exchange)
    requires OneStatePerAct(trace) && StillAsked(trace, Act(x), x.tool, x.state)
    ensures OneStatePerAct(trace + [x])
  {
    var all := trace + [x];
    assert forall i :: 0 <= i < |trace| ==> all[i] == trace[i];
  }

  lemma OneMoreExchangeKeepsBlocks(w: World, w': World, x: Exchange)
    requires InBlocks(w) && w.state.pending.Some? && w.state.pending.value.sequence == w.state.sequence
    requires w.state.pending.value.tool == ToolName(w.at.tool)
    requires x.state == w.state && x.tool == w.at.tool && w'.trace == w.trace + [x]
    requires w'.state.sequence == w.state.sequence
    requires if x.answer.Allow? then w'.state.pending.None?
             else w'.state == w.state && (w'.at.AtTool? || w'.at.Halted?) && w'.at.tool == w.at.tool
    ensures InBlocks(w')
  {
    assert Act(x) == w.state.sequence;
    OneMoreIsRising(w.trace, x, w.at.tool, w.state);
    OneMoreOfItsAct(w.trace, x);
    assert forall i :: 0 <= i < |w.trace| ==> w'.trace[i] == w.trace[i];
  }

  lemma AskingKeepsBlocks(c: Setting, w: World, answer: Answer)
    requires TranscriptKept(w) && InBlocks(w) && w.at.AtTool?
    ensures InBlocks(Execute(c, w, w.at.tool, answer))
  {
    ProposedActsAreBound(c, w.at.tool, w.state);
    var w' := Execute(c, w, w.at.tool, answer);
    OneMoreExchangeKeepsBlocks(w, w', w'.trace[|w.trace|]);
  }

  lemma TheSameTraceKeepsBlocks(w: World, w': World)
    requires InBlocks(w) && w'.trace == w.trace && w'.state.sequence >= w.state.sequence
    requires w'.state.pending.Some? ==>
               w'.state.sequence > w.state.sequence && (w'.at.AtTool? || w'.at.Halted?)
    ensures InBlocks(w')
  {
  }

  lemma TurnKeepsBlocks(c: Setting, w: World, reply: Reply)
    requires TranscriptKept(w) && InBlocks(w) && w.at.AtReason?
    ensures InBlocks(TakeTurn(c, w, reply))
  {
    TheSameTraceKeepsBlocks(w, TakeTurn(c, w, reply));
  }

  lemma StepKeepsBlocks(c: Setting, w: World, e: Event)
    requires TranscriptKept(w) && InBlocks(w) && (e.Resume? ==> e.update == NO_UPDATE)
    ensures InBlocks(Step(c, w, e))
  {
    match e
    case Start(_) =>
    case Turn(reply) => if w.at.AtReason? { TurnKeepsBlocks(c, w, reply); }
    case Ask(answer) => if w.at.AtTool? { AskingKeepsBlocks(c, w, answer); }
    case Resume(_) => MergingNothingChangesNothing(w.state);
  }

  lemma {:induction false} EveryTraceIsInBlocks(c: Setting, events: seq<Event>)
    requires Unmerged(events)
    ensures InBlocks(Run(c, events))
  {
    if events != [] {
      var before := events[..|events| - 1];
      EveryTraceIsInBlocks(c, before);
      EveryTranscriptIsPaired(c, before);
      StepKeepsBlocks(c, Run(c, before), events[|events| - 1]);
    }
  }

  /** Acts are numbered upwards along the trace, two questions are the same exactly when they
      are about the same act, and no act is asked about again after it was allowed: the trace
      is one contiguous block of one question per proposed act. */
  lemma OneBlockOfOneQuestionPerAct(c: Setting, events: seq<Event>, i: nat, j: nat)
    requires Unmerged(events) && Injective(c.wire)
    requires i < j < |Run(c, events).trace|
    ensures var x, y := Run(c, events).trace[i], Run(c, events).trace[j];
            && Act(x) <= Act(y)
            && (x.question == y.question <==> Act(x) == Act(y))
            && (x.answer.Allow? ==> Act(x) < Act(y))
    ensures Run(c, events).trace[i].question == Run(c, events).trace[j].question ==>
              forall k :: i <= k <= j ==> Run(c, events).trace[k].question == Run(c, events).trace[i].question
  {
    EveryTraceIsInBlocks(c, events);
    EveryArtefactNamesItsOwnAllow(c, events);
    var trace := Run(c, events).trace;
    forall k, l | i <= k <= l <= j ensures trace[k].question == trace[l].question <==> Act(trace[k]) == Act(trace[l]) {
      SameQuestionSameAct(c, trace[k], trace[l]);
    }
  }

  lemma SameQuestionSameAct(c: Setting, x: Exchange, y: Exchange)
    requires Injective(c.wire) && Honest(c, x) && Honest(c, y)
    ensures x.question == y.question ==> Act(x) == Act(y)
    ensures x.tool == y.tool && x.state == y.state ==> x.question == y.question
  {
    var b1, b2 := Bind(c, x.tool, x.state).value, Bind(c, y.tool, y.state).value;
    assert b1.act == Act(x) && b2.act == Act(y);
    if x.question == y.question {
      assert c.wire(b1) == c.wire(b2);
    }
  }

  // -- How often a wait was asked about -----------------------------------------

  /** How many questions were put since the last allow. */
  function SinceTheLastAllow(trace: seq<Exchange>): nat {
    if trace == [] || trace[|trace| - 1].answer.Allow? then 0
    else SinceTheLastAllow(trace[..|trace| - 1]) + 1
  }

  /** The framework keeps one value for every resume of the act the thread stands at, and every
      one of them put one question. */
  ghost predicate StoredCounts(w: World) {
    SinceTheLastAllow(w.trace) == if w.at.Halted? then w.stored + 1 else w.stored
  }

  lemma StepCountsStored(c: Setting, w: World, e: Event)
    requires TranscriptKept(w) && StoredCounts(w) && (e.Resume? ==> e.update == NO_UPDATE)
    requires !w.at.AtTool? && !w.at.Halted? ==> w.stored == 0
    ensures var w' := Step(c, w, e);
            StoredCounts(w') && (!w'.at.AtTool? && !w'.at.Halted? ==> w'.stored == 0)
  {
    var w' := Step(c, w, e);
    if e.Ask? && w.at.AtTool? {
      ProposedActsAreBound(c, w.at.tool, w.state);
      assert w'.trace[..|w.trace|] == w.trace;
    }
  }

  /** A thread that resumed an act N times has put N questions about it while it stands at it,
      and N + 1 when it is halted again: and none is counted twice, or against another act. */
  lemma {:induction false} EveryResumeIsOneQuestion(c: Setting, events: seq<Event>)
    requires Unmerged(events)
    ensures var w := Run(c, events);
            StoredCounts(w) && (!w.at.AtTool? && !w.at.Halted? ==> w.stored == 0)
  {
    if events != [] {
      var before := events[..|events| - 1];
      EveryResumeIsOneQuestion(c, before);
      EveryTranscriptIsPaired(c, before);
      StepCountsStored(c, Run(c, before), events[|events| - 1]);
    }
  }

  // -- How a run ends -----------------------------------------------------------

  /** The last turn proposed a tool there is none of. */
  predicate EndedOnAnUnknownTool(messages: seq<Message>) {
    var n := |messages|;
    n >= 2 && Proposes(messages[n - 2]) && messages[n - 1].ToolResult? && messages[n - 1].outcome.NoSuchTool?
  }

  ghost predicate CorrectionsCounted(c: Setting, w: World) {
    && w.state.nudges == Corrections(w.state.messages) <= MAX_NUDGES
    && (w.at.Finished? ==>
          || (forall t :: t in c.required ==> t in Attempted(w.state.messages))
          || w.state.nudges == MAX_NUDGES
          || (EndedOnAnUnknownTool(w.state.messages) && !w.state.nudge))
  }

  lemma OneMoreMessage(messages: seq<Message>, m: Message)
    ensures Corrections(messages + [m]) == Corrections(messages) + if m.Correction? then 1 else 0
    ensures !Proposes(m) ==> Attempted(messages + [m]) == Attempted(messages)
  {
    assert (messages + [m])[..|messages|] == messages;
    AttemptedOfBoth(messages, [m]);
    if !Proposes(m) {
      assert Attempted([m]) == {};
    }
  }

  lemma OpeningSaysNothing(s: State)
    ensures Corrections(Begun(s)) == Corrections(s.messages)
  {
    if s.messages == [] {
      assert Begun(s) == ([] + [System]) + [User(s.task)];
      OneMoreMessage([] + [System], User(s.task));
      OneMoreMessage([], System);
    } else {
      assert Begun(s) == s.messages;
    }
  }

  lemma ATurnCounts(begun: seq<Message>, said: Message, more: seq<Message>)
    requires said.Assistant? && |more| <= 1 && (more != [] ==> !Proposes(more[0]))
    ensures Corrections(begun + [said] + more) == Corrections(begun) + if more != [] && more[0].Correction? then 1 else 0
    ensures said.calls == [] ==> Attempted(begun + [said] + more) == Attempted(begun)
  {
    OneMoreMessage(begun, said);
    if more == [] {
      assert begun + [said] + more == begun + [said];
    } else {
      assert more == [more[0]];
      OneMoreMessage(begun + [said], more[0]);
    }
  }

  lemma NudgesAreCounted(c: Setting, w: World, reply: Reply)
    requires w.state.nudges <= MAX_NUDGES
    ensures var u := Reason(c.required, w.state, reply);
            TakeTurn(c, w, reply).state.nudges == w.state.nudges + (if u.nudge == Some(true) then 1 else 0) <= MAX_NUDGES
  {
  }

  lemma TurnCountsCorrections(c: Setting, w: World, reply: Reply)
    requires TranscriptKept(w) && CorrectionsCounted(c, w) && w.at.AtReason?
    ensures CorrectionsCounted(c, TakeTurn(c, w, reply))
  {
    var said, more := ATurnSays(c, w.state, reply);
    OpeningSaysNothing(w.state);
    ATurnCounts(Begun(w.state), said, more);
    NudgesAreCounted(c, w, reply);
    MissingIsWhatWasNotAttempted(c.required, Attempted(Begun(w.state)));
    TurnEndsInThreeWays(c, w, reply, said, more);
  }

  lemma TurnEndsInThreeWays(c: Setting, w: World, reply: Reply, said: Message, more: seq<Message>)
    requires w.at.AtReason? && Placed(w) && w.state.nudges <= MAX_NUDGES
    requires TakeTurn(c, w, reply).state.messages == Begun(w.state) + [said] + more
    requires said.Assistant? && (said.calls == [] <==> reply.calls == [])
    requires said.calls != [] ==> said.calls[0] == reply.calls[0]
    requires |more| <= 1 && (said.calls != [] && more != [] ==> more[0].ToolResult? && more[0].outcome.NoSuchTool?)
    requires said.calls != [] ==> (more != [] <==> ToolNamed(said.calls[0].name).None?)
    requires said.calls == [] ==> Attempted(Begun(w.state) + [said] + more) == Attempted(Begun(w.state))
    requires forall t :: t in Missing(c.required, Attempted(Begun(w.state))) <==>
                           t in c.required && t !in Attempted(Begun(w.state))
    ensures var w' := TakeTurn(c, w, reply);
            w'.at.Finished? ==>
              || (forall t :: t in c.required ==> t in Attempted(w'.state.messages))
              || w'.state.nudges == MAX_NUDGES
              || (EndedOnAnUnknownTool(w'.state.messages) && !w'.state.nudge)
  {
    var w' := TakeTurn(c, w, reply);
    if w'.at.Finished? && reply.calls == [] && w.state.nudges < MAX_NUDGES {
      assert Missing(c.required, Attempted(Begun(w.state))) == [];
    }
  }

  lemma StepCountsCorrections(c: Setting, w: World, e: Event)
    requires TranscriptKept(w) && CorrectionsCounted(c, w) && (e.Resume? ==> e.update == NO_UPDATE)
    ensures CorrectionsCounted(c, Step(c, w, e))
  {
    match e
    case Start(_) =>
    case Turn(reply) => if w.at.AtReason? { TurnCountsCorrections(c, w, reply); }
    case Ask(answer) =>
      if w.at.AtTool? {
        ProposedActsAreBound(c, w.at.tool, w.state);
        if answer.Allow? {
          var messages := Step(c, w, e).state.messages;
          assert messages[..|messages| - 1] == w.state.messages;
        }
      }
    case Resume(_) => MergingNothingChangesNothing(w.state);
  }

  /** A finished run has proposed every required act, or was corrected exactly MAX_NUDGES
      times, or last proposed an unknown tool with no correction outstanding. */
  lemma {:induction false} ThreeWaysToFinish(c: Setting, events: seq<Event>)
    requires Unmerged(events)
    ensures CorrectionsCounted(c, Run(c, events))
  {
    if events != [] {
      var before := events[..|events| - 1];
      ThreeWaysToFinish(c, before);
      EveryTranscriptIsPaired(c, before);
      StepCountsCorrections(c, Run(c, before), events[|events| - 1]);
    }
  }

  // -- What the loop says and does not say --------------------------------------

  /** A correction names the first required act not proposed before it, it is numbered, and
      it restates the corpus exactly when it asks for the report. */
  predicate Apt(required: seq<string>, before: seq<Message>, m: Message) {
    m.Correction? ==>
      var missing := Missing(required, Attempted(before));
      && missing != [] && m.step == missing[0] && m.attempt == Corrections(before) + 1
      && m.corpus == if m.step == ToolName(Write) && !m.hasDraft then LastReading(before) else None
  }

  ghost predicate AllApt(c: Setting, messages: seq<Message>) {
    forall i :: 0 <= i < |messages| ==> Apt(c.required, messages[..i], messages[i])
  }

  lemma OneMoreIsApt(c: Setting, messages: seq<Message>, m: Message)
    requires AllApt(c, messages) && Apt(c.required, messages, m)
    ensures AllApt(c, messages + [m])
  {
    var all := messages + [m];
    forall i | 0 <= i < |all| ensures Apt(c.required, all[..i], all[i]) {
      if i < |messages| {
        assert all[..i] == messages[..i];
      } else {
        assert all[..i] == messages;
      }
    }
  }

  /** The correction of a turn, if it made one, is apt after what was said before it. */
  lemma ATurnsCorrectionIsApt(c: Setting, w: World, reply: Reply, said: Message, m: Message)
    requires w.state.nudges == Corrections(w.state.messages)
    requires TakeTurn(c, w, reply).state.messages == Begun(w.state) + [said] + [m]
    requires said.Assistant? && said.calls == [] && reply.calls == [] && m.Correction?
    ensures Apt(c.required, Begun(w.state) + [said], m)
  {
    var begun, u := Begun(w.state), Reason(c.required, w.state, reply);
    OpeningSaysNothing(w.state);
    OneMoreMessage(begun, said);
    assert (begun + [said])[..|begun|] == begun;
    assert LastReading(begun + [said]) == LastReading(begun);
    var all := TakeTurn(c, w, reply).state.messages;
    assert all[|all| - 1] == m && u.messages[|u.messages| - 1] == m;
  }

  lemma ATurnIsApt(c: Setting, w: World, reply: Reply)
    requires w.state.nudges == Corrections(w.state.messages) && AllApt(c, w.state.messages) && w.at.AtReason?
    ensures AllApt(c, TakeTurn(c, w, reply).state.messages)
  {
    var said, more := ATurnSays(c, w.state, reply);
    var begun := Begun(w.state);
    if w.state.messages != [] { assert begun == w.state.messages; }
    OneMoreIsApt(c, begun, said);
    if more == [] {
      assert begun + [said] + more == begun + [said];
    } else {
      assert more == [more[0]];
      if more[0].Correction? { ATurnsCorrectionIsApt(c, w, reply, said, more[0]); }
      OneMoreIsApt(c, begun + [said], more[0]);
    }
  }

  lemma StepIsApt(c: Setting, w: World, e: Event)
    requires TranscriptKept(w) && CorrectionsCounted(c, w) && AllApt(c, w.state.messages)
    requires e.Resume? ==> e.update == NO_UPDATE
    ensures AllApt(c, Step(c, w, e).state.messages)
  {
    match e
    case Start(_) =>
    case Turn(reply) => if w.at.AtReason? { ATurnIsApt(c, w, reply); }
    case Ask(answer) =>
      if w.at.AtTool? {
        ProposedActsAreBound(c, w.at.tool, w.state);
        if answer.Allow? {
          var messages := Step(c, w, e).state.messages;
          OneMoreIsApt(c, w.state.messages, messages[|messages| - 1]);
        }
      }
    case Resume(_) => MergingNothingChangesNothing(w.state);
  }

  lemma {:induction false} EveryCorrectionIsApt(c: Setting, events: seq<Event>)
    requires Unmerged(events)
    ensures AllApt(c, Run(c, events).state.messages)
  {
    if events != [] {
      var before := events[..|events| - 1];
      EveryCorrectionIsApt(c, before);
      EveryTranscriptIsPaired(c, before);
      ThreeWaysToFinish(c, before);
      StepIsApt(c, Run(c, before), events[|events| - 1]);
    }
  }

  /** Some reply of the model made exactly this call. */
  predicate Voiced(events: seq<Event>, call: Call) {
    exists k :: 0 <= k < |events| && events[k].Turn? && events[k].reply.calls != [] && events[k].reply.calls[0] == call
  }

  predicate AllVoiced(events: seq<Event>, messages: seq<Message>) {
    forall i :: 0 <= i < |messages| && Proposes(messages[i]) ==> Voiced(events, messages[i].calls[0])
  }

  lemma StillVoiced(events: seq<Event>, e: Event, messages: seq<Message>)
    requires AllVoiced(events, messages)
    ensures AllVoiced(events + [e], messages)
  {
    forall i | 0 <= i < |messages| && Proposes(messages[i]) ensures Voiced(events + [e], messages[i].calls[0]) {
      var k :| 0 <= k < |events| && events[k].Turn? && events[k].reply.calls != [] && events[k].reply.calls[0] == messages[i].calls[0];
      assert (events + [e])[k] == events[k];
    }
  }

  lemma ATurnVoicesItsReply(c: Setting, w: World, events: seq<Event>, reply: Reply)
    requires AllVoiced(events, w.state.messages) && (reply.calls != [] ==> Voiced(events, reply.calls[0]))
    ensures AllVoiced(events, TakeTurn(c, w, reply).state.messages)
  {
    var said, more := ATurnSays(c, w.state, reply);
    var begun := Begun(w.state);
    assert AllVoiced(events, begun);
    assert AllVoiced(events, begun + [said]);
    assert AllVoiced(events, begun + [said] + more);
  }

  lemma StepVoicesNothingItself(c: Setting, w: World, events: seq<Event>, e: Event)
    requires TranscriptKept(w) && AllVoiced(events, w.state.messages)
    requires e.Resume? ==> e.update == NO_UPDATE
    ensures AllVoiced(events + [e], Step(c, w, e).state.messages)
  {
    StillVoiced(events, e, w.state.messages);
    assert (events + [e])[|events|] == e;
    match e
    case Start(_) =>
    case Turn(reply) => if w.at.AtReason? { ATurnVoicesItsReply(c, w, events + [e], reply); }
    case Ask(answer) => if w.at.AtTool? { ProposedActsAreBound(c, w.at.tool, w.state); }
    case Resume(_) => MergingNothingChangesNothing(w.state);
  }

  /** Nothing but the model ever proposes: every call in the transcript, with its arguments,
      and so every act that is ever put to the authority, is a call some reply made. */
  lemma {:induction false} EveryProposalIsTheModels(c: Setting, events: seq<Event>)
    requires Unmerged(events)
    ensures AllVoiced(events, Run(c, events).state.messages)
  {
    if events != [] {
      var before, e := events[..|events| - 1], events[|events| - 1];
      EveryProposalIsTheModels(c, before);
      EveryTranscriptIsPaired(c, before);
      StepVoicesNothingItself(c, Run(c, before), before, e);
      assert events == before + [e];
    }
  }

  // -- How many turns a scripted run takes --------------------------------------

  /** Every turn taken got the reply the script gives on that turn. */
  ghost predicate Scripted(c: Setting, events: seq<Event>, replies: seq<Reply>) {
    forall k :: 0 <= k < |events| && events[k].Turn? && Run(c, events[..k]).at.AtReason? ==>
                  events[k].reply == ScriptReply(replies, Run(c, events[..k]).turns)
  }

  /** The script's last reply, which repeats for ever, requests no tool. */
  predicate EndsWithoutATool(replies: seq<Reply>) {
    replies != [] ==> replies[|replies| - 1].calls == []
  }

  function Tail(replies: seq<Reply>): nat {
    if replies == [] then 0 else |replies| - 1
  }

  /** What is left of the script, the corrections left, and one last turn. */
  function TurnsLeft(w: World, replies: seq<Reply>): int {
    if w.at.Finished? then 0
    else (if w.turns < Tail(replies) then Tail(replies) - w.turns else 0) + MAX_NUDGES - w.state.nudges + 1
  }

  lemma TurnSpendsATurn(c: Setting, w: World, replies: seq<Reply>)
    requires EndsWithoutATool(replies) && w.state.nudges <= MAX_NUDGES && w.at.AtReason?
    ensures var w' := TakeTurn(c, w, ScriptReply(replies, w.turns));
            w'.turns + TurnsLeft(w', replies) <= w.turns + TurnsLeft(w, replies) && w'.state.nudges <= MAX_NUDGES
  {
    assert w.turns >= Tail(replies) ==> ScriptReply(replies, w.turns).calls == [];
  }

  lemma StepSpendsATurn(c: Setting, w: World, e: Event, replies: seq<Reply>)
    requires EndsWithoutATool(replies) && w.state.nudges <= MAX_NUDGES
    requires e.Turn? && w.at.AtReason? ==> e.reply == ScriptReply(replies, w.turns)
    requires e.Resume? ==> e.update == NO_UPDATE
    ensures Step(c, w, e).turns + TurnsLeft(Step(c, w, e), replies) <= w.turns + TurnsLeft(w, replies)
    ensures Step(c, w, e).state.nudges <= MAX_NUDGES
  {
    match e
    case Turn(_) => if w.at.AtReason? { TurnSpendsATurn(c, w, replies); }
    case Resume(_) => MergingNothingChangesNothing(w.state);
    case _ =>
  }

  lemma {:induction false} AScriptedRunSpendsItsTurns(c: Setting, events: seq<Event>, replies: seq<Reply>)
    requires Unmerged(events) && Scripted(c, events, replies) && EndsWithoutATool(replies)
    ensures var w := Run(c, events);
            w.state.nudges <= MAX_NUDGES && w.turns + TurnsLeft(w, replies) <= Tail(replies) + MAX_NUDGES + 1
  {
    if events != [] {
      var n := |events| - 1;
      assert forall k :: 0 <= k <= n ==> events[..n][..k] == events[..k];
      AScriptedRunSpendsItsTurns(c, events[..n], replies);
      StepSpendsATurn(c, Run(c, events[..n]), events[n], replies);
    }
  }

  /** At most max(len(replies), 1) + MAX_NUDGES reasoning turns, over any number of resumes. */
  lemma AScriptedRunTakesFewTurns(c: Setting, events: seq<Event>, replies: seq<Reply>)
    requires Unmerged(events) && Scripted(c, events, replies) && EndsWithoutATool(replies)
    ensures Run(c, events).turns <= (if replies == [] then 1 else |replies|) + MAX_NUDGES
  {
    AScriptedRunSpendsItsTurns(c, events, replies);
  }
}
