/**
 The state of an unmerged run, read off its transcript alone: the task, the draft, whether a
 report is being asked for, what was saved, how many acts were proposed, and the answer.
 Nothing here looks at how the reasoning node or a tool node computes its update.
 */
module Transcripts {
  import opened Options
  import opened Acts
  import opened Tools
  import opened Graph
  import opened Protocol
  import opened Runs

  // -- What a transcript says ---------------------------------------------------

  /** The model was asked for the report, in so many words. */
  predicate AsksForTheReport(m: Message) {
    m.Correction? && m.step == ToolName(Write) && !m.hasDraft
  }

  predicate LongEnough(content: string) {
    |Strip(content)| >= 80
  }

  /** The last correction asks for the report, and no long enough prose has come since. */
  predicate RequestOpen(messages: seq<Message>) {
    messages != [] &&
    var last := messages[|messages| - 1];
    if last.Correction? then AsksForTheReport(last)
    else !(last.Assistant? && LongEnough(last.content)) && RequestOpen(messages[..|messages| - 1])
  }

  /** The first long enough prose that answers an open request, and nothing before that. */
  function DraftIn(messages: seq<Message>): string {
    if messages == [] then ""
    else
      var before, last := messages[..|messages| - 1], messages[|messages| - 1];
      if DraftIn(before) == "" && RequestOpen(before) && last.Assistant? && LongEnough(last.content)
      then last.content else DraftIn(before)
  }

  predicate Saves(m: Message) {
    m.ToolResult? && m.name == ToolName(Write) && m.outcome.Saved?
  }

  /** Some write in the transcript came back with a saved report. */
  predicate HasSaved(messages: seq<Message>) {
    exists i :: 0 <= i < |messages| && Saves(messages[i])
  }

  predicate ProposesATool(m: Message) {
    Proposes(m) && ToolNamed(m.calls[0].name).Some?
  }

  /** How many acts of a known tool were proposed. */
  function ActsIn(messages: seq<Message>): nat {
    if messages == [] then 0
    else ActsIn(messages[..|messages| - 1]) + if ProposesATool(messages[|messages| - 1]) then 1 else 0
  }

  /** The last turn that was not an unknown tool's was corrected. */
  predicate Corrected(messages: seq<Message>) {
    messages != [] &&
    var last := messages[|messages| - 1];
    if last.Correction? then true
    else if last.Assistant? && (last.calls == [] || ProposesATool(last)) then false
    else Corrected(messages[..|messages| - 1])
  }

  /** The closing prose, when the transcript ends in prose. */
  function AnswerIn(messages: seq<Message>): string {
    if messages != [] && messages[|messages| - 1].Assistant? && messages[|messages| - 1].calls == []
    then messages[|messages| - 1].content else ""
  }

  /** The state says what the transcript says. */
  ghost predicate Told(w: World) {
    var s := w.state;
    && s.draft == DraftIn(s.messages)
    && (s.draftRequested <==> RequestOpen(s.messages))
    && s.reportText == (if HasSaved(s.messages) then DraftIn(s.messages) else "")
    && (HasSaved(s.messages) ==> DraftIn(s.messages) != "")
    && s.sequence == ActsIn(s.messages)
    && (s.nudge <==> Corrected(s.messages))
    && s.answer == (if w.at.Finished? then AnswerIn(s.messages) else "")
  }

  // -- One message more ---------------------------------------------------------

  lemma OneMoreTells(messages: seq<Message>, m: Message)
    ensures var all := messages + [m];
            && (RequestOpen(all) <==> if m.Correction? then AsksForTheReport(m)
                                      else !(m.Assistant? && LongEnough(m.content)) && RequestOpen(messages))
            && DraftIn(all) == (if DraftIn(messages) == "" && RequestOpen(messages) && m.Assistant? && LongEnough(m.content)
                                then m.content else DraftIn(messages))
            && (HasSaved(all) <==> HasSaved(messages) || Saves(m))
            && ActsIn(all) == ActsIn(messages) + (if ProposesATool(m) then 1 else 0)
            && (Corrected(all) <==> if m.Correction? then true
                                    else !(m.Assistant? && (m.calls == [] || ProposesATool(m))) && Corrected(messages))
            && AnswerIn(all) == if m.Assistant? && m.calls == [] then m.content else ""
  {
    var all := messages + [m];
    assert all[..|messages|] == messages && all[|messages|] == m;
    if HasSaved(messages) {
      var i :| 0 <= i < |messages| && Saves(messages[i]);
      assert all[i] == messages[i];
    }
  }

  lemma TheOpeningTellsNothing(s: State)
    ensures RequestOpen(Begun(s)) == RequestOpen(s.messages) && DraftIn(Begun(s)) == DraftIn(s.messages)
    ensures HasSaved(Begun(s)) == HasSaved(s.messages) && ActsIn(Begun(s)) == ActsIn(s.messages)
    ensures Corrected(Begun(s)) == Corrected(s.messages)
  {
    if s.messages == [] {
      assert Begun(s) == ([] + [System]) + [User(s.task)];
      OneMoreTells([], System);
      OneMoreTells([] + [System], User(s.task));
    } else {
      assert Begun(s) == s.messages;
    }
  }

  // -- One turn -----------------------------------------------------------------

  /** Some message of the model called for it, by a name that has any text. */
  predicate WasProposed(messages: seq<Message>, name: string) {
    name != "" && exists i, j ::
      && 0 <= i < |messages| && messages[i].Assistant? && 0 <= j < |messages[i].calls| && messages[i].calls[j].name == name
  }

  lemma AttemptedIsProposed(messages: seq<Message>, name: string)
    ensures name in Attempted(messages) <==> WasProposed(messages, name)
  {
    if name in Attempted(messages) {
      var m, call :| m in messages && m.Assistant? && call in m.calls && call.name != "" && call.name == name;
      var i :| 0 <= i < |messages| && messages[i] == m;
      var j :| 0 <= j < |m.calls| && m.calls[j] == call;
      assert messages[i].calls[j].name == name;
    }
    if WasProposed(messages, name) {
      var i, j :| && 0 <= i < |messages| && messages[i].Assistant? && 0 <= j < |messages[i].calls|
                  && messages[i].calls[j].name == name;
      assert messages[i] in messages && messages[i].calls[j] in messages[i].calls;
    }
  }

  /** Some required act was never proposed. */
  predicate WorkOutstanding(required: seq<string>, messages: seq<Message>) {
    exists i :: 0 <= i < |required| && !WasProposed(messages, required[i])
  }

  /** What one reply adds to a transcript, and where it takes the thread. */
  ghost predicate Turned(c: Setting, w: World, reply: Reply, w': World) {
    var begun, messages := Begun(w.state), w'.state.messages;
    if reply.calls == [] then
      if WorkOutstanding(c.required, begun) && Corrections(w.state.messages) < 6
      then exists m: Message ::
             && m.Correction? && messages == begun + [Assistant(reply.content, [])] + [m]
             && (m.hasDraft <==> DraftIn(begun + [Assistant(reply.content, [])]) != "")
             && w'.at.AtReason?
      else messages == begun + [Assistant(reply.content, [])] && w'.at.Finished?
    else
      var call := reply.calls[0];
      match ToolNamed(call.name)
      case None =>
        && messages == begun + [Assistant("", [call])] + [ToolResult(call.id, call.name, NoSuchTool(call.name))]
        && w'.at == if Corrected(w.state.messages) then AtReason else Finished
      case Some(t) => messages == begun + [Assistant(reply.content, [call])] && w'.at == AtTool(t)
  }

  lemma ATurnIsTurned(c: Setting, w: World, reply: Reply)
    requires w.at.AtReason? && Told(w) && DraftKept(w) && CorrectionsCounted(c, w)
    ensures Turned(c, w, reply, TakeTurn(c, w, reply))
  {
    if reply.calls == [] {
      ProseIsTurned(c, w, reply);
    } else if ToolNamed(reply.calls[0].name).None? {
      AnUnknownToolIsTurned(c, w, reply);
    } else {
      AProposalIsTurned(c, w, reply);
    }
  }

  lemma AnUnknownToolIsTurned(c: Setting, w: World, reply: Reply)
    requires w.at.AtReason? && reply.calls != [] && ToolNamed(reply.calls[0].name).None?
    ensures var call, w' := reply.calls[0], TakeTurn(c, w, reply);
            && w'.state.messages ==
               Begun(w.state) + [Assistant("", [call])] + [ToolResult(call.id, call.name, NoSuchTool(call.name))]
            && w'.state == w.state.(messages := w'.state.messages, pending := None)
            && w'.at == if w.state.nudge then AtReason else Finished
  {
    var call, u := reply.calls[0], Reason(c.required, w.state, reply);
    assert u.messages == Opening(w.state) + [Assistant("", [call])] + [ToolResult(call.id, call.name, NoSuchTool(call.name))];
  }

  lemma AProposalIsTurned(c: Setting, w: World, reply: Reply)
    requires w.at.AtReason? && reply.calls != [] && ToolNamed(reply.calls[0].name).Some?
    ensures var call, w' := reply.calls[0], TakeTurn(c, w, reply);
            && w'.state.messages == Begun(w.state) + [Assistant(reply.content, [call])]
            && w'.at == AtTool(ToolNamed(call.name).value) && !w'.state.nudge && w'.state.sequence == w.state.sequence + 1
            && w'.state.reportText == w.state.reportText && w'.state.answer == w.state.answer
            && w'.state.draft == (if Drafts(w.state, reply) then reply.content else w.state.draft)
            && (w'.state.draftRequested <==> w.state.draftRequested && !Drafts(w.state, reply))
  {
  }

  lemma OutstandingIsMissing(required: seq<string>, messages: seq<Message>)
    ensures WorkOutstanding(required, messages) <==> Missing(required, Attempted(messages)) != []
  {
    var missing := Missing(required, Attempted(messages));
    MissingIsWhatWasNotAttempted(required, Attempted(messages));
    if missing != [] {
      assert missing[0] in missing;
      AttemptedIsProposed(messages, missing[0]);
    }
    if WorkOutstanding(required, messages) {
      var i :| 0 <= i < |required| && !WasProposed(messages, required[i]);
      AttemptedIsProposed(messages, required[i]);
      assert required[i] in missing;
    }
  }

  lemma ProseIsCorrected(c: Setting, w: World, reply: Reply) returns (m: Message)
    requires w.at.AtReason? && reply.calls == [] && w.state.nudges < MAX_NUDGES
    requires Missing(c.required, Attempted(Begun(w.state))) != []
    ensures m.Correction? && (m.hasDraft <==> Drafts(w.state, reply) || w.state.draft != "")
    ensures var w' := TakeTurn(c, w, reply);
            && w'.state.messages == Begun(w.state) + [Assistant(reply.content, [])] + [m] && w'.at.AtReason?
            && w'.state.nudge && (w'.state.draftRequested <==> AsksForTheReport(m))
            && w'.state == w.state.(
                 messages := w'.state.messages, pending := None, nudge := true, nudges := w.state.nudges + 1,
                 draftRequested := w'.state.draftRequested,
                 draft := if Drafts(w.state, reply) then reply.content else w.state.draft)
  {
    var u := Reason(c.required, w.state, reply);
    m := u.messages[|u.messages| - 1];
    assert u.messages == Opening(w.state) + [Assistant(reply.content, [])] + [m];
    assert Strip("") == "";
  }

  lemma ProseEnds(c: Setting, w: World, reply: Reply)
    requires w.at.AtReason? && reply.calls == []
    requires w.state.nudges >= MAX_NUDGES || Missing(c.required, Attempted(Begun(w.state))) == []
    ensures var w' := TakeTurn(c, w, reply);
            && w'.state.messages == Begun(w.state) + [Assistant(reply.content, [])] && w'.at.Finished?
            && w'.state == w.state.(
                 messages := w'.state.messages, pending := None, nudge := false, answer := reply.content,
                 draftRequested := w.state.draftRequested && !Drafts(w.state, reply),
                 draft := if Drafts(w.state, reply) then reply.content else w.state.draft)
  {
  }

  lemma ProseIsTurned(c: Setting, w: World, reply: Reply)
    requires w.at.AtReason? && Told(w) && DraftKept(w) && CorrectionsCounted(c, w) && reply.calls == []
    ensures Turned(c, w, reply, TakeTurn(c, w, reply))
  {
    var begun, said := Begun(w.state), Assistant(reply.content, []);
    OutstandingIsMissing(c.required, begun);
    if WorkOutstanding(c.required, begun) && w.state.nudges < MAX_NUDGES {
      var m := ProseIsCorrected(c, w, reply);
      WhatIsTaken(w, reply, said);
      assert m.hasDraft <==> DraftIn(begun + [said]) != "";
    } else {
      ProseEnds(c, w, reply);
    }
  }

  /** What the node takes as the report is what the transcript says was asked for. */
  lemma WhatIsTaken(w: World, reply: Reply, said: Message)
    requires Told(w) && DraftKept(w) && said.Assistant? && said.content == reply.content
    ensures Drafts(w.state, reply) <==> RequestOpen(w.state.messages) && LongEnough(reply.content)
    ensures DraftIn(Begun(w.state) + [said]) == if Drafts(w.state, reply) then reply.content else w.state.draft
    ensures Drafts(w.state, reply) ==> w.state.draft == "" && reply.content != ""
  {
    TheOpeningTellsNothing(w.state);
    OneMoreTells(Begun(w.state), said);
    assert Strip("") == "";
  }

  // -- The state is told --------------------------------------------------------

  lemma ProseKeepsTold(c: Setting, w: World, reply: Reply)
    requires w.at.AtReason? && Told(w) && DraftKept(w) && CorrectionsCounted(c, w) && reply.calls == []
    ensures Told(TakeTurn(c, w, reply))
  {
    var begun, said := Begun(w.state), Assistant(reply.content, []);
    TheOpeningTellsNothing(w.state);
    WhatIsTaken(w, reply, said);
    OneMoreTells(begun, said);
    if Missing(c.required, Attempted(begun)) != [] && w.state.nudges < MAX_NUDGES {
      var m := ProseIsCorrected(c, w, reply);
      OneMoreTells(begun + [said], m);
    } else {
      ProseEnds(c, w, reply);
    }
  }

  lemma AnUnknownToolKeepsTold(c: Setting, w: World, reply: Reply)
    requires w.at.AtReason? && Told(w) && reply.calls != [] && ToolNamed(reply.calls[0].name).None?
    ensures Told(TakeTurn(c, w, reply))
  {
    var begun, call := Begun(w.state), reply.calls[0];
    var said, result := Assistant("", [call]), ToolResult(call.id, call.name, NoSuchTool(call.name));
    assert Strip("") == "";
    TheOpeningTellsNothing(w.state);
    AnUnknownToolIsTurned(c, w, reply);
    OneMoreTells(begun, said);
    OneMoreTells(begun + [said], result);
  }

  lemma AProposalKeepsTold(c: Setting, w: World, reply: Reply)
    requires w.at.AtReason? && Told(w) && DraftKept(w) && reply.calls != [] && ToolNamed(reply.calls[0].name).Some?
    ensures Told(TakeTurn(c, w, reply))
  {
    var said := Assistant(reply.content, [reply.calls[0]]);
    TheOpeningTellsNothing(w.state);
    AProposalIsTurned(c, w, reply);
    WhatIsTaken(w, reply, said);
    OneMoreTells(Begun(w.state), said);
  }

  lemma ABodyKeepsTold(c: Setting, w: World, answer: Answer)
    requires TranscriptKept(w) && DraftKept(w) && Told(w) && w.at.AtTool? && answer.Allow?
    ensures Told(Execute(c, w, w.at.tool, answer))
  {
    var t, s := w.at.tool, w.state;
    ProposedActsAreBound(c, t, s);
    var w' := Execute(c, w, t, answer);
    var result := w'.state.messages[|s.messages|];
    assert w'.state.messages == s.messages + [result];
    OneMoreTells(s.messages, result);
    BodyWritesTheDraft(c, w, t, LastAuthorisation(w.stamps[Capability(t) := answer.decisionRef], t));
    if s.pending.value.tool == ToolName(Write) { NamesAndCapabilitiesAreDistinct(t, Write); }
  }

  lemma TurnKeepsTold(c: Setting, w: World, reply: Reply)
    requires w.at.AtReason? && Told(w) && DraftKept(w) && CorrectionsCounted(c, w)
    ensures Told(TakeTurn(c, w, reply))
  {
    if reply.calls == [] { ProseKeepsTold(c, w, reply); }
    else if ToolNamed(reply.calls[0].name).None? { AnUnknownToolKeepsTold(c, w, reply); }
    else { AProposalKeepsTold(c, w, reply); }
  }

  lemma StepKeepsTold(c: Setting, w: World, e: Event)
    requires TranscriptKept(w) && DraftKept(w) && CorrectionsCounted(c, w) && Told(w)
    requires e.Resume? ==> e.update == NO_UPDATE
    ensures Told(Step(c, w, e))
  {
    match e
    case Start(_) =>
    case Turn(reply) => if w.at.AtReason? { TurnKeepsTold(c, w, reply); }
    case Ask(answer) => if w.at.AtTool? && answer.Allow? { ABodyKeepsTold(c, w, answer); }
    case Resume(_) => MergingNothingChangesNothing(w.state);
  }

  /** Everything the state of an unmerged run carries is what its transcript says: the draft is
      the first long enough prose that answered a request for the report, and it is always
      taken; a request is open exactly while the transcript leaves it open; the saved text is
      the draft, once a write came back saved; acts are numbered as they were proposed. */
  lemma {:induction false} TheStateIsTold(c: Setting, events: seq<Event>)
    requires Unmerged(events)
    ensures Told(Run(c, events))
  {
    if events != [] {
      var before := events[..|events| - 1];
      TheStateIsTold(c, before);
      EveryTranscriptIsPaired(c, before);
      TheDraftIsOneReply(c, before);
      ThreeWaysToFinish(c, before);
      StepKeepsTold(c, Run(c, before), events[|events| - 1]);
    }
  }

  /** What every turn of an unmerged run adds to the transcript, and where it goes. */
  lemma EveryTurnIsTurned(c: Setting, events: seq<Event>, reply: Reply)
    requires Unmerged(events) && Run(c, events).at.AtReason?
    ensures Turned(c, Run(c, events), reply, Run(c, events + [Turn(reply)]))
  {
    TheStateIsTold(c, events);
    TheDraftIsOneReply(c, events);
    ThreeWaysToFinish(c, events);
    ATurnIsTurned(c, Run(c, events), reply);
    RunOneMore(c, events, Turn(reply));
  }

  /** The prose that answers a request for the report is the report: exactly when it is long
      enough and does not come with a call of an unknown tool, whose prose is dropped. */
  lemma AnAnswerToTheRequestIsTheDraft(c: Setting, events: seq<Event>, reply: Reply)
    requires Unmerged(events) && Run(c, events).at.AtReason? && Run(c, events).state.draft == ""
    requires var messages := Run(c, events).state.messages;
             messages != [] && AsksForTheReport(messages[|messages| - 1])
    ensures var draft := Run(c, events + [Turn(reply)]).state.draft;
            if LongEnough(reply.content) && (reply.calls == [] || ToolNamed(reply.calls[0].name).Some?)
            then draft == reply.content else draft == ""
  {
    var w := Run(c, events);
    TheStateIsTold(c, events);
    TheDraftIsOneReply(c, events);
    ThreeWaysToFinish(c, events);
    RunOneMore(c, events, Turn(reply));
    WhatIsTaken(w, reply, Assistant(reply.content, []));
    ProseIsTheDraftExactlyWhen(c, w, reply);
  }

  /** Whatever was merged before: prose is the draft exactly when a report was asked for, none
      is saved, it is long enough, and it is not dropped with an unknown tool. */
  lemma ProseIsTheDraftExactlyWhen(c: Setting, w: World, reply: Reply)
    requires w.at.AtReason?
    ensures var s := w.state;
            TakeTurn(c, w, reply).state.draft ==
            if s.draftRequested && s.reportText == "" && LongEnough(reply.content)
               && (reply.calls == [] || ToolNamed(reply.calls[0].name).Some?)
            then reply.content else s.draft
  {
    if reply.calls == [] {
      if Missing(c.required, Attempted(Begun(w.state))) != [] && w.state.nudges < MAX_NUDGES {
        var m := ProseIsCorrected(c, w, reply);
      } else {
        ProseEnds(c, w, reply);
      }
    } else if ToolNamed(reply.calls[0].name).None? {
      AnUnknownToolIsTurned(c, w, reply);
    } else {
      AProposalIsTurned(c, w, reply);
    }
  }

  // -- The task -----------------------------------------------------------------

  /** The task of the first start: later ones do nothing. */
  function TaskOf(events: seq<Event>): Option<string> {
    if events == [] then None
    else
      var first := TaskOf(events[..|events| - 1]);
      if first.None? && events[|events| - 1].Start? then Some(events[|events| - 1].task) else first
  }

  /** A run carries the task it was started with, and tells it to the model. */
  lemma {:induction false} TheTaskIsTheOneStarted(c: Setting, events: seq<Event>)
    requires Unmerged(events)
    ensures var w := Run(c, events);
            && (w.at.NotStarted? <==> TaskOf(events).None?)
            && (!w.at.NotStarted? ==> w.state.task == TaskOf(events).value)
            && (w.state.messages != [] ==> |w.state.messages| >= 2 && !w.at.NotStarted?
                                           && w.state.messages[..2] == [System, User(w.state.task)])
  {
    if events != [] {
      var before, e := events[..|events| - 1], events[|events| - 1];
      TheTaskIsTheOneStarted(c, before);
      EveryTranscriptIsPaired(c, before);
      StepKeepsTheTask(c, Run(c, before), e);
    }
  }

  lemma ATurnKeepsTheTask(c: Setting, w: World, reply: Reply)
    requires w.at.AtReason?
    requires w.state.messages != [] ==> |w.state.messages| >= 2 && w.state.messages[..2] == [System, User(w.state.task)]
    ensures var w' := TakeTurn(c, w, reply);
            && w'.state.task == w.state.task && !w'.at.NotStarted?
            && |w'.state.messages| >= 2 && w'.state.messages[..2] == [System, User(w.state.task)]
  {
    var said, more := ATurnSays(c, w.state, reply);
    var begun := Begun(w.state);
    if w.state.messages != [] { assert begun == w.state.messages; }
    assert begun[..2] == [System, User(w.state.task)];
    assert (begun + [said] + more)[..2] == begun[..2];
  }

  lemma StepKeepsTheTask(c: Setting, w: World, e: Event)
    requires TranscriptKept(w) && (e.Resume? ==> e.update == NO_UPDATE)
    requires w.state.messages != [] ==>
               |w.state.messages| >= 2 && !w.at.NotStarted? && w.state.messages[..2] == [System, User(w.state.task)]
    ensures var w' := Step(c, w, e);
            && (w'.at.NotStarted? <==> w.at.NotStarted? && !e.Start?)
            && w'.state.task == (if w.at.NotStarted? && e.Start? then e.task else w.state.task)
            && (w'.state.messages != [] ==>
                  |w'.state.messages| >= 2 && !w'.at.NotStarted? && w'.state.messages[..2] == [System, User(w'.state.task)])
  {
    match e
    case Start(_) =>
    case Turn(reply) =>
      if w.at.AtReason? { ATurnKeepsTheTask(c, w, reply); }
    case Ask(answer) => if w.at.AtTool? { ProposedActsAreBound(c, w.at.tool, w.state); }
    case Resume(_) => MergingNothingChangesNothing(w.state);
  }
}
