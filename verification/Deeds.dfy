/**
 What the proposals of an unmerged run are asked as, and what they do when they are allowed,
 in terms of the transcript alone: the call the model made, and the draft the transcript shows.
 */
module Deeds {
  import opened Options
  import opened Acts
  import opened Tools
  import opened Graph
  import opened Protocol
  import opened Runs
  import opened Transcripts

  // -- What a call says ---------------------------------------------------------

  /** The text of the call's own argument, and nothing when it has none. */
  function Said(call: Call, key: string): string {
    if key in call.arguments then Shown(call.arguments[key]) else ""
  }

  /** The same, with a product name in place of an absent or empty one. */
  function SaidOr(call: Call, key: string, default: string): string {
    if key in call.arguments && Truthy(call.arguments[key]) then Shown(call.arguments[key]) else default
  }

  /** The file a call of tool `t` names; a name without any text falls to the tool's own. */
  function FileOf(t: Tool, call: Call): string {
    var name := SaidOr(call, "filename", "research-report.md");
    if name == "" then (if t == Upload then "payload.bin" else "research-report.md") else name
  }

  /** The unanswered proposal at the end of a transcript. */
  function Proposal(messages: seq<Message>): Call
    requires EndsInProposal(messages)
  {
    messages[|messages| - 1].calls[0]
  }

  /** What a call of tool `t` is asked as, when it is act number `act` and the draft is `draft`. */
  function AskedAs(c: Setting, t: Tool, call: Call, act: int, draft: string): Binding {
    match t
    case Read => ReadBinding(act, Names(CorpusNames(c)))
    case Write => WriteBinding(act, SaidOr(call, "filename", "research-report.md"), c.digest(draft))
    case Send =>
      SendBinding(act, Said(call, "recipient"), Domain(Said(call, "recipient")),
        SaidOr(call, "subject", "ResearchOps report"), c.digest(draft))
    case Upload => UploadBinding(act, Said(call, "destination"), SaidOr(call, "filename", "research-report.md"))
  }

  /** The domain is what follows the last `@`. */
  lemma {:induction false} TheDomainFollowsTheLastAt(s: string)
    ensures '@' !in Domain(s)
    ensures '@' in s ==> |Domain(s)| < |s| && s == s[..|s| - |Domain(s)| - 1] + "@" + Domain(s)
    ensures '@' !in s ==> Domain(s) == s
    decreases |s|
  {
    if '@' in s {
      var rest := AfterFirst(s);
      TheFirstAt(s);
      TheDomainFollowsTheLastAt(rest);
      var i := |s| - |rest| - 1;
      if '@' in rest {
        assert rest == rest[..|rest| - |Domain(rest)| - 1] + "@" + Domain(rest);
        assert s == s[..i + 1] + rest;
        assert s[..|s| - |Domain(s)| - 1] == s[..i + 1] + rest[..|rest| - |Domain(rest)| - 1];
      }
    }
  }

  lemma {:induction false} TheFirstAt(s: string)
    requires '@' in s
    ensures var rest := AfterFirst(s); |rest| < |s| && s[|s| - |rest| - 1] == '@' && s[|s| - |rest|..] == rest
  {
    if s[0] != '@' { TheFirstAt(s[1..]); }
  }

  // -- What an act is asked as --------------------------------------------------

  /** A node puts one question, about the call the model made. */
  lemma AProposalIsAskedAs(c: Setting, events: seq<Event>, answer: Answer)
    requires Unmerged(events) && Run(c, events).at.AtTool?
    ensures var w, w' := Run(c, events), Run(c, events + [Ask(answer)]);
            var t, messages := w.at.tool, w.state.messages;
            && EndsInProposal(messages) && Proposal(messages).name == ToolName(t)
            && w'.trace == w.trace + [Exchange(t, w.state,
                 Question(c.scope, c.principal, Capability(t),
                   c.wire(AskedAs(c, t, Proposal(messages), ActsIn(messages), DraftIn(messages)))), answer)]
  {
    var w := Run(c, events);
    EveryTranscriptIsPaired(c, events);
    TheStateIsTold(c, events);
    RunOneMore(c, events, Ask(answer));
    ProposedActsAreBound(c, w.at.tool, w.state);
    TheBindingIsWhatItIsAskedAs(c, w);
  }

  lemma TheBindingIsWhatItIsAskedAs(c: Setting, w: World)
    requires TranscriptKept(w) && Told(w) && w.at.AtTool?
    ensures var messages := w.state.messages;
            Bind(c, w.at.tool, w.state) ==
            Some(AskedAs(c, w.at.tool, Proposal(messages), ActsIn(messages), DraftIn(messages)))
  {
    ProposedActsAreBound(c, w.at.tool, w.state);
  }

  // -- What an allowed act does -------------------------------------------------

  function Named(reference: string): string {
    if reference == "" then "no-decision" else reference
  }

  /** The corpus, when there is one. */
  function Reading(c: Setting): Outcome {
    if |c.corpus| == 0 then Refused(EmptyCorpus) else CorpusText(c.corpus)
  }

  /** What an allowed call of tool `t` leaves in the files, and what the model is told of it. */
  predicate Does(c: Setting, t: Tool, call: Call, draft: string, ref: string, f: Files, f': Files, told: Outcome) {
    var stamp := Governance(Capability(t), Some(ref));
    match t
    case Read => f' == f && told == Reading(c)
    case Write =>
      var name := FileOf(t, call);
      if c.checked(name).None? then f' == f && told == Refused(BadName(name))
      else if Strip(draft) == "" then f' == f && told == Refused(NoReport)
      else
        && f'.outbox == f.outbox && f'.reports == f.reports[c.checked(name).value := draft]
        && told == Saved(c.checked(name).value, |draft|)
    case Send =>
      var recipient := Strip(Said(call, "recipient"));
      if '@' !in recipient then f' == f && told == Refused(NotAnAddress(recipient))
      else
        && f'.reports == f.reports && told == Delivered(recipient)
        && f'.outbox == f.outbox["message-" + Named(ref) + ".json" :=
             MessageFile(recipient, Strip(SaidOr(call, "subject", "ResearchOps report")), draft, stamp)]
    case Upload =>
      var name := FileOf(t, call);
      if c.checked(name).None? then f' == f && told == Refused(BadName(name))
      else
        var destination := Strip(Said(call, "destination"));
        && f'.reports == f.reports && told == Uploaded(c.checked(name).value, destination)
        && f'.outbox == f.outbox["upload-" + Named(ref) + ".json" :=
             UploadFile(destination, c.checked(name).value, stamp)]
  }

  /** An allowed act does what its call says, with the draft the transcript shows, and the
      model is told so: nothing invents a recipient, a destination, a name or a text. */
  lemma AnAllowedProposalDoes(c: Setting, events: seq<Event>, ref: string)
    requires Unmerged(events) && Run(c, events).at.AtTool?
    ensures var w, w' := Run(c, events), Run(c, events + [Ask(Allow(ref))]);
            var messages, n := w.state.messages, |w.state.messages|;
            && EndsInProposal(messages) && w'.at.AtReason?
            && |w'.state.messages| == n + 1 && w'.state.messages[..n] == messages
            && Answers(w'.state.messages[n], Proposal(messages))
            && Does(c, w.at.tool, Proposal(messages), DraftIn(messages), ref, w.files, w'.files, w'.state.messages[n].outcome)
  {
    var w := Run(c, events);
    EveryTranscriptIsPaired(c, events);
    TheStateIsTold(c, events);
    RunOneMore(c, events, Ask(Allow(ref)));
    ATrailingProposalDoes(c, w, ref);
  }

  lemma ATrailingProposalDoes(c: Setting, w: World, ref: string)
    requires TranscriptKept(w) && Told(w) && w.at.AtTool?
    ensures var w' := Execute(c, w, w.at.tool, Allow(ref));
            var messages, n := w.state.messages, |w.state.messages|;
            && w'.at.AtReason? && |w'.state.messages| == n + 1 && w'.state.messages[..n] == messages
            && Answers(w'.state.messages[n], Proposal(messages))
            && Does(c, w.at.tool, Proposal(messages), DraftIn(messages), ref, w.files, w'.files, w'.state.messages[n].outcome)
  {
    var t := w.at.tool;
    ProposedActsAreBound(c, t, w.state);
    var r := Resolve(c, w.state);
    TheEffectIsWhatItDoes(c, w, ref);
    var told := Perform(c, t, r, Governance(Capability(t), Some(ref)), w.files).1;
    assert Execute(c, w, t, Allow(ref)).state.messages ==
           w.state.messages + [ToolResult(w.state.pending.value.callId, w.state.pending.value.tool, told)];
  }

  /** The pending act is the trailing proposal, and the texts are the transcript's. */
  lemma WhatIsPending(w: World)
    requires TranscriptKept(w) && Told(w) && w.at.AtTool?
    ensures var s, call := w.state, Proposal(w.state.messages);
            && s.pending.Some? && s.pending.value.tool == ToolName(w.at.tool) && s.pending.value.arguments == call.arguments
            && s.draft == DraftIn(s.messages) && (if s.reportText != "" then s.reportText else s.draft) == DraftIn(s.messages)
  {
  }

  lemma AWriteResolvesTo(c: Setting, s: State)
    requires s.pending.Some? && s.pending.value.tool == ToolName(Write)
    ensures var r, call := Resolve(c, s), Call("", "", s.pending.value.arguments);
            UsedName(Write, r) == FileOf(Write, call) && Shown(Field(r, "content")) == s.draft
  {
    ProposedActsAreBound(c, Write, s);
  }

  lemma ASendResolvesTo(c: Setting, s: State)
    requires s.pending.Some? && s.pending.value.tool == ToolName(Send)
    ensures var r, call := Resolve(c, s), Call("", "", s.pending.value.arguments);
            && Shown(Field(r, "recipient")) == Said(call, "recipient")
            && Shown(Field(r, "subject")) == SaidOr(call, "subject", "ResearchOps report")
            && Shown(Field(r, "body")) == if s.reportText != "" then s.reportText else s.draft
  {
    ProposedActsAreBound(c, Send, s);
  }

  lemma AnUploadResolvesTo(c: Setting, s: State)
    requires s.pending.Some? && s.pending.value.tool == ToolName(Upload)
    ensures var r, call := Resolve(c, s), Call("", "", s.pending.value.arguments);
            UsedName(Upload, r) == FileOf(Upload, call) && Shown(Field(r, "destination")) == Said(call, "destination")
  {
    ProposedActsAreBound(c, Upload, s);
  }

  /** The resolution of a trailing proposal, field by field. */
  lemma WhatAProposalResolvesTo(c: Setting, w: World)
    requires TranscriptKept(w) && Told(w) && w.at.AtTool? && w.state.pending.Some?
    ensures var r, messages, t := Resolve(c, w.state), w.state.messages, w.at.tool;
            var call, draft := Proposal(messages), DraftIn(messages);
            && (t == Write ==> UsedName(t, r) == FileOf(t, call) && Shown(Field(r, "content")) == draft)
            && (t == Send ==>
                  && Shown(Field(r, "recipient")) == Said(call, "recipient")
                  && Shown(Field(r, "subject")) == SaidOr(call, "subject", "ResearchOps report")
                  && Shown(Field(r, "body")) == draft)
            && (t == Upload ==> UsedName(t, r) == FileOf(t, call) && Shown(Field(r, "destination")) == Said(call, "destination"))
  {
    WhatIsPending(w);
    match w.at.tool
    case Read =>
    case Write => AWriteResolvesTo(c, w.state);
    case Send => ASendResolvesTo(c, w.state);
    case Upload => AnUploadResolvesTo(c, w.state);
  }

  lemma TheEffectIsWhatItDoes(c: Setting, w: World, ref: string)
    requires TranscriptKept(w) && Told(w) && w.at.AtTool?
    ensures var t, messages := w.at.tool, w.state.messages;
            var (f, told) := Perform(c, t, Resolve(c, w.state), Governance(Capability(t), Some(ref)), w.files);
            Does(c, t, Proposal(messages), DraftIn(messages), ref, w.files, f, told)
  {
    WhatIsPending(w);
    WhatAProposalResolvesTo(c, w);
    EffectsByTheirFields(c, w.at.tool, Resolve(c, w.state), Proposal(w.state.messages), DraftIn(w.state.messages), ref, w.files);
  }

  lemma EffectsByTheirFields(c: Setting, t: Tool, r: Resolved, call: Call, draft: string, ref: string, f: Files)
    requires t == Write ==> UsedName(t, r) == FileOf(t, call) && Shown(Field(r, "content")) == draft
    requires t == Send ==>
               && Shown(Field(r, "recipient")) == Said(call, "recipient")
               && Shown(Field(r, "subject")) == SaidOr(call, "subject", "ResearchOps report")
               && Shown(Field(r, "body")) == draft
    requires t == Upload ==> UsedName(t, r) == FileOf(t, call) && Shown(Field(r, "destination")) == Said(call, "destination")
    ensures var (f', told) := Perform(c, t, r, Governance(Capability(t), Some(ref)), f);
            Does(c, t, call, draft, ref, f, f', told)
  {
    match t
    case Read =>
    case Write =>
    case Send =>
    case Upload =>
  }

  // -- Every file is some proposal's --------------------------------------------

  /** Some reply of the model called tool `t` first, and `says` is true of that call. */
  ghost predicate Proposed(events: seq<Event>, t: Tool, says: Call -> bool) {
    exists k :: 0 <= k < |events| && events[k].Turn? && events[k].reply.calls != []
                && events[k].reply.calls[0].name == ToolName(t) && says(events[k].reply.calls[0])
  }

  function SaysMessage(a: Artefact): Call -> bool {
    call => a.MessageFile? && a.recipient == Strip(Said(call, "recipient"))
            && a.subject == Strip(SaidOr(call, "subject", "ResearchOps report"))
  }

  function SaysUpload(c: Setting, a: Artefact): Call -> bool {
    call => a.UploadFile? && a.destination == Strip(Said(call, "destination"))
            && c.checked(FileOf(Upload, call)) == Some(a.filename)
  }

  function SaysReport(c: Setting, name: string): Call -> bool {
    call => c.checked(FileOf(Write, call)) == Some(name)
  }

  ghost predicate FilesProposed(c: Setting, events: seq<Event>, f: Files) {
    && (forall name :: name in f.outbox && f.outbox[name].MessageFile? ==> Proposed(events, Send, SaysMessage(f.outbox[name])))
    && (forall name :: name in f.outbox && f.outbox[name].UploadFile? ==> Proposed(events, Upload, SaysUpload(c, f.outbox[name])))
    && (forall name :: name in f.reports ==> Proposed(events, Write, SaysReport(c, name)))
  }

  lemma StillProposed(events: seq<Event>, e: Event, t: Tool, says: Call -> bool)
    requires Proposed(events, t, says)
    ensures Proposed(events + [e], t, says)
  {
    var k :| 0 <= k < |events| && events[k].Turn? && events[k].reply.calls != []
             && events[k].reply.calls[0].name == ToolName(t) && says(events[k].reply.calls[0]);
    assert (events + [e])[k] == events[k];
  }

  lemma FilesStillProposed(c: Setting, events: seq<Event>, e: Event, f: Files)
    requires FilesProposed(c, events, f)
    ensures FilesProposed(c, events + [e], f)
  {
    forall name | name in f.outbox
      ensures f.outbox[name].MessageFile? ==> Proposed(events + [e], Send, SaysMessage(f.outbox[name]))
      ensures f.outbox[name].UploadFile? ==> Proposed(events + [e], Upload, SaysUpload(c, f.outbox[name]))
    {
      if f.outbox[name].MessageFile? { StillProposed(events, e, Send, SaysMessage(f.outbox[name])); }
      else { StillProposed(events, e, Upload, SaysUpload(c, f.outbox[name])); }
    }
    forall name | name in f.reports ensures Proposed(events + [e], Write, SaysReport(c, name)) {
      StillProposed(events, e, Write, SaysReport(c, name));
    }
  }

  lemma AnAllowedActIsProposed(c: Setting, events: seq<Event>, t: Tool, call: Call, draft: string, ref: string,
                               f: Files, f': Files, told: Outcome)
    requires FilesProposed(c, events, f) && Does(c, t, call, draft, ref, f, f', told)
    requires Voiced(events, call) && call.name == ToolName(t)
    ensures FilesProposed(c, events, f')
  {
    forall says: Call -> bool | says(call) ensures Proposed(events, t, says) {
      var k :| 0 <= k < |events| && events[k].Turn? && events[k].reply.calls != [] && events[k].reply.calls[0] == call;
    }
  }

  lemma OneStepIsProposed(c: Setting, events: seq<Event>, e: Event)
    requires Unmerged(events + [e]) && Unmerged(events) && FilesProposed(c, events, Run(c, events).files)
    ensures FilesProposed(c, events + [e], Run(c, events + [e]).files)
  {
    var w, w' := Run(c, events), Run(c, events + [e]);
    RunOneMore(c, events, e);
    if e.Ask? && e.answer.Allow? && w.at.AtTool? {
      var messages := w.state.messages;
      AnAllowedProposalDoes(c, events, e.answer.decisionRef);
      AProposalIsAskedAs(c, events, e.answer);
      EveryProposalIsTheModels(c, events);
      assert Voiced(events, Proposal(messages));
      AnAllowedActIsProposed(c, events, w.at.tool, Proposal(messages), DraftIn(messages), e.answer.decisionRef,
        w.files, w'.files, w'.state.messages[|messages|].outcome);
    } else {
      assert w'.files == w.files;
    }
    FilesStillProposed(c, events, e, w'.files);
  }

  /** Every message goes where a reply of the model that called for a send said, under the
      subject it gave; every upload to the destination and every report under the name. */
  lemma {:induction false} EveryFileIsAProposals(c: Setting, events: seq<Event>)
    requires Unmerged(events)
    ensures FilesProposed(c, events, Run(c, events).files)
  {
    if events != [] {
      var before, e := events[..|events| - 1], events[|events| - 1];
      assert before + [e] == events;
      EveryFileIsAProposals(c, before);
      OneStepIsProposed(c, before, e);
    }
  }
}
