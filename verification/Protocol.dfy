/**
 One thread of the governed graph as a state machine: the checkpoint, the stamps, the files,
 and every question put with the answer it got (`boundary_setup.py`, `graph.py`, `agent.py`).

 An event carries everything this repository does not decide: the model's reply, the
 authority's answer, what a caller merges on resume. A statement about every sequence of
 events is therefore a statement about every model, every authority and every caller. An
 event that is not possible where the thread stands changes nothing.
 */
module Protocol {
  import opened Options
  import opened Acts
  import opened Tools
  import opened Bindings
  import opened Graph
  import opened Machines

  // -- Answers and traces -------------------------------------------------------

  datatype Answer =
    | Allow(decisionRef: string)
    | Deny(reason: string)
    | Suspend(approvalRef: string)
    | AskRefused(problem: string)
    | CouldNotAsk

  /** Why a governed node left without returning: the answer it got, or that its act could
      not be bound and so no question was put. */
  datatype Halt = Answered(answer: Answer) | Unbound

  datatype At =
    | NotStarted
    | AtReason
    | AtTool(tool: Tool)
    | Halted(tool: Tool, why: Halt)
    | Finished

  /** One question, the node that put it, the state it was projected from, and the answer. */
  datatype Exchange = Exchange(tool: Tool, state: State, question: Question, answer: Answer)

  datatype World = World(
    at: At,
    state: State,
    stored: nat,                  // resume values the framework keeps for the halted node
    stamps: map<string, string>,
    files: Files,
    trace: seq<Exchange>,
    turns: nat)                   // reasoning turns taken

  const INITIAL := World(NotStarted, EMPTY_STATE, 0, map[], NO_FILES, [], 0)

  datatype Event =
    | Start(task: string)
    | Turn(reply: Reply)
    | Ask(answer: Answer)
    | Resume(update: Update)

  // -- One step -----------------------------------------------------------------

  function AfterReason(s: State): At {
    match Route(s)
    case ToReason => AtReason
    case ToTool(t) => AtTool(t)
    case ToEnd => Finished
  }

  /** The reasoning node ran and its update was merged. */
  function TakeTurn(c: Setting, w: World, reply: Reply): World {
    var s := Merge(w.state, Reason(c.required, w.state, reply));
    w.(state := s, at := AfterReason(s), turns := w.turns + 1)
  }

  /** The body of node `t`, entered under decision `ref`. */
  function EnterBody(c: Setting, w: World, t: Tool, ref: string): World
    requires w.state.pending.Some?
  {
    var stamps := w.stamps[Capability(t) := ref];
    var r := Resolve(c, w.state);
    var (files, outcome) := Perform(c, t, r, LastAuthorisation(stamps, t), w.files);
    var s := Merge(w.state, ToolUpdate(w.state.pending.value, r, outcome));
    w.(at := AtReason, state := s, stored := 0, stamps := stamps, files := files)
  }

  /** One execution of a governed node: bind, ask once, and enter the body or do not. */
  function Execute(c: Setting, w: World, t: Tool, answer: Answer): World {
    match Bind(c, t, w.state)
    case None => w.(at := Halted(t, Unbound))
    case Some(b) =>
      var asked := w.(trace := w.trace + [Exchange(t, w.state, QuestionFor(c, t, b), answer)]);
      if answer.Allow? then EnterBody(c, asked, t, answer.decisionRef)
      else asked.(at := Halted(t, Answered(answer)))
  }

  function Step(c: Setting, w: World, e: Event): World {
    match e
    case Start(task) =>
      if w.at.NotStarted? then w.(at := AtReason, state := w.state.(task := task)) else w
    case Turn(reply) =>
      if w.at.AtReason? then TakeTurn(c, w, reply) else w
    case Ask(answer) =>
      if w.at.AtTool? then Execute(c, w, w.at.tool, answer) else w
    case Resume(update) =>
      if w.at.Halted? then w.(at := AtTool(w.at.tool), state := Merge(w.state, update), stored := w.stored + 1) else w
  }

  function Run(c: Setting, events: seq<Event>): World {
    if events == [] then INITIAL
    else Step(c, Run(c, events[..|events| - 1]), events[|events| - 1])
  }

  lemma RunOneMore(c: Setting, events: seq<Event>, e: Event)
    ensures Run(c, events + [e]) == Step(c, Run(c, events), e)
  {
    assert (events + [e])[..|events|] == events;
  }

  function Stepper(c: Setting): (World, Event) -> World {
    (w, e) => Step(c, w, e)
  }

  /** The same events, taken from the front. */
  lemma {:induction false} RunningOnIsFolding(c: Setting, before: seq<Event>, events: seq<Event>)
    ensures Run(c, before + events) == Fold(Stepper(c), Run(c, before), events)
    decreases |events|
  {
    if events == [] {
      assert before + events == before;
    } else {
      RunOneMore(c, before, events[0]);
      assert before + [events[0]] + events[1..] == before + events;
      RunningOnIsFolding(c, before + [events[0]], events[1..]);
    }
  }

  /** No resume merges anything. */
  predicate Unmerged(events: seq<Event>) {
    forall i :: 0 <= i < |events| && events[i].Resume? ==> events[i].update == NO_UPDATE
  }

  // -- For an arbitrary authority and arbitrary merges --------------------------

  /** The question of an exchange is the one its own state is bound by. */
  ghost predicate Honest(c: Setting, x: Exchange) {
    && Bind(c, x.tool, x.state).Some?
    && x.question == QuestionFor(c, x.tool, Bind(c, x.tool, x.state).value)
  }

  /** Exchange `x` accounts for the artefact: it was an allow for that node's capability, it
      is the decision the artefact names, and what the artefact holds is what the binding of
      the state the body ran on says. */
  ghost predicate Explains(c: Setting, x: Exchange, name: string, a: Artefact) {
    && x.answer.Allow? && Honest(c, x)
    && a.governance == Governance(Capability(x.tool), Some(x.answer.decisionRef))
    && var b := Bind(c, x.tool, x.state).value;
      match a
      case MessageFile(recipient, subject, body, g) =>
        && x.tool == Send && name == MessageName(Reference(g))
        && recipient == Strip(b.recipient) && subject == Strip(b.subject) && c.digest(body) == b.bodyDigest
        && recipient != "" && '@' in recipient
        && body == Shown(Field(Resolve(c, x.state), "body"))
      case UploadFile(destination, filename, g) =>
        && x.tool == Upload && name == UploadName(Reference(g))
        && destination == Strip(b.destination)
        && c.checked(UsedName(Upload, Resolve(c, x.state))) == Some(filename)
  }

  /** The same for a saved report: its name is the checked name of the act that was allowed,
      and its text is the text whose digest was bound. */
  ghost predicate ExplainsReport(c: Setting, x: Exchange, name: string, content: string) {
    && x.answer.Allow? && Honest(c, x) && x.tool == Write
    && c.checked(UsedName(Write, Resolve(c, x.state))) == Some(name)
    && c.digest(content) == Bind(c, Write, x.state).value.contentDigest
    && content == Shown(Field(Resolve(c, x.state), "content")) && Strip(content) != ""
  }

  ghost predicate ReportExplained(c: Setting, trace: seq<Exchange>, name: string, content: string) {
    exists i :: 0 <= i < |trace| && ExplainsReport(c, trace[i], name, content)
  }

  ghost predicate Explained(c: Setting, trace: seq<Exchange>, name: string, a: Artefact) {
    exists i :: 0 <= i < |trace| && Explains(c, trace[i], name, a)
  }

  ghost predicate Accounted(c: Setting, w: World) {
    && (forall i :: 0 <= i < |w.trace| ==> Honest(c, w.trace[i]))
    && (forall name :: name in w.files.outbox ==> Explained(c, w.trace, name, w.files.outbox[name]))
    && (forall name :: name in w.files.reports ==> ReportExplained(c, w.trace, name, w.files.reports[name]))
  }

  /** A body changes the outbox at one name at most, and what it puts there is explained by
      the exchange it was entered under. */
  lemma PerformingIsExplained(c: Setting, x: Exchange, f: Files, name: string)
    requires Honest(c, x) && x.answer.Allow?
    requires var g := Governance(Capability(x.tool), Some(x.answer.decisionRef));
             name in Perform(c, x.tool, Resolve(c, x.state), g, f).0.outbox
    ensures var g := Governance(Capability(x.tool), Some(x.answer.decisionRef));
            var outbox := Perform(c, x.tool, Resolve(c, x.state), g, f).0.outbox;
            (name in f.outbox && outbox[name] == f.outbox[name]) || Explains(c, x, name, outbox[name])
  {
    match x.tool
    case Read =>
    case Write =>
    case Send =>
    case Upload =>
  }

  lemma PerformingIsExplainedInReports(c: Setting, x: Exchange, g: Governance, f: Files, name: string)
    requires Honest(c, x) && x.answer.Allow?
    requires name in Perform(c, x.tool, Resolve(c, x.state), g, f).0.reports
    ensures var reports := Perform(c, x.tool, Resolve(c, x.state), g, f).0.reports;
            (name in f.reports && reports[name] == f.reports[name]) || ExplainsReport(c, x, name, reports[name])
  {
    match x.tool
    case Read =>
    case Write =>
    case Send =>
    case Upload =>
  }

  /** What was explained stays explained when the trace grows. */
  lemma ExplanationsAreKept(c: Setting, w: World, x: Exchange, name: string)
    requires Accounted(c, w)
    ensures name in w.files.outbox ==> Explained(c, w.trace + [x], name, w.files.outbox[name])
    ensures name in w.files.reports ==> ReportExplained(c, w.trace + [x], name, w.files.reports[name])
  {
    assert forall i :: 0 <= i < |w.trace| ==> (w.trace + [x])[i] == w.trace[i];
    if name in w.files.outbox {
      var i :| 0 <= i < |w.trace| && Explains(c, w.trace[i], name, w.files.outbox[name]);
      assert Explains(c, (w.trace + [x])[i], name, w.files.outbox[name]);
    }
    if name in w.files.reports {
      var i :| 0 <= i < |w.trace| && ExplainsReport(c, w.trace[i], name, w.files.reports[name]);
      assert ExplainsReport(c, (w.trace + [x])[i], name, w.files.reports[name]);
    }
  }

  /** Entering the body under `x` leaves files accounted for by the trace and `x`. */
  lemma PerformedFilesAreAccountedFor(c: Setting, w: World, x: Exchange, w': World)
    requires Accounted(c, w) && Honest(c, x) && x.answer.Allow?
    requires w'.trace == w.trace + [x]
    requires w'.files == Perform(c, x.tool, Resolve(c, x.state), Governance(Capability(x.tool), Some(x.answer.decisionRef)), w.files).0
    ensures Accounted(c, w')
  {
    assert w'.trace[|w.trace|] == x;
    forall name | name in w'.files.outbox ensures Explained(c, w'.trace, name, w'.files.outbox[name]) {
      PerformingIsExplained(c, x, w.files, name);
      ExplanationsAreKept(c, w, x, name);
    }
    forall name | name in w'.files.reports ensures ReportExplained(c, w'.trace, name, w'.files.reports[name]) {
      PerformingIsExplainedInReports(c, x, Governance(Capability(x.tool), Some(x.answer.decisionRef)), w.files, name);
      ExplanationsAreKept(c, w, x, name);
    }
  }

  lemma StepKeepsAccounts(c: Setting, w: World, e: Event)
    requires Accounted(c, w)
    ensures Accounted(c, Step(c, w, e))
  {
    var w' := Step(c, w, e);
    if e.Ask? && w.at.AtTool? && Bind(c, w.at.tool, w.state).Some? {
      var t := w.at.tool;
      var x := Exchange(t, w.state, QuestionFor(c, t, Bind(c, t, w.state).value), e.answer);
      assert w'.trace == w.trace + [x];
      if e.answer.Allow? {
        var ref := e.answer.decisionRef;
        assert LastAuthorisation(w.stamps[Capability(t) := ref], t) == Governance(Capability(t), Some(ref));
        PerformedFilesAreAccountedFor(c, w, x, w');
      } else {
        forall name ensures name in w'.files.outbox ==> Explained(c, w'.trace, name, w'.files.outbox[name])
                    ensures name in w'.files.reports ==> ReportExplained(c, w'.trace, name, w'.files.reports[name]) {
          ExplanationsAreKept(c, w, x, name);
        }
      }
    } else {
      assert w'.trace == w.trace && w'.files == w.files;
    }
  }

  /** Every artefact ever in the outbox names the decision of an allow given for its own
      node's capability and for the binding of exactly the state its body ran on; and every
      report was saved under such an allow. */
  lemma {:induction false} EveryArtefactNamesItsOwnAllow(c: Setting, events: seq<Event>)
    ensures Accounted(c, Run(c, events))
  {
    if events != [] {
      EveryArtefactNamesItsOwnAllow(c, events[..|events| - 1]);
      StepKeepsAccounts(c, Run(c, events[..|events| - 1]), events[|events| - 1]);
    }
  }

  // -- What the stamps say ------------------------------------------------------

  /** The decision of the last allow under a capability, if there was one. */
  function LastAllow(trace: seq<Exchange>, capability: string): Option<string> {
    if trace == [] then None
    else
      var last := trace[|trace| - 1];
      if last.answer.Allow? && last.question.capability == capability then Some(last.answer.decisionRef)
      else LastAllow(trace[..|trace| - 1], capability)
  }

  ghost predicate Stamped(w: World) {
    forall capability ::
      (capability in w.stamps <==> LastAllow(w.trace, capability).Some?)
      && (capability in w.stamps ==> Some(w.stamps[capability]) == LastAllow(w.trace, capability))
  }

  lemma StepStamps(c: Setting, w: World, e: Event)
    requires Stamped(w)
    ensures Stamped(Step(c, w, e))
  {
    var w' := Step(c, w, e);
    if e.Ask? && w.at.AtTool? && Bind(c, w.at.tool, w.state).Some? {
      var x := w'.trace[|w.trace|];
      assert w'.trace == w.trace + [x] && w'.trace[..|w.trace|] == w.trace;
    }
  }

  /** The stamp of a capability is the decision of the last allow given under it, whatever the
      authority answers and whatever is merged. */
  lemma {:induction false} EveryStampIsTheLastAllow(c: Setting, events: seq<Event>)
    ensures Stamped(Run(c, events))
  {
    if events != [] {
      EveryStampIsTheLastAllow(c, events[..|events| - 1]);
      StepStamps(c, Run(c, events[..|events| - 1]), events[|events| - 1]);
    }
  }

  // -- What a merge can do to a binding -----------------------------------------

  /** A caller's resume that puts another act in the pending one's place. */
  function Substituting(filename: Value): Event {
    Resume(NO_UPDATE.(pending := Some(Some(Substituted(filename)))))
  }

  function Substitute(c: Setting, w: World, filename: Value, ref: string): World {
    Step(c, Step(c, w, Substituting(filename)), Ask(Allow(ref)))
  }

  /** Two resumes of a thread halted at a write put the same question, and the two bodies
      allowed under it save under different names. */
  lemma OneQuestionTwoFiles(c: Setting, w: World, ref: string)
    requires w.at.Halted? && w.at.tool == Write
    requires c.checked("None") == Some("None") && c.checked(REPORT_FILENAME) == Some(REPORT_FILENAME)
    ensures var w1, w2 := Substitute(c, w, Null, ref), Substitute(c, w, Text("None"), ref);
            && |w1.trace| == |w2.trace| == |w.trace| + 1
            && w1.trace[|w.trace|].question == w2.trace[|w.trace|].question
            && w1.files.reports == w.files.reports[REPORT_FILENAME := "x"]
            && w2.files.reports == w.files.reports["None" := "x"]
            && REPORT_FILENAME != "None"
  {
    ASubstitutedNullNameIsNotTheBoundName(c, w.state, w.files);
    ASubstitutedActIsPerformed(c, w, Null, ref);
    ASubstitutedActIsPerformed(c, w, Text("None"), ref);
    assert |REPORT_FILENAME| == 18 && |"None"| == 4;
  }

  lemma ASubstitutedActIsPerformed(c: Setting, w: World, filename: Value, ref: string)
    requires w.at.Halted? && w.at.tool == Write
    ensures var s, w' := w.state.(pending := Some(Substituted(filename))), Substitute(c, w, filename, ref);
            && w'.files == WriteEffect(c, Resolve(c, s), w.files).0
            && w'.trace == w.trace + [Exchange(Write, s, QuestionFor(c, Write, Bind(c, Write, s).value), Allow(ref))]
  {
    var resumed := Step(c, w, Substituting(filename));
    assert resumed.state == w.state.(pending := Some(Substituted(filename)));
  }

  /** Such a thread there is: it proposed a write and could not ask. */
  lemma AWriteCanHalt(c: Setting, task: string, id: string)
    ensures Run(c, [Start(task), Turn(Reply("", [Call(id, ToolName(Write), map[])])), Ask(CouldNotAsk)]).at ==
            Halted(Write, Answered(CouldNotAsk))
  {
    var reply := Reply("", [Call(id, ToolName(Write), map[])]);
    RunOneMore(c, [], Start(task));
    RunOneMore(c, [Start(task)], Turn(reply));
    RunOneMore(c, [Start(task), Turn(reply)], Ask(CouldNotAsk));
    assert [] + [Start(task)] == [Start(task)];
    assert [Start(task)] + [Turn(reply)] == [Start(task), Turn(reply)];
    assert [Start(task), Turn(reply)] + [Ask(CouldNotAsk)] == [Start(task), Turn(reply), Ask(CouldNotAsk)];
    var w := Run(c, [Start(task), Turn(reply)]);
    assert w.at == AtTool(Write) by { NamesAndCapabilitiesAreDistinct(Write, ToolNamed(ToolName(Write)).value); }
    ProposedActsAreBound(c, Write, w.state);
  }
}
