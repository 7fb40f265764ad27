/**
 The thread composed with a control plane. The plane is NOT this repository's: what is
 assumed of it is what `boundary_setup.py` and the architecture document say it does, and it
 is written out here as `Respond`. A question is the scope, the principal, the capability and
 the arguments digest.
 */
module Plane {
  import opened Options
  import opened Acts
  import opened Tools
  import opened Graph
  import opened Protocol
  import Agent

  datatype Rule = Allows | Denies | Reviews

  datatype Standing = Open | Approved | Rejected

  datatype Wait = Wait(reference: string, standing: Standing)

  /** `approvals` is every approval a person ever gave, in order; `minted` every decision and
      approval reference in use. */
  datatype Plane = Plane(
    rules: map<string, Rule>,
    waits: map<Question, Wait>,
    approvals: seq<Question>,
    minted: set<string>)

  const POLICY_DENIES := "policy_denies"

  function RuleFor(p: Plane, capability: string): Rule {
    if capability in p.rules then p.rules[capability] else Denies
  }

  /** The plane's answer to one question, minting `reference` if it needs one. */
  function Respond(p: Plane, q: Question, reference: string): (Plane, Answer) {
    match RuleFor(p, q.capability)
    case Allows => (p.(minted := p.minted + {reference}), Allow(reference))
    case Denies => (p, Deny(POLICY_DENIES))
    case Reviews =>
      if q !in p.waits then
        (p.(waits := p.waits[q := Wait(reference, Open)], minted := p.minted + {reference}), Suspend(reference))
      else
        match p.waits[q].standing
        case Open => (p, Suspend(p.waits[q].reference))
        case Approved => (p.(waits := p.waits - {q}, minted := p.minted + {reference}), Allow(reference))
        case Rejected => (p, Deny(Agent.APPROVAL_REJECTED))
  }

  // -- The composition ----------------------------------------------------------

  datatype Joint = Joint(world: World, plane: Plane)

  /** How a question and its answer travel. An answer may be lost after the plane gave it. */
  datatype Delivery = Arrives | NeverReached | AnswerLost | RefusedAtTheDoor(problem: string)

  datatype Happening =
    | Thread(event: Event)                       // start, turn or resume
    | Asks(reference: string, delivery: Delivery)
    | Approves(question: Question)
    | Rejects(question: Question)
    | Lapses(question: Question)

  /** The question the thread is about to put, if it stands at a node that can bind its act. */
  function Pends(c: Setting, w: World): Option<Question> {
    if w.at.AtTool? && Bind(c, w.at.tool, w.state).Some?
    then Some(QuestionFor(c, w.at.tool, Bind(c, w.at.tool, w.state).value)) else None
  }

  /** What the thread hears of the plane's answer, and whether the plane gave one. */
  function Heard(delivery: Delivery, answer: Answer): Answer {
    match delivery
    case Arrives => answer
    case NeverReached => CouldNotAsk
    case AnswerLost => CouldNotAsk
    case RefusedAtTheDoor(problem) => AskRefused(problem)
  }

  predicate Reaches(delivery: Delivery) {
    delivery.Arrives? || delivery.AnswerLost?
  }

  predicate Fresh(p: Plane, reference: string) {
    reference != "" && reference !in p.minted
  }

  function Settle(p: Plane, q: Question, standing: Standing): Plane {
    if q in p.waits && p.waits[q].standing.Open?
    then p.(waits := p.waits[q := p.waits[q].(standing := standing)]) else p
  }

  function Happen(c: Setting, s: Joint, h: Happening): Joint {
    match h
    case Thread(event) => if event.Ask? then s else s.(world := Step(c, s.world, event))
    case Asks(reference, delivery) =>
      var q := Pends(c, s.world);
      if q.None? || !Fresh(s.plane, reference) then s
      else
        var (plane, answer) := Respond(s.plane, q.value, reference);
        Joint(Step(c, s.world, Ask(Heard(delivery, answer))), if Reaches(delivery) then plane else s.plane)
    case Approves(q) =>
      if q in s.plane.waits && s.plane.waits[q].standing.Open?
      then s.(plane := Settle(s.plane, q, Approved).(approvals := s.plane.approvals + [q])) else s
    case Rejects(q) => s.(plane := Settle(s.plane, q, Rejected))
    case Lapses(q) => s.(plane := s.plane.(waits := s.plane.waits - {q}))
  }

  function History(c: Setting, rules: map<string, Rule>, hs: seq<Happening>): Joint {
    if hs == [] then Joint(INITIAL, Plane(rules, map[], [], {}))
    else Happen(c, History(c, rules, hs[..|hs| - 1]), hs[|hs| - 1])
  }

  // -- Every history is a run ---------------------------------------------------

  /** What of a happening the thread sees. */
  function Seen(c: Setting, s: Joint, h: Happening): seq<Event> {
    match h
    case Thread(event) => if event.Ask? then [] else [event]
    case Asks(reference, delivery) =>
      var q := Pends(c, s.world);
      if q.None? || !Fresh(s.plane, reference) then []
      else [Ask(Heard(delivery, Respond(s.plane, q.value, reference).1))]
    case _ => []
  }

  function Witnessed(c: Setting, rules: map<string, Rule>, hs: seq<Happening>): seq<Event> {
    if hs == [] then []
    else
      var before := hs[..|hs| - 1];
      Witnessed(c, rules, before) + Seen(c, History(c, rules, before), hs[|hs| - 1])
  }

  lemma AHappeningIsAtMostOneStep(c: Setting, s: Joint, h: Happening)
    ensures |Seen(c, s, h)| <= 1 && Happen(c, s, h).plane.rules == s.plane.rules
    ensures Happen(c, s, h).world == if Seen(c, s, h) == [] then s.world else Step(c, s.world, Seen(c, s, h)[0])
  {
    match h
    case Thread(_) =>
    case Asks(reference, delivery) =>
    case _ =>
  }

  /** The thread of every history is a run under some authority, so whatever holds of every
      run holds of it. */
  lemma {:induction false} EveryHistoryIsARun(c: Setting, rules: map<string, Rule>, hs: seq<Happening>)
    ensures History(c, rules, hs).world == Run(c, Witnessed(c, rules, hs))
    ensures History(c, rules, hs).plane.rules == rules
  {
    if hs != [] {
      var before := hs[..|hs| - 1];
      EveryHistoryIsARun(c, rules, before);
      AHappeningIsAtMostOneStep(c, History(c, rules, before), hs[|hs| - 1]);
      var events, more := Witnessed(c, rules, before), Seen(c, History(c, rules, before), hs[|hs| - 1]);
      if more == [] {
        assert events + more == events;
      } else {
        RunOneMore(c, events, more[0]);
        assert more == [more[0]];
      }
    }
  }

  // -- What is spent was approved -----------------------------------------------

  /** How many allows in a trace answer a question of the kind `of`. */
  function Allowed(trace: seq<Exchange>, of: Question -> bool): nat {
    if trace == [] then 0
    else
      var x := trace[|trace| - 1];
      Allowed(trace[..|trace| - 1], of) + if x.answer.Allow? && of(x.question) then 1 else 0
  }

  function Given(approvals: seq<Question>, of: Question -> bool): nat {
    if approvals == [] then 0
    else Given(approvals[..|approvals| - 1], of) + if of(approvals[|approvals| - 1]) then 1 else 0
  }

  function Unspent(p: Plane, of: Question -> bool): set<Question> {
    set q | q in p.waits && p.waits[q].standing.Approved? && of(q)
  }

  /** Every question of the kind is under review. */
  ghost predicate UnderReview(rules: map<string, Rule>, of: Question -> bool) {
    forall q: Question :: of(q) ==> q.capability in rules && rules[q.capability] == Reviews
  }

  /** No more was allowed and is approved and unspent than was ever approved, give or take
      `slack`. */
  ghost predicate SpendsWithin(s: Joint, of: Question -> bool, slack: int) {
    Allowed(s.world.trace, of) + |Unspent(s.plane, of)| <= Given(s.plane.approvals, of) + slack
  }

  /** What was allowed, and what is approved and unspent, was approved. */
  ghost predicate OnlyApproved(s: Joint, of: Question -> bool) {
    && (forall i :: 0 <= i < |s.world.trace| && s.world.trace[i].answer.Allow? && of(s.world.trace[i].question) ==>
          s.world.trace[i].question in s.plane.approvals)
    && (forall q :: q in Unspent(s.plane, of) ==> q in s.plane.approvals)
  }

  ghost predicate Conserved(s: Joint, of: Question -> bool) {
    SpendsWithin(s, of, 0) && OnlyApproved(s, of)
  }

  lemma StepTraces(c: Setting, w: World, e: Event)
    ensures Step(c, w, e).trace ==
            if e.Ask? && Pends(c, w).Some?
            then w.trace + [Exchange(w.at.tool, w.state, Pends(c, w).value, e.answer)] else w.trace
  {
  }

  /** The plane spends an approval exactly by allowing what it reviews. */
  lemma WhatRespondingLeaves(p: Plane, q: Question, reference: string, of: Question -> bool)
    ensures var (p', a) := Respond(p, q, reference);
            && p'.approvals == p.approvals
            && Unspent(p', of) == (if a.Allow? && RuleFor(p, q.capability) == Reviews then Unspent(p, of) - {q} else Unspent(p, of))
            && (a.Allow? && of(q) && RuleFor(p, q.capability) == Reviews ==> q in Unspent(p, of))
  {
    var (p', a) := Respond(p, q, reference);
    assert forall x :: x in p'.waits && x != q ==> x in p.waits && p'.waits[x] == p.waits[x];
    assert forall x :: x in p.waits && x != q ==> x in p'.waits;
  }

  /** One question spends at most what it was given. */
  lemma RespondingSpends(p: Plane, q: Question, reference: string, of: Question -> bool)
    requires of(q) ==> RuleFor(p, q.capability) == Reviews
    ensures var (p', a) := Respond(p, q, reference);
            && p'.approvals == p.approvals && Unspent(p', of) <= Unspent(p, of)
            && |Unspent(p', of)| <= |Unspent(p, of)|
            && (a.Allow? && of(q) ==> q in Unspent(p, of) && |Unspent(p', of)| + 1 == |Unspent(p, of)|)
  {
    WhatRespondingLeaves(p, q, reference, of);
    assert !of(q) ==> Unspent(p, of) - {q} == Unspent(p, of);
  }

  /** A question was put, and answered by a plane that spends what it allows. */
  ghost predicate OneMoreAnswer(s: Joint, s': Joint, x: Exchange, of: Question -> bool) {
    && s'.world.trace == s.world.trace + [x] && s'.plane.approvals == s.plane.approvals
    && Unspent(s'.plane, of) <= Unspent(s.plane, of) && |Unspent(s'.plane, of)| <= |Unspent(s.plane, of)|
    && (x.answer.Allow? && of(x.question) ==>
          x.question in Unspent(s.plane, of) && |Unspent(s'.plane, of)| + 1 == |Unspent(s.plane, of)|)
  }

  lemma AskingIsOneMoreAnswer(c: Setting, s: Joint, h: Happening, of: Question -> bool) returns (x: Exchange)
    requires h.Asks? && UnderReview(s.plane.rules, of) && Pends(c, s.world).Some? && Fresh(s.plane, h.reference)
    ensures OneMoreAnswer(s, Happen(c, s, h), x, of)
  {
    var w, q := s.world, Pends(c, s.world).value;
    var answer := Heard(h.delivery, Respond(s.plane, q, h.reference).1);
    x := Exchange(w.at.tool, w.state, q, answer);
    RespondingSpends(s.plane, q, h.reference, of);
    StepTraces(c, w, Ask(answer));
    assert !Reaches(h.delivery) ==> !answer.Allow?;
  }

  lemma OneMoreAnswerSpendsWithin(s: Joint, s': Joint, x: Exchange, of: Question -> bool, slack: int)
    requires SpendsWithin(s, of, slack) && OneMoreAnswer(s, s', x, of)
    ensures SpendsWithin(s', of, slack)
  {
    OneMoreExchange(s.world.trace, x, of);
  }

  lemma OneMoreAnswerWasApproved(s: Joint, s': Joint, x: Exchange, of: Question -> bool)
    requires OnlyApproved(s, of) && OneMoreAnswer(s, s', x, of)
    ensures OnlyApproved(s', of)
  {
    assert forall i :: 0 <= i < |s.world.trace| ==> s'.world.trace[i] == s.world.trace[i];
  }

  lemma OneMoreExchange(trace: seq<Exchange>, x: Exchange, of: Question -> bool)
    ensures Allowed(trace + [x], of) == Allowed(trace, of) + if x.answer.Allow? && of(x.question) then 1 else 0
  {
    assert (trace + [x])[..|trace|] == trace;
  }

  lemma ThreadsSpendNothing(c: Setting, s: Joint, h: Happening)
    requires h.Thread?
    ensures Happen(c, s, h).plane == s.plane && Happen(c, s, h).world.trace == s.world.trace
  {
    if !h.event.Ask? { StepTraces(c, s.world, h.event); }
  }

  lemma ApprovingGivesOneMore(p: Plane, q: Question, of: Question -> bool)
    requires q in p.waits && p.waits[q].standing.Open?
    ensures var p' := Settle(p, q, Approved).(approvals := p.approvals + [q]);
            && Unspent(p', of) == (if of(q) then Unspent(p, of) + {q} else Unspent(p, of)) && q !in Unspent(p, of)
            && Given(p'.approvals, of) == Given(p.approvals, of) + if of(q) then 1 else 0
  {
    var p' := Settle(p, q, Approved).(approvals := p.approvals + [q]);
    assert p'.approvals[..|p.approvals|] == p.approvals;
  }

  /** Rejecting and lapsing take approvals away and give none. */
  lemma WithdrawingGivesNothing(c: Setting, s: Joint, h: Happening, of: Question -> bool)
    requires h.Rejects? || h.Lapses?
    ensures var s' := Happen(c, s, h);
            && s'.world == s.world && s'.plane.approvals == s.plane.approvals
            && Unspent(s'.plane, of) <= Unspent(s.plane, of) && |Unspent(s'.plane, of)| <= |Unspent(s.plane, of)|
  {
    var before, after := Unspent(s.plane, of), Unspent(Happen(c, s, h).plane, of);
    assert after <= before;
    assert after == before - (before - after);
    Shrinks(before, before - after);
  }

  lemma Shrinks<T>(a: set<T>, b: set<T>)
    ensures |a - b| <= |a|
  {
    assert a == (a - b) + (a * b);
    assert |a| == |a - b| + |a * b|;
  }

  /** Whatever happens, no more is spent than is given. */
  lemma HappeningsSpendWithin(c: Setting, s: Joint, h: Happening, of: Question -> bool, slack: int)
    requires SpendsWithin(s, of, slack) && UnderReview(s.plane.rules, of)
    ensures SpendsWithin(Happen(c, s, h), of, slack)
  {
    match h
    case Thread(_) => ThreadsSpendNothing(c, s, h);
    case Asks(reference, _) =>
      if Pends(c, s.world).Some? && Fresh(s.plane, reference) {
        var x := AskingIsOneMoreAnswer(c, s, h, of);
        OneMoreAnswerSpendsWithin(s, Happen(c, s, h), x, of, slack);
      }
    case Approves(q) =>
      if q in s.plane.waits && s.plane.waits[q].standing.Open? { ApprovingGivesOneMore(s.plane, q, of); }
    case _ => WithdrawingGivesNothing(c, s, h, of);
  }

  lemma HappeningsAllowOnlyTheApproved(c: Setting, s: Joint, h: Happening, of: Question -> bool)
    requires OnlyApproved(s, of) && UnderReview(s.plane.rules, of)
    ensures OnlyApproved(Happen(c, s, h), of)
  {
    match h
    case Thread(_) => ThreadsSpendNothing(c, s, h);
    case Asks(reference, _) =>
      if Pends(c, s.world).Some? && Fresh(s.plane, reference) {
        var x := AskingIsOneMoreAnswer(c, s, h, of);
        OneMoreAnswerWasApproved(s, Happen(c, s, h), x, of);
      }
    case Approves(q) =>
      if q in s.plane.waits && s.plane.waits[q].standing.Open? { ApprovingGivesOneMore(s.plane, q, of); }
    case _ => WithdrawingGivesNothing(c, s, h, of);
  }

  /** For every interleaving of turns, resumes with merges, approvals, rejections, lapses and
      outages: a question under review is allowed at most as often as it was approved, and
      only after it was. */
  lemma {:induction false} NoAllowWithoutAnApproval(c: Setting, rules: map<string, Rule>, hs: seq<Happening>, of: Question -> bool)
    requires UnderReview(rules, of)
    ensures Conserved(History(c, rules, hs), of)
  {
    if hs == [] {
      assert Unspent(History(c, rules, hs).plane, of) == {};
    } else {
      var before, h := hs[..|hs| - 1], hs[|hs| - 1];
      NoAllowWithoutAnApproval(c, rules, before, of);
      EveryHistoryIsARun(c, rules, before);
      HappeningsSpendWithin(c, History(c, rules, before), h, of, 0);
      HappeningsAllowOnlyTheApproved(c, History(c, rules, before), h, of);
    }
  }

  // -- What is sent was approved ------------------------------------------------

  function MessageNames(f: Files): set<string> {
    set name | name in f.outbox && f.outbox[name].MessageFile?
  }

  const SENDS := (q: Question) => q.capability == Capability(Send)

  /** Whoever is shown an act whose question is `q` is shown this message's recipient and
      subject, before the tool strips them, and the digest of its body. */
  ghost predicate Describes(c: Setting, q: Question, a: Artefact) {
    && a.MessageFile?
    && (exists b :: QuestionFor(c, Send, b) == q)
    && forall b :: QuestionFor(c, Send, b) == q ==>
         && b.SendBinding? && a.recipient == Strip(b.recipient) && a.subject == Strip(b.subject)
         && c.digest(a.body) == b.bodyDigest
  }

  ghost predicate WasApproved(c: Setting, approvals: seq<Question>, a: Artefact) {
    exists i :: 0 <= i < |approvals| && approvals[i].capability == Capability(Send) && Describes(c, approvals[i], a)
  }

  lemma WritingOneArtefact(f: Files, name: string, a: Artefact)
    ensures var names := MessageNames(f.(outbox := f.outbox[name := a]));
            && names == (if a.MessageFile? then MessageNames(f) + {name} else MessageNames(f) - {name})
            && |names| <= |MessageNames(f)| + (if a.MessageFile? then 1 else 0)
  {
    var names := MessageNames(f.(outbox := f.outbox[name := a]));
    if a.MessageFile? {
      assert names == MessageNames(f) + {name};
    } else {
      assert names == MessageNames(f) - {name};
      Shrinks(MessageNames(f), {name});
    }
  }

  lemma PerformingAddsOneMessage(c: Setting, t: Tool, r: Resolved, g: Governance, f: Files)
    ensures |MessageNames(Perform(c, t, r, g, f).0)| <= |MessageNames(f)| + (if t == Send then 1 else 0)
  {
    var f' := Perform(c, t, r, g, f).0;
    match t
    case Read =>
    case Write => assert f'.outbox == f.outbox;
    case Send =>
      var name := MessageName(Reference(g));
      if f' != f { WritingOneArtefact(f, name, f'.outbox[name]); }
    case Upload =>
      var name := UploadName(Reference(g));
      if f' != f { WritingOneArtefact(f, name, f'.outbox[name]); }
  }

  lemma {:induction false} MessagesNeverExceedAllows(c: Setting, events: seq<Event>)
    ensures |MessageNames(Run(c, events).files)| <= Allowed(Run(c, events).trace, SENDS)
  {
    if events == [] {
      assert MessageNames(NO_FILES) == {};
    } else {
      var n := |events| - 1;
      var w, e := Run(c, events[..n]), events[n];
      MessagesNeverExceedAllows(c, events[..n]);
      StepTraces(c, w, e);
      if e.Ask? && Pends(c, w).Some? {
        var w' := Step(c, w, e);
        OneMoreExchange(w.trace, w'.trace[|w.trace|], SENDS);
        if e.answer.Allow? {
          var stamps := w.stamps[Capability(w.at.tool) := e.answer.decisionRef];
          PerformingAddsOneMessage(c, w.at.tool, Resolve(c, w.state), LastAuthorisation(stamps, w.at.tool), w.files);
        }
      }
    }
  }

  /** The outbox never holds more messages than approvals given for the send capability, and
      each message is the one described by a question a person approved. */
  lemma EveryMessageWasApproved(c: Setting, rules: map<string, Rule>, hs: seq<Happening>)
    requires Injective(c.wire)
    requires Capability(Send) in rules && rules[Capability(Send)] == Reviews
    ensures var s := History(c, rules, hs);
            && |MessageNames(s.world.files)| <= Given(s.plane.approvals, SENDS)
            && forall name :: name in MessageNames(s.world.files) ==>
                 WasApproved(c, s.plane.approvals, s.world.files.outbox[name])
  {
    var s := History(c, rules, hs);
    var events := Witnessed(c, rules, hs);
    EveryHistoryIsARun(c, rules, hs);
    NoAllowWithoutAnApproval(c, rules, hs, SENDS);
    MessagesNeverExceedAllows(c, events);
    EveryArtefactNamesItsOwnAllow(c, events);
    forall name | name in MessageNames(s.world.files)
      ensures WasApproved(c, s.plane.approvals, s.world.files.outbox[name])
    {
      AnAccountedMessageWasApproved(c, s, name);
    }
  }

  lemma AnAccountedMessageWasApproved(c: Setting, s: Joint, name: string)
    requires Injective(c.wire) && Accounted(c, s.world) && OnlyApproved(s, SENDS)
    requires name in MessageNames(s.world.files)
    ensures WasApproved(c, s.plane.approvals, s.world.files.outbox[name])
  {
    var a := s.world.files.outbox[name];
    assert Explained(c, s.world.trace, name, a);
    var i :| 0 <= i < |s.world.trace| && Explains(c, s.world.trace[i], name, a);
    ExplainedMessagesAreDescribed(c, s.world.trace[i], name, a);
    TheQuestionWasApproved(c, s, i, a);
  }

  lemma TheQuestionWasApproved(c: Setting, s: Joint, i: nat, a: Artefact)
    requires OnlyApproved(s, SENDS) && i < |s.world.trace|
    requires var x := s.world.trace[i];
             x.answer.Allow? && x.question.capability == Capability(Send) && Describes(c, x.question, a)
    ensures WasApproved(c, s.plane.approvals, a)
  {
    var q := s.world.trace[i].question;
    assert SENDS(q) && q in s.plane.approvals;
    var j :| 0 <= j < |s.plane.approvals| && s.plane.approvals[j] == q;
  }

  lemma ExplainedMessagesAreDescribed(c: Setting, x: Exchange, name: string, a: Artefact)
    requires Injective(c.wire) && Explains(c, x, name, a) && a.MessageFile?
    ensures x.question.capability == Capability(Send) && Describes(c, x.question, a)
  {
    var b := Bind(c, Send, x.state).value;
    assert QuestionFor(c, Send, b) == x.question;
    forall b' | QuestionFor(c, Send, b') == x.question ensures b' == b {
      assert c.wire(b') == c.wire(b);
    }
  }

  // -- One message per allowed send, and none lost ------------------------------

  /** The body of a send would not refuse this act. */
  predicate Deliverable(c: Setting, s: State) {
    s.pending.Some? && HasAnAddress(Resolve(c, s))
  }

  predicate HasAnAddress(r: Resolved) {
    var recipient := Strip(Shown(Field(r, "recipient")));
    recipient != "" && '@' in recipient
  }

  function Sent(c: Setting, trace: seq<Exchange>): nat {
    if trace == [] then 0
    else
      var x := trace[|trace| - 1];
      Sent(c, trace[..|trace| - 1]) + if x.answer.Allow? && x.tool == Send && Deliverable(c, x.state) then 1 else 0
  }

  /** Every decision in the trace is one the plane minted. */
  ghost predicate Minted(s: Joint) {
    forall i :: 0 <= i < |s.world.trace| && s.world.trace[i].answer.Allow? ==>
      s.world.trace[i].answer.decisionRef != "" && s.world.trace[i].answer.decisionRef in s.plane.minted
  }

  lemma MessagesAreNamedByMintedDecisions(c: Setting, s: Joint, name: string)
    requires Accounted(c, s.world) && Minted(s) && name in MessageNames(s.world.files)
    ensures exists ref :: ref in s.plane.minted && name == MessageName(ref)
  {
    var a := s.world.files.outbox[name];
    assert Explained(c, s.world.trace, name, a);
    var i :| 0 <= i < |s.world.trace| && Explains(c, s.world.trace[i], name, a);
    assert name == MessageName(s.world.trace[i].answer.decisionRef);
  }

  lemma AFreshDecisionNamesANewMessage(c: Setting, s: Joint, ref: string)
    requires Accounted(c, s.world) && Minted(s) && Fresh(s.plane, ref)
    ensures MessageName(ref) !in MessageNames(s.world.files)
    ensures UploadName(ref) !in MessageNames(s.world.files)
  {
    if MessageName(ref) in MessageNames(s.world.files) {
      MessagesAreNamedByMintedDecisions(c, s, MessageName(ref));
      var other :| other in s.plane.minted && MessageName(ref) == MessageName(other);
      ArtefactNamesTellReferencesApart(ref, other);
    }
    if UploadName(ref) in MessageNames(s.world.files) {
      MessagesAreNamedByMintedDecisions(c, s, UploadName(ref));
      var other :| other in s.plane.minted && UploadName(ref) == MessageName(other);
      ArtefactNamesTellReferencesApart(other, ref);
    }
  }

  lemma AFreshSendAddsItsMessage(r: Resolved, g: Governance, f: Files)
    requires MessageName(Reference(g)) !in MessageNames(f)
    ensures |MessageNames(SendEffect(r, g, f).0)| == |MessageNames(f)| + if HasAnAddress(r) then 1 else 0
  {
    var f', name := SendEffect(r, g, f).0, MessageName(Reference(g));
    if HasAnAddress(r) { WritingOneArtefact(f, name, f'.outbox[name]); }
  }

  lemma AFreshUploadAddsNoMessage(c: Setting, r: Resolved, g: Governance, f: Files)
    requires UploadName(Reference(g)) !in MessageNames(f)
    ensures MessageNames(UploadEffect(c, r, g, f).0) == MessageNames(f)
  {
    var f', name := UploadEffect(c, r, g, f).0, UploadName(Reference(g));
    if f' != f { WritingOneArtefact(f, name, f'.outbox[name]); }
  }

  /** Performing an act under a fresh decision adds a message exactly when it delivers one. */
  lemma AFreshActAddsItsMessage(c: Setting, t: Tool, r: Resolved, g: Governance, f: Files)
    requires MessageName(Reference(g)) !in MessageNames(f) && UploadName(Reference(g)) !in MessageNames(f)
    ensures |MessageNames(Perform(c, t, r, g, f).0)| ==
            |MessageNames(f)| + if t == Send && HasAnAddress(r) then 1 else 0
  {
    match t
    case Read =>
    case Write => assert WriteEffect(c, r, f).0.outbox == f.outbox;
    case Send => AFreshSendAddsItsMessage(r, g, f);
    case Upload => AFreshUploadAddsNoMessage(c, r, g, f);
  }

  lemma AFreshBodyAddsItsMessage(c: Setting, w: World, ref: string)
    requires Pends(c, w).Some? && ref != ""
    requires MessageName(ref) !in MessageNames(w.files) && UploadName(ref) !in MessageNames(w.files)
    ensures |MessageNames(Step(c, w, Ask(Allow(ref))).files)| ==
            |MessageNames(w.files)| + if w.at.tool == Send && Deliverable(c, w.state) then 1 else 0
  {
    var t := w.at.tool;
    var g := LastAuthorisation(w.stamps[Capability(t) := ref], t);
    assert Reference(g) == ref;
    AFreshActAddsItsMessage(c, t, Resolve(c, w.state), g, w.files);
  }

  ghost predicate Exact(c: Setting, s: Joint) {
    Minted(s) && |MessageNames(s.world.files)| == Sent(c, s.world.trace)
  }

  lemma OneMoreSent(c: Setting, trace: seq<Exchange>, x: Exchange)
    ensures Sent(c, trace + [x]) ==
            Sent(c, trace) + if x.answer.Allow? && x.tool == Send && Deliverable(c, x.state) then 1 else 0
  {
    assert (trace + [x])[..|trace|] == trace;
  }

  lemma FilesChangeOnlyUnderAnAllow(c: Setting, w: World, e: Event)
    ensures Step(c, w, e).files != w.files ==> e.Ask? && e.answer.Allow? && Pends(c, w).Some?
  {
  }

  lemma AskingKeepsMinted(c: Setting, s: Joint, h: Happening)
    requires h.Asks? && Minted(s)
    ensures Minted(Happen(c, s, h))
  {
    var s' := Happen(c, s, h);
    if Pends(c, s.world).Some? && Fresh(s.plane, h.reference) {
      AskingMints(c, s, h);
      var trace, x := s.world.trace, s'.world.trace[|s.world.trace|];
      assert s'.world.trace == trace + [x];
      assert forall i :: 0 <= i < |trace| ==> s'.world.trace[i] == trace[i];
    }
  }

  lemma AskingMints(c: Setting, s: Joint, h: Happening)
    requires h.Asks? && Pends(c, s.world).Some? && Fresh(s.plane, h.reference)
    ensures var w, s' := s.world, Happen(c, s, h);
            && s.plane.minted <= s'.plane.minted && |s'.world.trace| == |w.trace| + 1
            && s'.world.trace[..|w.trace|] == w.trace
            && (s'.world.trace[|w.trace|].answer.Allow? ==>
                  s'.world.trace[|w.trace|].answer == Allow(h.reference) && h.reference in s'.plane.minted)
  {
    var answer := Heard(h.delivery, Respond(s.plane, Pends(c, s.world).value, h.reference).1);
    StepTraces(c, s.world, Ask(answer));
  }

  /** What the thread sees of a question is one answer, and an allow is under the reference
      minted for it. */
  lemma AnAllowIsFresh(c: Setting, s: Joint, h: Happening)
    requires h.Asks? && Pends(c, s.world).Some? && Fresh(s.plane, h.reference)
    ensures |Seen(c, s, h)| == 1 && Seen(c, s, h)[0].Ask?
    ensures Seen(c, s, h)[0].answer.Allow? ==> Seen(c, s, h)[0].answer == Allow(h.reference)
  {
  }

  lemma AnAllowedStepIsExact(c: Setting, s: Joint, ref: string)
    requires Accounted(c, s.world) && Exact(c, s) && Pends(c, s.world).Some? && Fresh(s.plane, ref)
    ensures var w' := Step(c, s.world, Ask(Allow(ref)));
            |MessageNames(w'.files)| == Sent(c, w'.trace)
  {
    var w := s.world;
    StepTraces(c, w, Ask(Allow(ref)));
    OneMoreSent(c, w.trace, Exchange(w.at.tool, w.state, Pends(c, w).value, Allow(ref)));
    AFreshDecisionNamesANewMessage(c, s, ref);
    AFreshBodyAddsItsMessage(c, w, ref);
  }

  lemma AskingIsExact(c: Setting, s: Joint, h: Happening)
    requires h.Asks? && Accounted(c, s.world) && Exact(c, s) && Pends(c, s.world).Some? && Fresh(s.plane, h.reference)
    ensures |MessageNames(Happen(c, s, h).world.files)| == Sent(c, Happen(c, s, h).world.trace)
  {
    AHappeningIsAtMostOneStep(c, s, h);
    AnAllowIsFresh(c, s, h);
    var w, answer := s.world, Seen(c, s, h)[0].answer;
    if answer.Allow? {
      AnAllowedStepIsExact(c, s, h.reference);
    } else {
      StepTraces(c, w, Ask(answer));
      OneMoreSent(c, w.trace, Exchange(w.at.tool, w.state, Pends(c, w).value, answer));
      FilesChangeOnlyUnderAnAllow(c, w, Ask(answer));
    }
  }

  lemma OtherwiseNothingIsSent(c: Setting, s: Joint, h: Happening)
    requires !h.Asks? && Exact(c, s)
    ensures Exact(c, Happen(c, s, h))
  {
    AHappeningIsAtMostOneStep(c, s, h);
    if Seen(c, s, h) != [] {
      StepTraces(c, s.world, Seen(c, s, h)[0]);
      FilesChangeOnlyUnderAnAllow(c, s.world, Seen(c, s, h)[0]);
    }
  }

  /** One allowed send that its tool did not refuse is one message, and no message is ever
      overwritten or removed. */
  lemma {:induction false} OneMessagePerAllowedSend(c: Setting, rules: map<string, Rule>, hs: seq<Happening>)
    ensures Exact(c, History(c, rules, hs))
  {
    if hs == [] {
      assert MessageNames(NO_FILES) == {};
    } else {
      var before, h := hs[..|hs| - 1], hs[|hs| - 1];
      var s := History(c, rules, before);
      OneMessagePerAllowedSend(c, rules, before);
      if h.Asks? {
        EveryHistoryIsARun(c, rules, before);
        EveryArtefactNamesItsOwnAllow(c, Witnessed(c, rules, before));
        AskingKeepsMinted(c, s, h);
        if Pends(c, s.world).Some? && Fresh(s.plane, h.reference) { AskingIsExact(c, s, h); }
      } else {
        OtherwiseNothingIsSent(c, s, h);
      }
    }
  }

  // -- And what was approved happens, once --------------------------------------

  /** The thread is halted at an act whose question is `q`. */
  predicate HaltedAt(c: Setting, w: World, q: Question) {
    w.at.Halted? && Bind(c, w.at.tool, w.state).Some?
    && q == QuestionFor(c, w.at.tool, Bind(c, w.at.tool, w.state).value)
  }

  function Only(q: Question): Question -> bool {
    x => x == q
  }

  /** Approved, resumed, and asked about once more. */
  function Approval(q: Question, ref: string): seq<Happening> {
    [Approves(q), Thread(Resume(NO_UPDATE)), Asks(ref, Arrives)]
  }

  lemma ThreeMore(c: Setting, rules: map<string, Rule>, hs: seq<Happening>, h1: Happening, h2: Happening, h3: Happening)
    ensures History(c, rules, hs + [h1, h2, h3]) == Happen(c, Happen(c, Happen(c, History(c, rules, hs), h1), h2), h3)
  {
    HappeningOnceMore(c, rules, hs, h1);
    HappeningOnceMore(c, rules, hs + [h1], h2);
    HappeningOnceMore(c, rules, hs + [h1] + [h2], h3);
    assert hs + [h1] + [h2] + [h3] == hs + [h1, h2, h3];
  }

  lemma HappeningOnceMore(c: Setting, rules: map<string, Rule>, hs: seq<Happening>, h: Happening)
    ensures History(c, rules, hs + [h]) == Happen(c, History(c, rules, hs), h)
  {
    assert (hs + [h])[..|hs|] == hs;
  }

  /** The next question about an act whose open wait a person has just approved enters its
      body, under the decision minted for it, and spends the wait. */
  lemma AnApprovedActRuns(c: Setting, s: Joint, q: Question, ref: string)
    requires HaltedAt(c, s.world, q) && Fresh(s.plane, ref)
    requires q in s.plane.waits && s.plane.waits[q].standing.Open? && RuleFor(s.plane, q.capability) == Reviews
    ensures var w, s' := s.world, Happen(c, Happen(c, Happen(c, s, Approves(q)), Thread(Resume(NO_UPDATE))), Asks(ref, Arrives));
            && s'.world.trace == w.trace + [Exchange(w.at.tool, w.state, q, Allow(ref))]
            && s'.world == EnterBody(c, w.(trace := s'.world.trace), w.at.tool, ref)
            && s'.plane.approvals == s.plane.approvals + [q] && q !in s'.plane.waits
  {
    MergingNothingChangesNothing(s.world.state);
  }

  lemma {:induction false} NothingMoreIsGiven(c: Setting, rules: map<string, Rule>, hs: seq<Happening>, more: seq<Happening>, q: Question, slack: int)
    requires q.capability in rules && rules[q.capability] == Reviews && Approves(q) !in more
    requires SpendsWithin(History(c, rules, hs), Only(q), slack)
    ensures var s, s' := History(c, rules, hs), History(c, rules, hs + more);
            && SpendsWithin(s', Only(q), slack) && Given(s'.plane.approvals, Only(q)) == Given(s.plane.approvals, Only(q))
            && Allowed(s'.world.trace, Only(q)) >= Allowed(s.world.trace, Only(q))
  {
    if more == [] {
      assert hs + more == hs;
    } else {
      var fewer, h := more[..|more| - 1], more[|more| - 1];
      assert (hs + more)[..|hs + more| - 1] == hs + fewer && (hs + more)[|hs + more| - 1] == h;
      NothingMoreIsGiven(c, rules, hs, fewer, q, slack);
      EveryHistoryIsARun(c, rules, hs + fewer);
      var s := History(c, rules, hs + fewer);
      HappeningsSpendWithin(c, s, h, Only(q), slack);
      OneHappeningMore(c, s, h, q);
    }
  }

  lemma OneHappeningMore(c: Setting, s: Joint, h: Happening, q: Question)
    requires h != Approves(q)
    ensures Given(Happen(c, s, h).plane.approvals, Only(q)) == Given(s.plane.approvals, Only(q))
    ensures Allowed(Happen(c, s, h).world.trace, Only(q)) >= Allowed(s.world.trace, Only(q))
  {
    AHappeningIsAtMostOneStep(c, s, h);
    if Seen(c, s, h) != [] {
      var e := Seen(c, s, h)[0];
      StepTraces(c, s.world, e);
      if e.Ask? && Pends(c, s.world).Some? {
        OneMoreExchange(s.world.trace, Exchange(s.world.at.tool, s.world.state, Pends(c, s.world).value, e.answer), Only(q));
      }
    }
    if h.Approves? && h.question in s.plane.waits && s.plane.waits[h.question].standing.Open? {
      ApprovingGivesOneMore(s.plane, h.question, Only(q));
    }
  }

  /** After any history, a halted act whose open wait a person approves runs at the next
      resume whose question and answer arrive; and whatever happens afterwards, resumes with
      merges, lapses and new waits, that very act is not allowed again until a person has
      approved it again. */
  lemma AnApprovedActRunsOnce(c: Setting, rules: map<string, Rule>, hs: seq<Happening>, q: Question, ref: string, more: seq<Happening>)
    requires q.capability in rules && rules[q.capability] == Reviews && Approves(q) !in more
    requires var s := History(c, rules, hs);
             HaltedAt(c, s.world, q) && q in s.plane.waits && s.plane.waits[q].standing.Open? && Fresh(s.plane, ref)
    ensures var s, ran := History(c, rules, hs), History(c, rules, hs + Approval(q, ref));
            var w := s.world;
            && ran.world.trace == w.trace + [Exchange(w.at.tool, w.state, q, Allow(ref))]
            && ran.world == EnterBody(c, w.(trace := ran.world.trace), w.at.tool, ref)
            && Allowed(ran.world.trace, Only(q)) == Allowed(w.trace, Only(q)) + 1
            && Allowed(History(c, rules, hs + Approval(q, ref) + more).world.trace, Only(q)) == Allowed(ran.world.trace, Only(q))
  {
    var s, all := History(c, rules, hs), hs + Approval(q, ref);
    var ran := History(c, rules, all);
    EveryHistoryIsARun(c, rules, hs);
    ThreeMore(c, rules, hs, Approves(q), Thread(Resume(NO_UPDATE)), Asks(ref, Arrives));
    AnApprovedActRuns(c, s, q, ref);
    OneMoreExchange(s.world.trace, Exchange(s.world.at.tool, s.world.state, q, Allow(ref)), Only(q));
    assert Unspent(ran.plane, Only(q)) == {};
    NothingMoreIsGiven(c, rules, all, more, q, Allowed(ran.world.trace, Only(q)) - Given(ran.plane.approvals, Only(q)));
  }

  // -- And until then it waits --------------------------------------------------

  /** Resumed with nothing merged, once for every reference, each question arriving. */
  function ResumeAndAsk(c: Setting, s: Joint, refs: seq<string>): Joint
    decreases |refs|
  {
    if refs == [] then s
    else
      Happen(c, Happen(c, ResumeAndAsk(c, s, refs[..|refs| - 1]), Thread(Resume(NO_UPDATE))), Asks(refs[|refs| - 1], Arrives))
  }

  function Same(answer: Answer, n: nat): seq<Answer> {
    seq(n, _ => answer)
  }

  /** A plane that gives one answer to a question, and changes nothing by giving it, gives it
      at every resume: each puts the identical question once more, and nothing else changes. */
  lemma {:induction false} ASettledAnswerRepeats(c: Setting, s: Joint, q: Question, answer: Answer, refs: seq<string>)
    requires HaltedAt(c, s.world, q) && !answer.Allow?
    requires forall ref :: ref in refs ==> Fresh(s.plane, ref) && Respond(s.plane, q, ref) == (s.plane, answer)
    ensures ResumeAndAsk(c, s, refs) == Joint(Agent.ResumeThrough(c, s.world, Same(answer, |refs|)), s.plane)
    ensures ResumeAndAsk(c, s, refs).world == Waited(c, s.world, Same(answer, |refs|))
    decreases |refs|
  {
    Agent.WaitingCostsOneQuestionAPass(c, s.world, Same(answer, |refs|));
    if refs != [] {
      var n := |refs| - 1;
      ASettledAnswerRepeats(c, s, q, answer, refs[..n]);
      assert Same(answer, n + 1)[..n] == Same(answer, n);
      OnePassMore(c, ResumeAndAsk(c, s, refs[..n]), q, answer, refs[n]);
    }
  }

  lemma OnePassMore(c: Setting, s: Joint, q: Question, answer: Answer, ref: string)
    requires HaltedAt(c, s.world, q) && Fresh(s.plane, ref) && Respond(s.plane, q, ref) == (s.plane, answer)
    ensures Happen(c, Happen(c, s, Thread(Resume(NO_UPDATE))), Asks(ref, Arrives)) ==
            Joint(Step(c, Step(c, s.world, Resume(NO_UPDATE)), Ask(answer)), s.plane)
  {
    MergingNothingChangesNothing(s.world.state);
  }

  /** A halted thread after so many answers that were not allows. */
  function Waited(c: Setting, w: World, answers: seq<Answer>): World
    requires w.at.Halted? && Bind(c, w.at.tool, w.state).Some?
  {
    w.(at := if answers == [] then w.at else Halted(w.at.tool, Answered(answers[|answers| - 1])),
       stored := w.stored + |answers|,
       trace := w.trace + Agent.Passes(c, w.at.tool, w.state, answers))
  }

  /** While a wait is pending, N resumes put the identical question N times, each is answered
      with the same approval reference, and nothing changes at the plane or on disk. */
  lemma APendingActWaits(c: Setting, s: Joint, q: Question, refs: seq<string>)
    requires HaltedAt(c, s.world, q) && q in s.plane.waits && s.plane.waits[q].standing.Open?
    requires RuleFor(s.plane, q.capability) == Reviews && forall ref :: ref in refs ==> Fresh(s.plane, ref)
    ensures ResumeAndAsk(c, s, refs) ==
            Joint(Waited(c, s.world, Same(Suspend(s.plane.waits[q].reference), |refs|)), s.plane)
  {
    ASettledAnswerRepeats(c, s, q, Suspend(s.plane.waits[q].reference), refs);
  }

  /** A halted act whose wait a person rejects is denied at every resume while the wait lasts,
      and nothing is written. */
  lemma ARejectedActStaysDenied(c: Setting, s: Joint, q: Question, refs: seq<string>)
    requires HaltedAt(c, s.world, q) && q in s.plane.waits && s.plane.waits[q].standing.Rejected?
    requires RuleFor(s.plane, q.capability) == Reviews && forall ref :: ref in refs ==> Fresh(s.plane, ref)
    ensures ResumeAndAsk(c, s, refs) ==
            Joint(Waited(c, s.world, Same(Deny(Agent.APPROVAL_REJECTED), |refs|)), s.plane)
  {
    ASettledAnswerRepeats(c, s, q, Deny(Agent.APPROVAL_REJECTED), refs);
  }

  /** A wait that a person rejects is denied from then on, at every resume. */
  lemma ARejectionDenies(c: Setting, s: Joint, q: Question, refs: seq<string>)
    requires HaltedAt(c, s.world, q) && q in s.plane.waits && s.plane.waits[q].standing.Open?
    requires RuleFor(s.plane, q.capability) == Reviews && forall ref :: ref in refs ==> Fresh(s.plane, ref)
    ensures var rejected := Happen(c, s, Rejects(q));
            && rejected.world == s.world && rejected.plane.approvals == s.plane.approvals
            && ResumeAndAsk(c, rejected, refs) ==
               Joint(Waited(c, s.world, Same(Deny(Agent.APPROVAL_REJECTED), |refs|)), rejected.plane)
  {
    ARejectedActStaysDenied(c, Happen(c, s, Rejects(q)), q, refs);
  }

  /** A wait that lapses, whatever a person had made of it, is gone: the next resume opens a
      new one under a new reference. */
  lemma ALapseOpensANewWait(c: Setting, s: Joint, q: Question, ref: string)
    requires HaltedAt(c, s.world, q) && q in s.plane.waits
    requires RuleFor(s.plane, q.capability) == Reviews && Fresh(s.plane, ref)
    ensures var lapsed := Happen(c, s, Lapses(q));
            && lapsed.world == s.world
            && ResumeAndAsk(c, lapsed, [ref]).world == Waited(c, s.world, Same(Suspend(ref), 1))
            && ResumeAndAsk(c, lapsed, [ref]).plane.waits == s.plane.waits[q := Wait(ref, Open)]
  {
    var lapsed := Happen(c, s, Lapses(q));
    MergingNothingChangesNothing(s.world.state);
    assert [ref][..0] == [];
    assert ResumeAndAsk(c, lapsed, []) == lapsed;
    Agent.WaitingCostsOneQuestionAPass(c, s.world, Same(Suspend(ref), 1));
    assert Same(Suspend(ref), 1)[..0] == [];
    assert Agent.ResumeThrough(c, s.world, []) == s.world;
    var waits := ResumeAndAsk(c, lapsed, [ref]).plane.waits;
    assert waits == (s.plane.waits - {q})[q := Wait(ref, Open)];
  }
}
