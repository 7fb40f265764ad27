/**
 Driving the governed graph (`agent.py`): one invocation runs node after node until the
 graph ends or a governed node leaves without returning, and its verdict is read off how it
 stopped. The node wrapper's own steps are here too (`boundary_setup.py`).
 */
module Agent {
  import opened Options
  import opened Acts
  import opened Tools
  import opened Graph
  import opened Protocol
  import opened Runs
  import opened Transcripts
  import opened Machines

  /** The authority for one invocation: an answer for every list of questions put so far,
      the last of which is the one to answer. */
  type Authority = seq<Question> -> Answer

  const APPROVAL_REJECTED := "approval_rejected"

  /** `Uncaught` is an exception no handler of `_drive` takes. */
  datatype Verdict =
    | Completed(answer: string)
    | Suspended(approvalRef: string, capability: string)
    | Rejected
    | Denied
    | Refused
    | Unobservable
    | Uncaught

  function VerdictOf(w: World): Verdict {
    match w.at
    case Finished => Completed(w.state.answer)
    case Halted(t, Answered(Suspend(ref))) => Suspended(ref, Capability(t))
    case Halted(_, Answered(Deny(reason))) => if reason == APPROVAL_REJECTED then Rejected else Denied
    case Halted(_, Answered(AskRefused(_))) => Verdict.Refused
    case Halted(_, Answered(CouldNotAsk)) => Unobservable
    case _ => Uncaught
  }

  predicate Running(w: World) {
    w.at.AtReason? || w.at.AtTool?
  }

  function Questions(trace: seq<Exchange>): seq<Question> {
    seq(|trace|, i requires 0 <= i < |trace| => trace[i].question)
  }

  /** What the authority says to the question node `t` is about to put. */
  function AnswerTo(c: Setting, w: World, t: Tool, authority: Authority): Answer {
    match Bind(c, t, w.state)
    case None => CouldNotAsk // no question is put
    case Some(b) => authority(Questions(w.trace) + [QuestionFor(c, t, b)])
  }

  /** Nothing binds an authority to what it said before, not even to the same question. */
  lemma AnAuthorityMayChangeItsMind(c: Setting, w: World, w': World, t: Tool, answer: Answer, other: Answer)
    requires |w.trace| != |w'.trace| && Bind(c, t, w.state).Some? && Bind(c, t, w'.state).Some?
    ensures exists authority :: AnswerTo(c, w, t, authority) == answer && AnswerTo(c, w', t, authority) == other
  {
    var authority: Authority := questions => if |questions| == |w.trace| + 1 then answer else other;
    assert AnswerTo(c, w, t, authority) == answer && AnswerTo(c, w', t, authority) == other;
  }

  function NextEvent(c: Setting, w: World, replies: seq<Reply>, authority: Authority): Event
    requires Running(w)
  {
    match w.at
    case AtReason => Turn(ScriptReply(replies, w.turns))
    case AtTool(t) => Ask(AnswerTo(c, w, t, authority))
  }

  /** One node, run to its end. */
  function Superstep(c: Setting, w: World, replies: seq<Reply>, authority: Authority): World
    requires Running(w)
  {
    Step(c, w, NextEvent(c, w, replies, authority))
  }

  /** One invocation, for at most `limit` nodes: the framework has such a limit. */
  function Invoke(c: Setting, w: World, replies: seq<Reply>, authority: Authority, limit: nat): World
    decreases limit
  {
    if !Running(w) || limit == 0 then w
    else Invoke(c, Superstep(c, w, replies, authority), replies, authority, limit - 1)
  }

  lemma InvokingOn(c: Setting, w: World, replies: seq<Reply>, authority: Authority, limit: nat)
    ensures Running(w) && limit > 0 ==>
              Invoke(c, w, replies, authority, limit) == Invoke(c, Superstep(c, w, replies, authority), replies, authority, limit - 1)
    ensures !Running(w) || limit == 0 ==> Invoke(c, w, replies, authority, limit) == w
  {
  }

  // -- Fail closed over a whole invocation --------------------------------------

  /** `w'` is `v` with one question put and not allowed, and nothing else: the same state, the
      same files and the same stamps; and resuming re-enters the node `v` stood at. */
  ghost predicate LeftAsItWas(c: Setting, v: World, w': World) {
    && v.at.AtTool? && w'.at.Halted? && w'.at.tool == v.at.tool
    && w' == v.(at := w'.at, trace := w'.trace)
    && (if w'.at.why.Answered?
        then |w'.trace| == |v.trace| + 1 && w'.trace[..|v.trace|] == v.trace && w'.trace[|v.trace|].answer == w'.at.why.answer
        else w'.trace == v.trace)
    && Step(c, w', Resume(NO_UPDATE)) == v.(trace := w'.trace, stored := v.stored + 1)
  }

  /** Of the questions put since `w`, every one before the last was allowed, and the thread
      stands halted with an answer exactly when the last one was not. */
  ghost predicate AllowedUpToTheLast(w: World, w': World) {
    var n, m := |w.trace|, |w'.trace|;
    && n <= m && w'.trace[..n] == w.trace
    && (forall i :: n <= i < m - 1 ==> w'.trace[i].answer.Allow?)
    && (forall i :: n <= i < m ==> w'.trace[i].question.capability == Capability(w'.trace[i].tool))
    && (n < m && !w'.trace[m - 1].answer.Allow? <==> w'.at.Halted? && w'.at.why.Answered?)
    && (w'.at.Halted? && w'.at.why.Answered? ==>
          w'.at == Halted(w'.trace[m - 1].tool, Answered(w'.trace[m - 1].answer)))
  }

  /** A halted thread is as it was when the invocation reached the node that halted it. */
  ghost predicate HaltedCleanly(c: Setting, w: World, w': World, replies: seq<Reply>, authority: Authority, limit: nat) {
    w'.at.Halted? ==> exists m: nat :: m < limit && LeftAsItWas(c, Invoke(c, w, replies, authority, m), w')
  }

  lemma ANodeFailsClosed(c: Setting, w: World, answer: Answer)
    requires w.at.AtTool?
    ensures var w' := Execute(c, w, w.at.tool, answer);
            && (Bind(c, w.at.tool, w.state).Some? ==>
                  |w'.trace| == |w.trace| + 1 && w'.trace[..|w.trace|] == w.trace
                  && w'.trace[|w.trace|].answer == answer && w'.trace[|w.trace|].tool == w.at.tool
                  && w'.trace[|w.trace|].question.capability == Capability(w.at.tool))
            && (Bind(c, w.at.tool, w.state).None? ==> w'.trace == w.trace)
            && (if w'.at.Halted? then LeftAsItWas(c, w, w') else answer.Allow? && w'.at.AtReason?)
            && (w'.at.Halted? && w'.at.why.Answered? <==> Bind(c, w.at.tool, w.state).Some? && !answer.Allow?)
  {
    MergingNothingChangesNothing(w.state);
  }

  lemma OneAllowMore(w: World, next: World, w': World)
    requires AllowedUpToTheLast(next, w') && |next.trace| >= |w.trace| && next.trace[..|w.trace|] == w.trace
    requires |next.trace| <= |w.trace| + 1
    requires |next.trace| == |w.trace| + 1 ==>
               && next.trace[|w.trace|].answer.Allow?
               && next.trace[|w.trace|].question.capability == Capability(next.trace[|w.trace|].tool)
    ensures AllowedUpToTheLast(w, w')
  {
    var n := |w.trace|;
    assert w'.trace[..n] == w'.trace[..|next.trace|][..n] == w.trace;
    assert |next.trace| == n + 1 ==> w'.trace[n] == w'.trace[..n + 1][n] == next.trace[n];
  }

  lemma OneNodeMore(c: Setting, w: World, w': World, replies: seq<Reply>, authority: Authority, limit: nat)
    requires Running(w) && limit > 0
    requires HaltedCleanly(c, Superstep(c, w, replies, authority), w', replies, authority, limit - 1)
    ensures HaltedCleanly(c, w, w', replies, authority, limit)
  {
    if w'.at.Halted? {
      var next := Superstep(c, w, replies, authority);
      var m: nat :| m < limit - 1 && LeftAsItWas(c, Invoke(c, next, replies, authority, m), w');
      assert Invoke(c, w, replies, authority, m + 1) == Invoke(c, next, replies, authority, m);
    }
  }

  lemma ASuperstepFailsClosed(c: Setting, w: World, replies: seq<Reply>, authority: Authority)
    requires Running(w)
    ensures var next := Superstep(c, w, replies, authority);
            && |w.trace| <= |next.trace| <= |w.trace| + 1 && next.trace[..|w.trace|] == w.trace
            && (Running(next) && |next.trace| == |w.trace| + 1 ==>
                  && next.trace[|w.trace|].answer.Allow?
                  && next.trace[|w.trace|].question.capability == Capability(next.trace[|w.trace|].tool))
            && (!Running(next) ==> AllowedUpToTheLast(w, next) && (next.at.Halted? ==> LeftAsItWas(c, w, next)))
  {
    if w.at.AtTool? {
      ANodeFailsClosed(c, w, AnswerTo(c, w, w.at.tool, authority));
    }
  }

  lemma {:induction false} AnInvocationAllowsUpToTheLast(c: Setting, w: World, replies: seq<Reply>, authority: Authority, limit: nat)
    requires Running(w)
    ensures AllowedUpToTheLast(w, Invoke(c, w, replies, authority, limit))
    decreases limit
  {
    if limit > 0 {
      var next := Superstep(c, w, replies, authority);
      ASuperstepFailsClosed(c, w, replies, authority);
      if Running(next) {
        AnInvocationAllowsUpToTheLast(c, next, replies, authority, limit - 1);
        OneAllowMore(w, next, Invoke(c, next, replies, authority, limit - 1));
      }
    }
  }

  lemma {:induction false} AnInvocationHaltsCleanly(c: Setting, w: World, replies: seq<Reply>, authority: Authority, limit: nat)
    requires Running(w)
    ensures HaltedCleanly(c, w, Invoke(c, w, replies, authority, limit), replies, authority, limit)
    decreases limit
  {
    if limit > 0 {
      var next := Superstep(c, w, replies, authority);
      if Running(next) {
        AnInvocationHaltsCleanly(c, next, replies, authority, limit - 1);
        OneNodeMore(c, w, Invoke(c, next, replies, authority, limit - 1), replies, authority, limit);
      } else {
        ASuperstepFailsClosed(c, w, replies, authority);
        assert Invoke(c, w, replies, authority, limit) == next;
        assert Invoke(c, w, replies, authority, 0) == w;
        assert next.at.Halted? ==> LeftAsItWas(c, Invoke(c, w, replies, authority, 0), next);
      }
    }
  }

  /** Every question before the last was allowed; the verdict is the last answer's; and an
      invocation that stops at a node leaves everything as it was before that node asked. */
  lemma AnInvocationFailsClosed(c: Setting, w: World, replies: seq<Reply>, authority: Authority, limit: nat)
    requires Running(w)
    ensures AllowedUpToTheLast(w, Invoke(c, w, replies, authority, limit))
    ensures HaltedCleanly(c, w, Invoke(c, w, replies, authority, limit), replies, authority, limit)
  {
    AnInvocationAllowsUpToTheLast(c, w, replies, authority, limit);
    AnInvocationHaltsCleanly(c, w, replies, authority, limit);
  }

  // -- The verdict --------------------------------------------------------------

  /** The process's exit status for a verdict. */
  function ExitStatus(v: Verdict): nat {
    match v
    case Completed(_) => 0
    case Denied => 1
    case Rejected => 1
    case Refused => 3
    case Unobservable => 4
    case Suspended(_, _) => 5
    case Uncaught => 1
  }

  /** An answer that is not an allow, as a verdict on the question it was given to. */
  predicate Renders(v: Verdict, q: Question, answer: Answer) {
    match answer
    case Allow(_) => false
    case Suspend(ref) => v.Suspended? && v.approvalRef == ref && v.capability == q.capability
    case Deny(reason) => if reason == "approval_rejected" then v.Rejected? else v.Denied?
    case AskRefused(_) => v.Refused?
    case CouldNotAsk => v.Unobservable?
  }

  /** The verdict of an invocation that took the thread from `w` to `w'`, read off the trace:
      it is completed exactly when the thread is finished; it is what the last question was
      answered exactly when that was no allow; and otherwise the invocation did not come back. */
  ghost predicate VerdictFits(w: World, w': World, v: Verdict) {
    var n, m := |w.trace|, |w'.trace|;
    && (v.Completed? <==> w'.at.Finished?)
    && (v.Completed? ==> v.answer == w'.state.answer)
    && (n < m && !w'.trace[m - 1].answer.Allow? ==> Renders(v, w'.trace[m - 1].question, w'.trace[m - 1].answer))
    && (v.Uncaught? <==> !w'.at.Finished? && !(n < m && !w'.trace[m - 1].answer.Allow?))
    && (v.Uncaught? ==> Running(w') || (w'.at.Halted? && w'.at.why.Unbound?))
  }

  lemma TheVerdictFits(c: Setting, w: World, replies: seq<Reply>, authority: Authority, limit: nat)
    requires Running(w)
    ensures VerdictFits(w, Invoke(c, w, replies, authority, limit), VerdictOf(Invoke(c, w, replies, authority, limit)))
  {
    AnInvocationAllowsUpToTheLast(c, w, replies, authority, limit);
    AnInvocationHasStarted(c, w, replies, authority, limit);
    AllowedUpToTheLastFits(w, Invoke(c, w, replies, authority, limit));
  }

  lemma {:induction false} AnInvocationHasStarted(c: Setting, w: World, replies: seq<Reply>, authority: Authority, limit: nat)
    requires Running(w)
    ensures !Invoke(c, w, replies, authority, limit).at.NotStarted?
    decreases limit
  {
    if limit > 0 && Running(Superstep(c, w, replies, authority)) {
      AnInvocationHasStarted(c, Superstep(c, w, replies, authority), replies, authority, limit - 1);
    }
  }

  lemma AllowedUpToTheLastFits(w: World, w': World)
    requires AllowedUpToTheLast(w, w') && !w'.at.NotStarted?
    ensures VerdictFits(w, w', VerdictOf(w'))
  {
  }

  /** The exit status tells how the invocation stopped: 0 exactly when the thread finished, 5
      exactly when the last question was suspended, 4 when it could not be put, 3 when it was
      refused, and 1 otherwise. */
  lemma TheExitStatusTells(w: World, w': World, v: Verdict)
    requires VerdictFits(w, w', v)
    ensures var n, m, status := |w.trace|, |w'.trace|, ExitStatus(v);
            && (status == 0 <==> w'.at.Finished?)
            && (n < m ==>
                  var answer := w'.trace[m - 1].answer;
                  && (answer.Suspend? ==> status == 5) && (answer.CouldNotAsk? ==> status == 4)
                  && (answer.AskRefused? ==> status == 3) && (answer.Deny? ==> status == 1)
                  && (answer.Allow? && !w'.at.Finished? ==> status == 1))
            && (n == m && !w'.at.Finished? ==> status == 1)
  {
  }

  // -- A wait costs one question a pass -----------------------------------------

  /** A halted thread resumed with nothing merged, once for every answer. */
  function ResumeThrough(c: Setting, w: World, answers: seq<Answer>): World {
    if answers == [] then w
    else
      var before := ResumeThrough(c, w, answers[..|answers| - 1]);
      Step(c, Step(c, before, Resume(NO_UPDATE)), Ask(answers[|answers| - 1]))
  }

  /** The very question node `t` puts in state `s`, once for every answer. */
  function Passes(c: Setting, t: Tool, s: State, answers: seq<Answer>): seq<Exchange>
    requires Bind(c, t, s).Some?
  {
    seq(|answers|, i requires 0 <= i < |answers| => Exchange(t, s, QuestionFor(c, t, Bind(c, t, s).value), answers[i]))
  }

  /** N resumes that are not allowed cost N questions more, each the very question the node
      put before, and change nothing else. */
  lemma {:induction false} WaitingCostsOneQuestionAPass(c: Setting, w: World, answers: seq<Answer>)
    requires w.at.Halted? && Bind(c, w.at.tool, w.state).Some?
    requires forall i :: 0 <= i < |answers| ==> !answers[i].Allow?
    ensures ResumeThrough(c, w, answers) ==
            w.(at := if answers == [] then w.at else Halted(w.at.tool, Answered(answers[|answers| - 1])),
               stored := w.stored + |answers|,
               trace := w.trace + Passes(c, w.at.tool, w.state, answers))
  {
    MergingNothingChangesNothing(w.state);
    if answers == [] {
      assert w.trace + Passes(c, w.at.tool, w.state, answers) == w.trace;
    } else {
      var fewer, last := answers[..|answers| - 1], answers[|answers| - 1];
      WaitingCostsOneQuestionAPass(c, w, fewer);
      var x := Exchange(w.at.tool, w.state, QuestionFor(c, w.at.tool, Bind(c, w.at.tool, w.state).value), last);
      assert Passes(c, w.at.tool, w.state, answers) == Passes(c, w.at.tool, w.state, fewer) + [x];
      assert (w.trace + Passes(c, w.at.tool, w.state, fewer)) + [x] == w.trace + Passes(c, w.at.tool, w.state, answers);
    }
  }

  // -- Every invocation of a script that ends comes to an end -------------------

  /** An upper bound of the nodes still to run. */
  function NodesLeft(w: World, replies: seq<Reply>): nat {
    var script := if w.turns < Tail(replies) then Tail(replies) - w.turns else 0;
    var corrections := if w.state.nudges < MAX_NUDGES then MAX_NUDGES - w.state.nudges else 0;
    2 * (script + corrections + 1) + if w.at.AtTool? then 1 else 0
  }

  /** Whatever the authority answers, whatever was merged before, and whichever acts are
      required. */
  lemma {:induction false} EveryInvocationEnds(c: Setting, w: World, replies: seq<Reply>, authority: Authority, limit: nat)
    requires EndsWithoutATool(replies) && NodesLeft(w, replies) <= limit
    ensures !Running(Invoke(c, w, replies, authority, limit))
    decreases limit
  {
    if Running(w) {
      var next := Superstep(c, w, replies, authority);
      if Running(next) {
        ANodeSpends(c, w, replies, authority);
        EveryInvocationEnds(c, next, replies, authority, limit - 1);
      }
    }
  }

  lemma ANodeSpends(c: Setting, w: World, replies: seq<Reply>, authority: Authority)
    requires EndsWithoutATool(replies) && Running(w) && Running(Superstep(c, w, replies, authority))
    ensures NodesLeft(Superstep(c, w, replies, authority), replies) < NodesLeft(w, replies)
  {
    match w.at
    case AtReason => assert w.turns >= Tail(replies) ==> ScriptReply(replies, w.turns).calls == [];
    case AtTool(t) =>
  }

  // -- Invocations are runs -----------------------------------------------------

  /** What a thread does next, left to its script and its authority. */
  function Chooser(c: Setting, replies: seq<Reply>, authority: Authority): World -> Option<Event> {
    w => if Running(w) then Some(NextEvent(c, w, replies, authority)) else None
  }

  /** The events of one invocation: turns and answers, and no resume. */
  function EventsOf(c: Setting, w: World, replies: seq<Reply>, authority: Authority, limit: nat): seq<Event> {
    Taken(Stepper(c), Chooser(c, replies, authority), w, limit)
  }

  lemma AnInvocationResumesNothing(c: Setting, w: World, replies: seq<Reply>, authority: Authority, limit: nat)
    ensures Unmerged(EventsOf(c, w, replies, authority, limit))
  {
    WhatIsChosenIsTaken(Stepper(c), Chooser(c, replies, authority), w, limit, (e: Event) => !e.Resume?);
    var events := EventsOf(c, w, replies, authority, limit);
    assert forall i :: 0 <= i < |events| ==> events[i] in events;
  }

  lemma {:induction false} AnInvocationIsAnEnding(c: Setting, w: World, replies: seq<Reply>, authority: Authority, limit: nat)
    ensures Invoke(c, w, replies, authority, limit) == Ending(Stepper(c), Chooser(c, replies, authority), w, limit)
    decreases limit
  {
    if Running(w) && limit > 0 {
      AnInvocationIsAnEnding(c, Superstep(c, w, replies, authority), replies, authority, limit - 1);
    }
  }

  lemma AnInvocationIsAFold(c: Setting, w: World, replies: seq<Reply>, authority: Authority, limit: nat)
    ensures Invoke(c, w, replies, authority, limit) == Fold(Stepper(c), w, EventsOf(c, w, replies, authority, limit))
  {
    AnInvocationIsAnEnding(c, w, replies, authority, limit);
    TheEndingIsAFold(Stepper(c), Chooser(c, replies, authority), w, limit);
  }

  /** So what every run keeps, every invocation of every thread keeps. */
  lemma AnInvocationIsARun(c: Setting, before: seq<Event>, replies: seq<Reply>, authority: Authority, limit: nat)
    ensures var w := Run(c, before);
            Run(c, before + EventsOf(c, w, replies, authority, limit)) == Invoke(c, w, replies, authority, limit)
  {
    var w := Run(c, before);
    AnInvocationIsAFold(c, w, replies, authority, limit);
    RunningOnIsFolding(c, before, EventsOf(c, w, replies, authority, limit));
  }

  // -- A whole thread -----------------------------------------------------------

  /** One invocation: what is merged before it, the authority it meets, and its limit. The
      first of a thread merges nothing, there being nothing to resume. */
  datatype Pass = Pass(update: Update, authority: Authority, limit: nat)

  /** A thread started and then invoked again and again. */
  function Thread(c: Setting, task: string, replies: seq<Reply>, passes: seq<Pass>): World {
    if passes == [] then Step(c, INITIAL, Start(task))
    else
      var before, p := Thread(c, task, replies, passes[..|passes| - 1]), passes[|passes| - 1];
      Invoke(c, Step(c, before, Resume(p.update)), replies, p.authority, p.limit)
  }

  function EventsOfThread(c: Setting, task: string, replies: seq<Reply>, passes: seq<Pass>): seq<Event> {
    if passes == [] then [Start(task)]
    else
      var p := passes[|passes| - 1];
      var before := EventsOfThread(c, task, replies, passes[..|passes| - 1]) + [Resume(p.update)];
      before + EventsOf(c, Run(c, before), replies, p.authority, p.limit)
  }

  lemma {:induction false} EveryThreadIsARun(c: Setting, task: string, replies: seq<Reply>, passes: seq<Pass>)
    ensures Run(c, EventsOfThread(c, task, replies, passes)) == Thread(c, task, replies, passes)
  {
    if passes == [] {
      RunOneMore(c, [], Start(task));
      assert [] + [Start(task)] == [Start(task)];
    } else {
      var fewer, p := passes[..|passes| - 1], passes[|passes| - 1];
      EveryThreadIsARun(c, task, replies, fewer);
      var events := EventsOfThread(c, task, replies, fewer);
      RunOneMore(c, events, Resume(p.update));
      AnInvocationIsARun(c, events + [Resume(p.update)], replies, p.authority, p.limit);
    }
  }

  predicate MergesNothing(passes: seq<Pass>) {
    forall i :: 0 <= i < |passes| ==> passes[i].update == NO_UPDATE
  }

  lemma {:induction false} AThreadThatMergesNothingIsUnmerged(c: Setting, task: string, replies: seq<Reply>, passes: seq<Pass>)
    requires MergesNothing(passes)
    ensures Unmerged(EventsOfThread(c, task, replies, passes))
  {
    if passes != [] {
      var fewer, p := passes[..|passes| - 1], passes[|passes| - 1];
      AThreadThatMergesNothingIsUnmerged(c, task, replies, fewer);
      var before := EventsOfThread(c, task, replies, fewer) + [Resume(p.update)];
      AnInvocationResumesNothing(c, Run(c, before), replies, p.authority, p.limit);
    }
  }

  /** A turn gets the reply the script gives on that turn. */
  function ByTheScript(replies: seq<Reply>): (World, Event) -> bool {
    (w: World, e: Event) => e.Turn? ==> e.reply == ScriptReply(replies, w.turns)
  }

  lemma AnInvocationFollowsItsScript(c: Setting, w: World, replies: seq<Reply>, authority: Authority, limit: nat)
    ensures Along(Stepper(c), w, EventsOf(c, w, replies, authority, limit), ByTheScript(replies))
  {
    WhatIsChosenHoldsAlong(Stepper(c), Chooser(c, replies, authority), w, limit, ByTheScript(replies));
  }

  lemma OneMoreByTheScript(c: Setting, before: seq<Event>, e: Event, replies: seq<Reply>)
    requires Scripted(c, before, replies) && ByTheScript(replies)(Run(c, before), e)
    ensures Scripted(c, before + [e], replies)
  {
    var all, n := before + [e], |before|;
    forall k | 0 <= k < |all| && all[k].Turn? && Run(c, all[..k]).at.AtReason?
      ensures all[k].reply == ScriptReply(replies, Run(c, all[..k]).turns)
    {
      assert all[..k] == before[..k];
      assert before[..n] == before;
    }
  }

  lemma {:induction false} MoreByTheScript(c: Setting, before: seq<Event>, events: seq<Event>, replies: seq<Reply>)
    requires Scripted(c, before, replies) && Along(Stepper(c), Run(c, before), events, ByTheScript(replies))
    ensures Scripted(c, before + events, replies)
    decreases |events|
  {
    if events == [] {
      assert before + events == before;
    } else {
      OneMoreByTheScript(c, before, events[0], replies);
      RunOneMore(c, before, events[0]);
      MoreByTheScript(c, before + [events[0]], events[1..], replies);
      assert before + [events[0]] + events[1..] == before + events;
    }
  }

  lemma {:induction false} EveryThreadFollowsItsScript(c: Setting, task: string, replies: seq<Reply>, passes: seq<Pass>)
    ensures Scripted(c, EventsOfThread(c, task, replies, passes), replies)
  {
    if passes != [] {
      var fewer, p := passes[..|passes| - 1], passes[|passes| - 1];
      EveryThreadFollowsItsScript(c, task, replies, fewer);
      var events := EventsOfThread(c, task, replies, fewer);
      OneMoreByTheScript(c, events, Resume(p.update), replies);
      var before := events + [Resume(p.update)];
      AnInvocationFollowsItsScript(c, Run(c, before), replies, p.authority, p.limit);
      MoreByTheScript(c, before, EventsOf(c, Run(c, before), replies, p.authority, p.limit), replies);
    }
  }

  /** A thread of the scripted model, started once and resumed any number of times with nothing
      merged, each time under an authority of its own, takes at most max(len(replies), 1) +
      MAX_NUDGES reasoning turns in all. */
  lemma AThreadTakesFewTurns(c: Setting, task: string, replies: seq<Reply>, passes: seq<Pass>)
    requires MergesNothing(passes) && EndsWithoutATool(replies)
    ensures Thread(c, task, replies, passes).turns <= (if replies == [] then 1 else |replies|) + MAX_NUDGES
  {
    EveryThreadIsARun(c, task, replies, passes);
    AThreadThatMergesNothingIsUnmerged(c, task, replies, passes);
    EveryThreadFollowsItsScript(c, task, replies, passes);
    AScriptedRunTakesFewTurns(c, EventsOfThread(c, task, replies, passes), replies);
  }

  /** Event `k` is the turn that finished the run, and nothing has happened since. */
  ghost predicate Finishes(c: Setting, events: seq<Event>, k: nat) {
    && k < |events| && events[k].Turn? && Run(c, events[..k]).at.AtReason?
    && Run(c, events) == TakeTurn(c, Run(c, events[..k]), events[k].reply)
  }

  /** The closing answer is the content of the last reply, when that requested no tool; when
      it requested an unknown one, there is no answer. */
  predicate Closing(reply: Reply, answer: string) {
    answer == if reply.calls == [] then reply.content else ""
  }

  lemma {:induction false} TheAnswerIsTheLastReplys(c: Setting, events: seq<Event>)
    requires Unmerged(events) && Run(c, events).at.Finished?
    ensures exists k: nat :: Finishes(c, events, k) && Closing(events[k].reply, Run(c, events).state.answer)
  {
    if events != [] {
      var n := |events| - 1;
      var before, e := events[..n], events[n];
      assert events == before + [e];
      if Run(c, before).at.Finished? {
        TheAnswerIsTheLastReplys(c, before);
        var k: nat :| Finishes(c, before, k) && Closing(before[k].reply, Run(c, before).state.answer);
        assert before[..k] == events[..k];
        assert Finishes(c, events, k);
      } else {
        TheLastTurnAnswers(c, before, e);
        assert Finishes(c, events, n);
      }
    }
  }

  lemma TheLastTurnAnswers(c: Setting, before: seq<Event>, e: Event)
    requires Unmerged(before + [e]) && Unmerged(before)
    requires !Run(c, before).at.Finished? && Step(c, Run(c, before), e).at.Finished?
    ensures e.Turn? && Run(c, before).at.AtReason? && Closing(e.reply, Step(c, Run(c, before), e).state.answer)
  {
    var w := Run(c, before);
    if e.Turn? && w.at.AtReason? {
      EveryTurnIsTurned(c, before, e.reply);
      RunOneMore(c, before, e);
      TheStateIsTold(c, before + [e]);
    }
  }

  /** The answer of a finished scripted thread is the script's own reply for its last turn. */
  lemma AThreadAnswersByItsScript(c: Setting, task: string, replies: seq<Reply>, passes: seq<Pass>)
    requires MergesNothing(passes) && Thread(c, task, replies, passes).at.Finished?
    ensures var w := Thread(c, task, replies, passes);
            w.turns > 0 && Closing(ScriptReply(replies, w.turns - 1), w.state.answer)
  {
    var events := EventsOfThread(c, task, replies, passes);
    EveryThreadIsARun(c, task, replies, passes);
    AThreadThatMergesNothingIsUnmerged(c, task, replies, passes);
    EveryThreadFollowsItsScript(c, task, replies, passes);
    TheAnswerIsTheLastReplys(c, events);
    var k: nat :| Finishes(c, events, k) && Closing(events[k].reply, Run(c, events).state.answer);
    assert events[k].reply == ScriptReply(replies, Run(c, events[..k]).turns);
  }

  /** What every run keeps, every such thread keeps; and its files whatever is merged. */
  lemma WhatEveryThreadKeeps(c: Setting, task: string, replies: seq<Reply>, passes: seq<Pass>)
    ensures var w := Thread(c, task, replies, passes);
            && Accounted(c, w)
            && (MergesNothing(passes) ==>
                  && TranscriptKept(w) && DraftKept(w) && InBlocks(w) && CorrectionsCounted(c, w)
                  && AllApt(c, w.state.messages) && Told(w))
  {
    var events := EventsOfThread(c, task, replies, passes);
    EveryThreadIsARun(c, task, replies, passes);
    EveryArtefactNamesItsOwnAllow(c, events);
    if MergesNothing(passes) {
      AThreadThatMergesNothingIsUnmerged(c, task, replies, passes);
      EveryTranscriptIsPaired(c, events);
      TheDraftIsOneReply(c, events);
      EveryTraceIsInBlocks(c, events);
      ThreeWaysToFinish(c, events);
      EveryCorrectionIsApt(c, events);
      TheStateIsTold(c, events);
    }
  }

  // -- The run, in place --------------------------------------------------------

  class GovernedRun {
    const c: Setting
    const stamp: Stamp
    const work: Workspace
    const model: ScriptedModel
    var at: At
    var state: State
    var stored: nat
    var trace: seq<Exchange>
    var turns: nat

    constructor (c: Setting, replies: seq<Reply>)
      ensures Valid() && View() == INITIAL
      ensures this.c == c && model.replies == replies
      ensures fresh(stamp) && fresh(work) && fresh(model)
    {
      this.c := c;
      stamp := new Stamp();
      work := new Workspace();
      model := new ScriptedModel(replies);
      at, state, stored, trace, turns := NotStarted, EMPTY_STATE, 0, [], 0;
    }

    /** The model's cursor counts the turns, unless there is no script to move along. */
    ghost predicate Valid()
      reads this, model
    {
      model.replies != [] ==> model.cursor == turns
    }

    function View(): World
      reads this, stamp, work
    {
      World(at, state, stored, stamp.last, work.Contents(), trace, turns)
    }

    /** What the reasoning node returns for a reply to the transcript `messages`. */
    method Weigh(added: seq<Message>, reply: Reply) returns (update: Update)
      requires added == Opening(state)
      ensures update == Graph.Reason(c.required, state, reply)
    {
      update := Drafted(state, reply);
      if reply.calls == [] {
        var attempted := CollectAttempted(state.messages + added);
        var missing := Missing(c.required, attempted);
        if missing != [] && state.nudges < MAX_NUDGES {
          var hasDraft := update.draft.Some? || state.draft != "";
          var askingForDraft := missing[0] == ToolName(Write) && !hasDraft;
          var corpus := None;
          if askingForDraft {
            corpus := LastReading(state.messages + added);
          }
          return update.(
            messages := added + [Assistant(reply.content, []), Correction(missing[0], state.nudges + 1, hasDraft, corpus)],
            pending := Some(None), nudge := Some(true), nudges := Some(state.nudges + 1),
            draftRequested := Some(askingForDraft));
        }
        return update.(messages := added + [Assistant(reply.content, [])],
          pending := Some(None), nudge := Some(false), answer := Some(reply.content));
      }
      var call := reply.calls[0];
      if ToolNamed(call.name).None? {
        return NO_UPDATE.(
          messages := added + [Assistant("", [call]), ToolResult(call.id, call.name, NoSuchTool(call.name))],
          pending := Some(None));
      }
      var sequence := state.sequence + 1;
      return update.(messages := added + [Assistant(reply.content, [call])],
        pending := Some(Some(Pending(call.id, call.name, call.arguments, sequence))),
        sequence := Some(sequence), nudge := Some(false));
    }

    /** The reasoning node, and the edge out of it. */
    method Reason()
      requires Valid() && at.AtReason?
      modifies this, model
      ensures Valid()
      ensures View() == Step(c, old(View()), Turn(ScriptReply(model.replies, old(turns))))
    {
      var added := if state.messages == [] then [System, User(state.task)] else [];
      var reply := model.Complete(state.messages + added);
      var update := Weigh(added, reply);
      state, turns := Merge(state, update), turns + 1;
      at := AfterReason(state);
    }

    /** The framework's interruption: it hands back the stored resume values one by one and,
        when there is none left, raises. */
    method Interrupt(used: nat) returns (raised: bool)
      ensures raised <==> used >= stored
    {
      raised := used >= stored;
    }

    /** The wrapped node: bind, ask once, and either enter the body or leave by raising. */
    method GovernedNode(authority: Authority)
      requires Valid() && at.AtTool?
      modifies this, stamp, work
      ensures Valid()
      ensures View() == Step(c, old(View()), Ask(AnswerTo(c, old(View()), old(at.tool), authority)))
    {
      var t := at.tool;
      var arguments := Bind(c, t, state);
      if arguments.None? {
        at := Halted(t, Unbound);
        return;
      }
      var entered := false;
      var question := QuestionFor(c, t, arguments.value);
      var answer := authority(Questions(trace) + [question]);
      trace := trace + [Exchange(t, state, question, answer)];
      match answer {
        case Allow(decisionRef) =>
          entered := true;
          stamp.Record(Capability(t), decisionRef);
          ToolBody(t);
        case Suspend(_) =>
          var used, raised := 0, false;
          ghost var asked := View();
          while !raised
            invariant used <= stored && (raised ==> used == stored)
            invariant !entered && View() == asked
            decreases stored - used, !raised
          {
            raised := Interrupt(used);
            if !raised { used := used + 1; }
          }
          at := Halted(t, Answered(answer));
        case _ =>
          at := Halted(t, Answered(answer));
      }
    }

    /** The body: the resolution the projection was taken of, the act, and its one result. */
    method ToolBody(t: Tool)
      requires at == AtTool(t) && state.pending.Some?
      modifies this, work
      ensures trace == old(trace) && turns == old(turns)
      ensures stamp.last == old(stamp.last)
      ensures var r := Resolve(c, old(state));
              var (files, outcome) := Perform(c, t, r, LastAuthorisation(stamp.last, t), old(work.Contents()));
              && work.Contents() == files && at == AtReason && stored == 0
              && state == Merge(old(state), ToolUpdate(old(state.pending.value), r, outcome))
    {
      var act, resolved := state.pending.value, Resolve(c, state);
      var outcome := work.Execute(c, t, resolved, stamp);
      var update := NO_UPDATE.(messages := [ToolResult(act.callId, act.tool, outcome)], pending := Some(None));
      if !outcome.Refused? && act.tool == ToolName(Write) {
        update := update.(reportText := Some(Shown(Field(resolved, "content"))));
      }
      assert update == ToolUpdate(act, resolved, outcome);
      state := Merge(state, update);
      at, stored := AtReason, 0;
    }

    /** One node, whichever the thread stands at. */
    method RunNode(authority: Authority)
      requires Valid() && (at.AtReason? || at.AtTool?)
      modifies this, stamp, work, model
      ensures Valid() && View() == Superstep(c, old(View()), model.replies, authority)
    {
      if at.AtReason? { Reason(); } else { GovernedNode(authority); }
    }

    /** A halted thread re-enters its node, with whatever the caller merges. */
    method Reenter(update: Update)
      requires at.Halted?
      modifies this
      ensures turns == old(turns) && View() == Step(c, old(View()), Resume(update))
    {
      state, at, stored := Merge(state, update), AtTool(at.tool), stored + 1;
    }

    /** One invocation, and the closed answer set turned into a verdict. */
    method Drive(authority: Authority, limit: nat) returns (verdict: Verdict, outbox: nat)
      requires Valid()
      modifies this, stamp, work, model
      ensures Valid()
      ensures View() == Invoke(c, old(View()), model.replies, authority, limit)
      ensures outbox == |work.outbox| && verdict == VerdictOf(View())
      ensures old(at.AtReason? || at.AtTool?) ==> VerdictFits(old(View()), View(), verdict)
    {
      ghost var before := View();
      ghost var end := Invoke(c, before, model.replies, authority, limit);
      var left := limit;
      while (at.AtReason? || at.AtTool?) && left > 0
        invariant Valid()
        invariant Invoke(c, View(), model.replies, authority, left) == end
        decreases left
      {
        InvokingOn(c, View(), model.replies, authority, left);
        RunNode(authority);
        left := left - 1;
      }
      InvokingOn(c, View(), model.replies, authority, left);
      verdict, outbox := VerdictOf(View()), |work.outbox|;
      if Running(before) { TheVerdictFits(c, before, model.replies, authority, limit); }
    }

    method Begin(task: string, authority: Authority, limit: nat) returns (verdict: Verdict, outbox: nat)
      requires Valid() && at.NotStarted?
      modifies this, stamp, work, model
      ensures Valid()
      ensures View() == Invoke(c, Step(c, old(View()), Start(task)), model.replies, authority, limit)
      ensures outbox == |work.outbox| && verdict == VerdictOf(View())
      ensures VerdictFits(old(View()), View(), verdict)
    {
      state, at := state.(task := task), AtReason;
      verdict, outbox := Drive(authority, limit);
    }

    /** Continue a suspended or failed thread, with whatever the caller merges. */
    method Continue(update: Update, authority: Authority, limit: nat) returns (verdict: Verdict, outbox: nat)
      requires Valid() && at.Halted?
      modifies this, stamp, work, model
      ensures Valid()
      ensures View() == Invoke(c, Step(c, old(View()), Resume(update)), model.replies, authority, limit)
      ensures outbox == |work.outbox| && verdict == VerdictOf(View())
      ensures VerdictFits(old(View()), View(), verdict)
    {
      Reenter(update);
      verdict, outbox := Drive(authority, limit);
    }
  }
}
