# A model of the governed agent demonstration, and what is proved of it

This project models, in Dafny, the parts of the repository that carry its claims, and proves
the claims for every input, every run and every order of events.

* **The governed-act protocol.** One graph thread: a reasoning node, a router, and four tool
  nodes, each wrapped so that its body runs only inside an allow. A suspended thread may be
  resumed any number of times with arbitrary state merged into it. `Acts` holds the state, the
  resolution of an act and the four binding projections; `Tools` the effects, the workspace
  and the stamp; `Graph` the reasoning node, the router and the scripted model; `Protocol`
  the thread as a state machine over events; `Agent` whole invocations, whole threads and the
  run as an object; `Machines` what any machine left to itself does. `Transcripts` reads the
  whole state of a run off its transcript, and `Deeds` says what a proposal is asked as and
  what it does, in terms of the call the model made.
* **The gate.** Two environments, each with contents and a route record, through unboundedly
  many runs with any options, any failing command, and a kill anywhere, between two commands
  or inside an install or the removal of a directory. `Gate` says what each command of one run
  leaves on disk, `GateScript` is the same script in place, and `GateExits` says exactly how a
  run exits and what a green one leaves.
* **The configuration-file reader**, which keeps the names it has assigned in one string
  (`EnvironmentFile`), and **the walk along an exception chain** that may be circular
  (`OpenPackages`).

## How to read it

Everything the repository does not decide is an input. In `Protocol` an event carries the
model's reply, the authority's answer, or what a caller merges, so a statement about all
event sequences is about all models, all authorities and all callers (layer 1: it rests on
this repository's code alone). `Plane` then composes the thread with a control plane (layer
2). That plane is an ASSUMPTION, written out in `Plane.Respond`: a question is the scope, the
principal, the capability and the digest; a pending question gets the same reference again;
an approved and unspent one gets one allow; a rejected one is denied while its wait lasts; a
lapsed or spent one opens a new wait. Answers may be lost after the plane gave them.

Where the source works in place, the model does too: `Tools.Stamp`, `Tools.Workspace`,
`Graph.ScriptedModel`, `Agent.GovernedRun`, `GateScript.Machine`,
`EnvironmentFile.Environment` and `OpenPackages.AbsentOpenPackage` are classes and loops,
each method proved equal to a function of the old state, and the theorems are about those
functions.

Assumptions, each a stated hypothesis of the lemmas that need it or fixed in the model:

* the digest of a text and the digest of a binding are arbitrary functions; a lemma that needs
  them to be collision-free says `Injective`;
* the corpus does not change during a run (the read body lists it again);
* an update overwrites every member it has except the messages, which are appended to; a
  resume executes the halted node from the top; `interrupt` hands back the stored resume
  values one by one and then raises;
* an install that fails touches nothing, or leaves what it was installing unusable.

Results that are not simply the documentation's sentence:

* A binding does not always fix the file a write or an upload uses. It does exactly when the
  name is truthy exactly when its text is not empty, or is falsy and spelled like the default
  (`Bindings.UsedNameIsTheBoundNameExactlyWhen`); an act at its own node always qualifies
  (`Bindings.EqualBindingsHaveEqualEffects`), and a substituted unknown tool with a null name
  does not: two resumes of a thread halted at a write put one question and save under two
  names (`Protocol.OneQuestionTwoFiles`).
* A route record is always true of what is there, but it can outlive it: exactly in a run that
  refuses the index and has removed the first distribution while the record still stands, or
  one that is removing the command's directory with its record in it
  (`GateProofs.RecordsAreWholeExactlyUnless`).
* The rule at scripts/gate.sh:24-25, that no plain run removes what an earlier run installed,
  is not met by every plain run: after two completed runs from checkouts, the second of which
  failed to install the distributions, a plain run without the network removes the
  distributions and the command (`GateOutcomes.APlainRunCanRemoveWhatEarlierRunsInstalled`).
  A plain run meets it exactly when `GateOutcomes.KeepsBoth` holds of what its commands do and
  of the two records it finds (`GateOutcomes.APlainRunKeepsBothExactlyWhen`). With fixed pins,
  a usable disk is safe from every plain run, and from every sequence of completed ones,
  exactly when both its environments are recorded
  (`GateOutcomes.ADiskIsSafeExactlyWhenBothAreRecorded`,
  `GateOutcomes.RunsAreSafeExactlyWhenBothAreRecorded`).
* Prose that answers a request for the report becomes the draft exactly when it is long enough
  and does not come with a call of an unknown tool, whose prose the reasoning node drops
  (`Transcripts.AnAnswerToTheRequestIsTheDraft`).
* A run that ends on an unknown tool is completed with no answer at all
  (`Agent.TheAnswerIsTheLastReplys`).
* A green exit means what it says exactly unless the reading of a checkout fails with the
  status 75: it is done inside a shell function, where the trap that turns 75 into 1 does not
  see it (`GateOutcomes.GreenIsEarned`).
* The file reader supplies what nobody named, except for seven names: its own local variables
  hide them (`EnvironmentFile.OwnNamesAreNeverAssigned`). The comment at
  scripts/lib/environment.sh:21 states the rule without that exception; the model follows the
  code.

## Model

| member | source | states |
|---|---|---|
| Acts.ToolNamed | src/sayfirst_governed_agent_demo/graph.py:91-96 | a name is routed to the one tool that bears it, and to none exactly when no tool bears it |
| Acts.NamesAndCapabilitiesAreDistinct | src/sayfirst_governed_agent_demo/tools.py:82-149 | one node, one capability: neither a tool's name nor its capability is another's |
| Acts.EveryToolIsItsNamesOnly | src/sayfirst_governed_agent_demo/tools.py:82-149 | the four names, each with the capability it is governed under, and no other |
| Acts.StrippingTakesTheEndsOff | src/sayfirst_governed_agent_demo/tools.py:216-217 | a stripped text is the text without the spaces at its ends |
| Acts.AListIsShown | src/sayfirst_governed_agent_demo/state.py:181 | how a list among an act's arguments is turned into text |
| Acts.ProposedActsAreBound | src/sayfirst_governed_agent_demo/state.py:78-139 | an act that reaches its own node is always bound, under its own sequence number |
| Acts.MergingNothingChangesNothing | src/sayfirst_governed_agent_demo/agent.py:106-116 | a resume that merges nothing leaves the state as it was |
| Acts.MergingAStateGivesIt | src/sayfirst_governed_agent_demo/graph.py:99-125 | a merge overwrites every member it has and appends the messages |
| Tools.ArtefactNamesTellReferencesApart | src/sayfirst_governed_agent_demo/tools.py:205-246 | artefact names are as distinct as decision references, and a message never has an upload's name |
| Tools.Stamp.Record | src/sayfirst_governed_agent_demo/governance_stamp.py:25-26 | recording replaces one capability's decision and no other |
| Tools.Stamp.Authorisation | src/sayfirst_governed_agent_demo/governance_stamp.py:34-36 | the stamp names the tool's capability and the decision on record for it, or none |
| Tools.Workspace.WriteInternalReport | src/sayfirst_governed_agent_demo/tools.py:182-202 | a bad name or a blank report changes nothing; otherwise one report is written |
| Tools.Workspace.SendExternalEmail | src/sayfirst_governed_agent_demo/tools.py:205-238 | without an address nothing is written; otherwise one message named after its decision |
| Tools.Workspace.UploadExternal | src/sayfirst_governed_agent_demo/tools.py:241-260 | a bad name changes nothing; otherwise one upload artefact named after its decision |
| Tools.Workspace.Execute | src/sayfirst_governed_agent_demo/graph.py:412-423 | each node performs its own act, and the external ones under their own capability's stamp |
| Bindings.EqualSendBindingsSendTheSameMessage | src/sayfirst_governed_agent_demo/state.py:111-128 | two states with equal send bindings send the same message or are both refused, whatever the pending act calls its tool |
| Bindings.EqualPlainBindingsHaveEqualEffects | src/sayfirst_governed_agent_demo/state.py:94-139 | the same for write and upload bindings when the names are plain |
| Bindings.EqualBindingsHaveEqualEffects | src/sayfirst_governed_agent_demo/state.py:94-189 | for acts at their own nodes, all four of them, equal bindings have equal effects |
| Bindings.OwnActsHavePlainNames | src/sayfirst_governed_agent_demo/state.py:165-189 | an act at its own node always has a plain name |
| Bindings.UsedNameIsTheBoundNameExactlyWhen | src/sayfirst_governed_agent_demo/tools.py:192-243 | exactly when the name a body uses is the one its binding shows |
| Bindings.ASubstitutedNullNameIsNotTheBoundName | src/sayfirst_governed_agent_demo/state.py:106 | in any state, two acts with one binding whose bodies save under the default name and under « None » |
| Protocol.OneQuestionTwoFiles | src/sayfirst_governed_agent_demo/agent.py:106-116 | two resumes of any thread halted at a write put one question, and under one allow save two different files |
| Protocol.AWriteCanHalt | src/sayfirst_governed_agent_demo/boundary_setup.py:219-256 | there is such a thread |
| Graph.CollectAttempted | src/sayfirst_governed_agent_demo/graph.py:133-145 | the loops collect exactly the non-empty names of all calls in the transcript |
| Graph.TheLastReadingIsTheLast | src/sayfirst_governed_agent_demo/graph.py:148-153 | the corpus restated is the outcome of the last read, and nothing only when nothing was read |
| Transcripts.AttemptedIsProposed | src/sayfirst_governed_agent_demo/graph.py:133-145 | an act was attempted exactly when some message of the model called for it |
| Graph.MissingIsWhatWasNotAttempted | src/sayfirst_governed_agent_demo/graph.py:253 | the outstanding acts are the required ones never proposed, and no others |
| Graph.MissingIsInOrder | src/sayfirst_governed_agent_demo/graph.py:253 | they keep their own order: each stands behind as many as are outstanding before it, and there are as many as are outstanding |
| Graph.ScriptedModel.Complete | src/sayfirst_governed_agent_demo/model.py:190-198 | replies come in order, the last one repeats, and an empty script answers with nothing |
| Protocol.RunningOnIsFolding | src/sayfirst_governed_agent_demo/agent.py:103-116 | taking a thread further is the same whether its events are read from the front or the back |
| Protocol.PerformingIsExplained | src/sayfirst_governed_agent_demo/boundary_setup.py:225-236 | a body changes the outbox at one name at most, and what it puts there follows from the question it was allowed under |
| Protocol.EveryArtefactNamesItsOwnAllow | src/sayfirst_governed_agent_demo/boundary_setup.py:219-256 | for any authority and any merges, every artefact names the decision of an allow for its node's capability and for the binding of the very state its body ran on, and holds what that binding says; every report was saved under such an allow |
| Protocol.EveryStampIsTheLastAllow | src/sayfirst_governed_agent_demo/governance_stamp.py:22-36 | for any authority and any merges, the stamp of a capability is the decision of the last allow given under it |
| Runs.EveryTranscriptIsPaired | src/sayfirst_governed_agent_demo/graph.py:272-328 | every proposal is followed at once by its one result, except a single trailing one, which exists exactly when an act is pending and is that act |
| Runs.TheDraftIsOneReply | src/sayfirst_governed_agent_demo/graph.py:243-250 | the draft is verbatim one reply of at least 80 stripped characters given while a request for it was open, and everything saved or sent is that text or, sent before it, empty |
| Runs.TheDraftNeverChanges | src/sayfirst_governed_agent_demo/graph.py:260-283 | once there is a draft, and once there is a saved report, neither ever changes |
| Runs.EverySendAfterASaveIsBoundToTheDraft | src/sayfirst_governed_agent_demo/state.py:173-183 | every send asked about after a save is bound to the digest of that same text, and that text is the body of any message it delivers |
| Runs.OneBlockOfOneQuestionPerAct | src/sayfirst_governed_agent_demo/graph.py:308-325 | the trace is contiguous blocks, one act and one question each, numbered upwards, and an allow ends its block |
| Runs.SameQuestionSameAct | src/sayfirst_governed_agent_demo/state.py:78-139 | no two distinct acts put the same question, and one act in one state puts one question |
| Runs.EveryResumeIsOneQuestion | src/sayfirst_governed_agent_demo/boundary_setup.py:33-39 | an act resumed N times has been asked about N times while it runs and N + 1 when it is halted again |
| Runs.ThreeWaysToFinish | src/sayfirst_governed_agent_demo/graph.py:252-306 | a finished run proposed every required act, or was corrected exactly MAX_NUDGES times, or last proposed an unknown tool with no correction outstanding |
| Runs.EveryCorrectionIsApt | src/sayfirst_governed_agent_demo/graph.py:255-279 | each correction names the first required act not yet proposed, is numbered in order, and restates the corpus exactly when it asks for the report |
| Runs.EveryProposalIsTheModels | src/sayfirst_governed_agent_demo/graph.py:208-222 | every call in a transcript, with its arguments, is a call some reply of the model made |
| Runs.AScriptedRunTakesFewTurns | src/sayfirst_governed_agent_demo/model.py:190-198 | any run that follows its script, over any number of resumes, takes at most max(replies, 1) + MAX_NUDGES reasoning turns when the last reply requests no tool |
| Transcripts.EveryTurnIsTurned | src/sayfirst_governed_agent_demo/graph.py:224-346 | what a reply adds to the transcript, whether it is corrected, and where it takes the thread, by the transcript alone |
| Transcripts.TheStateIsTold | src/sayfirst_governed_agent_demo/graph.py:99-125 | everything a run's state carries is what its transcript says: a report is asked for exactly while the request is open, the draft is the first prose that answered one, the saved text is the draft once a write came back saved, acts are counted as they were proposed |
| Transcripts.AnAnswerToTheRequestIsTheDraft | src/sayfirst_governed_agent_demo/graph.py:243-250 | the turn after a request for the report makes its prose the draft, exactly when that is long enough and is not dropped with an unknown tool |
| Transcripts.ProseIsTheDraftExactlyWhen | src/sayfirst_governed_agent_demo/graph.py:243-250 | whatever was merged: prose is the draft exactly when one was asked for, none is saved, it is long enough and is not dropped |
| Transcripts.TheTaskIsTheOneStarted | src/sayfirst_governed_agent_demo/agent.py:103-104 | a run carries the task it was started with and tells it to the model |
| Deeds.AProposalIsAskedAs | src/sayfirst_governed_agent_demo/state.py:78-139 | a node puts one question, about the arguments of the model's own call, the number of acts proposed and the digest of the draft in the transcript |
| Deeds.TheDomainFollowsTheLastAt | src/sayfirst_governed_agent_demo/state.py:126 | the domain in a question is what follows the last at sign |
| Deeds.AnAllowedProposalDoes | src/sayfirst_governed_agent_demo/tools.py:165-260 | an allowed call does what its own arguments say, with the draft in the transcript, writes exactly the file it should or refuses for the reason it should, and the model is told so |
| Deeds.EveryFileIsAProposals | src/sayfirst_governed_agent_demo/state.py:142-189 | every message goes to the recipient and under the subject some reply's own send named, every upload to its destination under its name, every report under its name: nothing is invented |
| Agent.ANodeFailsClosed | src/sayfirst_governed_agent_demo/boundary_setup.py:219-256 | a governed node puts one question at most, and anything but an allow leaves state, files and stamps alone |
| Agent.AnInvocationFailsClosed | src/sayfirst_governed_agent_demo/agent.py:118-165 | every question but the last was allowed, the last decides how the invocation stopped, and a thread that stopped is as it was when the node was reached and re-enters that node |
| Agent.TheVerdictFits | src/sayfirst_governed_agent_demo/agent.py:118-165 | read off the trace: completed exactly when the thread finished, with its answer; suspended, rejected, denied, refused or unobservable exactly as the last question was answered |
| Agent.TheExitStatusTells | src/sayfirst_governed_agent_demo/agent.py:49-80 | the exit status is 0 exactly when the thread finished, 5 for a suspension, 4 when the question could not be put, 3 when it was refused, and 1 otherwise |
| Agent.WaitingCostsOneQuestionAPass | src/sayfirst_governed_agent_demo/boundary_setup.py:226-254 | after the first, N resumes that are not allowed put N questions more, each the identical one, and change nothing else |
| Agent.EveryInvocationEnds | src/sayfirst_governed_agent_demo/graph.py:252-346 | for every authority, merge and list of required acts, an invocation of a script ending without a tool comes to an end within a computed number of nodes |
| Agent.AnInvocationIsAFold | src/sayfirst_governed_agent_demo/agent.py:118-126 | an invocation is exactly its own events applied in order |
| Agent.AnInvocationIsARun | src/sayfirst_governed_agent_demo/agent.py:103-116 | what every run keeps, every invocation of every thread keeps |
| Agent.AnInvocationResumesNothing | src/sayfirst_governed_agent_demo/agent.py:118-126 | an invocation never resumes its own thread |
| Agent.EveryThreadIsARun | src/sayfirst_governed_agent_demo/agent.py:103-116 | a start and any number of resumes, each with its merge, its authority and its limit, is one run |
| Agent.EveryThreadFollowsItsScript | src/sayfirst_governed_agent_demo/model.py:190-198 | every turn of every such thread gets the scripted model's reply for that turn |
| Agent.AThreadTakesFewTurns | src/sayfirst_governed_agent_demo/model.py:190-198 | a scripted thread, started and resumed any number of times with nothing merged, takes at most max(replies, 1) + MAX_NUDGES turns in all |
| Agent.TheAnswerIsTheLastReplys | src/sayfirst_governed_agent_demo/graph.py:284-290 | a finished run's answer is the content of its last reply, and nothing when that called an unknown tool |
| Agent.AThreadAnswersByItsScript | src/sayfirst_governed_agent_demo/model.py:190-198 | a finished scripted thread answers with the script's reply for its last turn |
| Agent.WhatEveryThreadKeeps | src/sayfirst_governed_agent_demo/agent.py:103-126 | every such thread accounts for its files, and without merges keeps its transcript, its draft, its blocks and its corrections |
| Agent.GovernedRun.constructor | src/sayfirst_governed_agent_demo/agent.py:90-97 | a new run has done nothing |
| Agent.GovernedRun.Weigh | src/sayfirst_governed_agent_demo/graph.py:224-328 | the update the node builds step by step is the reasoning update |
| Agent.GovernedRun.Reason | src/sayfirst_governed_agent_demo/graph.py:224-346 | one model turn merged and routed |
| Agent.GovernedRun.GovernedNode | src/sayfirst_governed_agent_demo/boundary_setup.py:219-256 | the wrapper, with its interrupt loop, is one step: one question, the body only inside an allow, and out of the loop only by raising |
| Agent.GovernedRun.ToolBody | src/sayfirst_governed_agent_demo/graph.py:362-386 | the body acts on the resolution the projection was taken of and hands back one result |
| Agent.GovernedRun.RunNode | src/sayfirst_governed_agent_demo/graph.py:426-487 | the thread runs the node it stands at |
| Agent.GovernedRun.Reenter | src/sayfirst_governed_agent_demo/agent.py:106-116 | a resume merges and stands at the same node again |
| Agent.GovernedRun.Drive | src/sayfirst_governed_agent_demo/agent.py:118-168 | one invocation node after node, with the outbox count and the verdict the last answer calls for |
| Agent.GovernedRun.Begin | src/sayfirst_governed_agent_demo/agent.py:103-104 | starting is the start event and one invocation |
| Agent.GovernedRun.Continue | src/sayfirst_governed_agent_demo/agent.py:106-116 | resuming is the resume event and one invocation |
| Plane.EveryHistoryIsARun | docs/ARCHITECTURE.md:66-84 | the thread beside the assumed plane is a run under some authority |
| Plane.RespondingSpends | src/sayfirst_governed_agent_demo/boundary_setup.py:23-31 | the assumed plane allows a reviewed question only by spending an approval of it |
| Plane.NoAllowWithoutAnApproval | src/sayfirst_governed_agent_demo/boundary_setup.py:23-31 | for every interleaving, a kind of question under review is allowed at most as often as it was approved, and only what was approved |
| Plane.MessagesNeverExceedAllows | src/sayfirst_governed_agent_demo/tools.py:205-238 | for any authority, there are never more messages than allowed sends |
| Plane.EveryMessageWasApproved | src/sayfirst_governed_agent_demo/boundary_setup.py:219-256 | for every interleaving of resumes with merges, approvals, rejections, lapses and outages: never more messages than approvals for the send capability, and each message is the one a person approved, after the tool's strip |
| Plane.OneMessagePerAllowedSend | src/sayfirst_governed_agent_demo/tools.py:208-213 | one allowed send its tool did not refuse is one message: the count is exact and none is overwritten |
| Plane.FilesChangeOnlyUnderAnAllow | src/sayfirst_governed_agent_demo/boundary_setup.py:227-236 | no file is written at any step but an allowed question's |
| Plane.HappeningsSpendWithin | src/sayfirst_governed_agent_demo/boundary_setup.py:23-31 | whatever happens next, what is allowed and what is approved and unspent grow by no more than approvals do |
| Plane.AnApprovedActRunsOnce | src/sayfirst_governed_agent_demo/boundary_setup.py:23-31 | after any history, an approved act runs at the next resume that is answered, and whatever follows, that very question is not allowed again until it is approved again |
| Plane.APendingActWaits | src/sayfirst_governed_agent_demo/boundary_setup.py:33-39 | while a wait is pending, N resumes put the identical question N times, get the same reference, and change nothing at the plane or on disk |
| Plane.ARejectionDenies | src/sayfirst_governed_agent_demo/boundary_setup.py:23-31 | an open wait that is rejected is denied at every resume from then on |
| Plane.ALapseOpensANewWait | src/sayfirst_governed_agent_demo/boundary_setup.py:23-31 | a wait that lapsed, whatever it had become, is replaced by a new one at the next resume |
| Plane.ARejectedActStaysDenied | docs/ARCHITECTURE.md:66-84 | a rejection is the answer at every resume while its wait lasts, and nothing is written |
| GateProofs.TheIndexBracket | scripts/gate.sh:345-380 | what the index delivered may be recorded as its own, and what it failed to replace and is still importable is untouched |
| GateProofs.ARunKeepsRecordsTrue | scripts/gate.sh:337-461 | every disk one run can be killed at, between its commands or inside one, has true records if the first one had |
| GateProofs.EveryRecordIsTrue | scripts/gate.sh:181-192 | in every state any sequence of runs can reach, with any options and failures and a kill at any step or inside one, a record that names a route is true |
| GateProofs.EveryDiskCanBeLeft | scripts/gate.sh:187-192 | what a killed run leaves is every disk it visits, and no other |
| GateExits.AnyPartCanBeLeft | scripts/gate.sh:460 | a kill inside the removal of the command's directory can leave any part of it, and nothing else |
| GateExits.AKillCanLeaveAnyMixture | scripts/gate.sh:187-192 | a kill inside an install can leave any of the distributions replaced and any lost, with no route on record |
| GateProofs.RecordsAreWholeExactlyUnless | scripts/gate.sh:450-461 | what is recorded is all there wherever a run is killed, exactly unless it refused the index and removed under a standing record, or removed the command's directory with its record in it |
| GateProofs.ReachingTheRemoval | scripts/gate.sh:194-206 | exactly which runs reach the removal, and what they find there |
| GateOutcomes.EnvironmentsAreEarned | scripts/gate.sh:337-471 | a run that gets as far as its checks has the distributions and the command by its route, or has neither; a forged 75 comes before anything is touched |
| GateOutcomes.GreenIsEarned | scripts/gate.sh:523-618 | after any runs, exactly unless the status was forged inside a function: exit 0 had nothing stood down and everything by the route it names; exit 75 lacked what it names, counted what stood down, and ran something; no command of either failed |
| GateExits.ARefusedRunTouchesNothing | scripts/gate.sh:95-164 | what a run may be asked for, the status of each refusal, and that a refused run touches nothing |
| GateExits.ARunExitsWithItsFirstFailure | scripts/gate.sh:71-90 | a run exits with the status of the first of its commands, in order, to fail, 75 turned into 1 except inside a function; and with its verdict when none does |
| GateExits.ARunIsGreenExactlyWhen | scripts/gate.sh:523-618 | for every wish, every way its commands go and every disk: exit 0 exactly when fully green, 75 exactly when green without something or forged |
| GateExits.AGreenRunLeaves | scripts/gate.sh:337-443 | exactly the disk a green run leaves, with its records, what the index delivered before left as it was |
| GateExits.RefusingToReduceLeavesEverything | scripts/gate.sh:365-375 | a plain run that refuses to reduce a checkouts environment exits 1 and leaves the disk as it was |
| GateExits.RefusingToRemoveTheCommandLeavesIt | scripts/gate.sh:425-433 | the same for the command |
| GateOutcomes.ABareRunKeepsBoth | scripts/gate.sh:345-443 | a completed plain run from two recorded environments keeps both things between any two commands, each original or the index's own, and both records true |
| GateOutcomes.BareRunsRemoveNothing | scripts/gate.sh:20-25 | no sequence of completed plain runs with fixed pins, from two recorded environments, removes the distributions or the command |
| GateOutcomes.APlainRunKeepsBothExactlyWhen | scripts/gate.sh:20-25 | whatever a plain run's commands do, exactly when it leaves a usable disk usable |
| GateOutcomes.ADiskIsSafeExactlyWhenBothAreRecorded | scripts/gate.sh:345-443 | with fixed pins, a usable disk is safe from every plain run exactly when both its environments are recorded |
| GateOutcomes.RunsAreSafeExactlyWhenBothAreRecorded | scripts/gate.sh:20-25 | the same for every sequence of completed plain runs |
| GateOutcomes.AnUnrecordedFirstEnvironmentCostsTheSecond | scripts/gate.sh:450-461 | without a record in the first environment, an unreachable index costs the distributions and the command |
| GateOutcomes.AnUnrecordedCommandIsRemoved | scripts/gate.sh:434-442 | without a checkouts record beside it, a command the index does not deliver is removed, and the distributions stay |
| GateOutcomes.APlainRunCanRemoveWhatEarlierRunsInstalled | scripts/gate.sh:20-25 | three completed runs from an empty disk, of which the plain one removes all that the others installed |
| GateOutcomes.RemovingSucceeds | scripts/gate.sh:451-456 | when no uninstall fails, the loop leaves none of the distributions |
| GateScript.Machine.Try | scripts/gate.sh:81-90 | a failing command ends the run with its own status, and the reserved one becomes 1 |
| GateScript.Machine.TryInFunction | scripts/gate.sh:236-253 | a command failing inside a shell function ends the run with its status as it is |
| GateScript.Machine.InstallInMain | scripts/gate.sh:341-362 | an install leaves what it installs, or anything between if it is killed |
| GateScript.Machine.RemoveClient | scripts/gate.sh:287-289 | the command's directory is gone, or any part of it is if the removal is killed |
| GateScript.Machine.ChooseRoute | scripts/gate.sh:95-206 | the refusals, and the route decision |
| GateScript.Machine.BuildFromCheckouts | scripts/gate.sh:261-293 | the command is built from its checkout in a bracket, or must not be found |
| GateScript.Machine.FillMain | scripts/gate.sh:295-380 | both brackets, the refusal, and falling back to a reduced run |
| GateScript.Machine.FillClient | scripts/gate.sh:385-443 | the index's bracket around the command, its refusal, and doing without |
| GateScript.Machine.StripDown | scripts/gate.sh:450-471 | the removal loop and the measurement after it |
| GateScript.Machine.Check | scripts/gate.sh:473-618 | stopping early, the checks, and the three outcomes |
| GateScript.Machine.Run | scripts/gate.sh:71-618 | the script from top to bottom visits exactly the disks, and exits with exactly the status, of the run the theorems are about |
| EnvironmentFile.NameValue | scripts/lib/environment.sh:65-67 | what is read as an assignment is a proper name, an equals sign and the rest |
| EnvironmentFile.AfterIsTheFirstOccurrence | scripts/lib/environment.sh:73-75 | the trim cuts at the first occurrence, and fails only when there is none |
| EnvironmentFile.OnlyItsOwnName | scripts/lib/environment.sh:73-74 | no name is a false match for another |
| EnvironmentFile.TheStringIsTheTable | scripts/lib/environment.sh:50-82 | the substring test succeeds exactly for names in the table, and the two trims recover exactly that line's number |
| EnvironmentFile.EncodingOneMore | scripts/lib/environment.sh:82 | appending to the string is adding to the table |
| EnvironmentFile.Environment.ReadEnvironmentFile | scripts/lib/environment.sh:46-94 | the loop over the one string leaves the environment and the complaints of the reading with a plain table |
| EnvironmentFile.WhatANameIs | scripts/lib/environment.sh:65 | letters, digits and underscores, and no digit first |
| EnvironmentFile.ALineIsReadAsWritten | scripts/lib/environment.sh:57-67 | a line is read as an assignment exactly when it is one: blanks, an optional export, NAME=text, an optional carriage return |
| EnvironmentFile.AnIgnorableLineDoesNothing | scripts/lib/environment.sh:58-63 | a blank line or a comment changes neither the environment nor the complaints |
| EnvironmentFile.WhatIsNoAssignmentIsComplainedOf | scripts/lib/environment.sh:68-71 | any other line that is no assignment is complained of by its number and does nothing |
| EnvironmentFile.ASecondAssignmentIsRefused | scripts/lib/environment.sh:73-81 | a name's second assignment is refused with the numbers of both lines |
| EnvironmentFile.AFirstAssignmentIsTaken | scripts/lib/environment.sh:82-92 | a name's first assignment is taken exactly when nobody has set it and it is not the reader's own, without one layer of matching quotes |
| EnvironmentFile.ALineSaysWhatItSays | scripts/lib/environment.sh:84-92 | NAME=text gives the text as it is when it has no enclosing quotes or mismatched ones, and without them when they match |
| EnvironmentFile.WhatAFileMeans | scripts/lib/environment.sh:21-41 | a name nobody has set has the value of the first line that writes it, and any other name is as it was |
| EnvironmentFile.ANumberIsWrittenInDecimal | scripts/lib/environment.sh:82 | the numbers kept in the string are the lines' numbers in decimal |
| EnvironmentFile.ReadingMeans | scripts/lib/environment.sh:21-41 | every name has the caller's value if set, even to nothing, else the first accepted assignment without its quotes, except the reader's own names |
| EnvironmentFile.OwnNamesAreNeverAssigned | scripts/lib/environment.sh:47-54 | an unset name gets the file's value exactly unless it is one of the reader's own |
| EnvironmentFile.ReadingTwiceIsReadingBoth | scripts/lib/environment.sh:55-93 | reading is idempotent, and reading two files is reading the lines of both |
| EnvironmentFile.AQuotedLineReadsBack | scripts/lib/environment.sh:57-87 | any value written in quotes for a proper name reads back as it was, with or without blanks, export and a carriage return |
| OpenPackages.AbsentOpenPackage | tests/open_packages.py:117-134 | on every heap, circular or not: the first open package named on the followed chain, and none exactly when no such exception is on it |
| OpenPackages.TheChainStaysIn | tests/open_packages.py:128-133 | what the walk has seen holds the whole chain once the walk meets itself |

## Left out

- The daemon, the published boundary and client, grants, the socket and peer credentials: not in this repository; they are the arbitrary authority of layer 1 and the assumed plane of layer 2.
- The framework's internals, checkpoint storage, and concurrent threads sharing one stamp dictionary. The framework's limit on nodes per invocation is a parameter.
- A second start on a used thread, a resume of a thread that has not halted, and anything across processes.
- The outcome records, their sinks (`also_record_into`, `_fan_out`) and the event stream: they carry no decision.
- `wait_for_a_person`: polling, on which nothing here depends.
- The HTTP model transport and the normalisation of what a server sends.
- Prose: a correction and a tool's result are modelled by their parts rather than by their sentences, and the execution time in an artefact is not modelled.
- Acts.Value: a Python value other than text, a list of names or nothing is known by its text, its truth and whether the wire carries it; the list's text is Python's for names without quotes or backslashes.
- The file-name test (a regular expression after taking the last path component) is an arbitrary function.
- Graph.MissingIsWhatWasNotAttempted: states which acts are outstanding; their order is `Graph.MissingIsInOrder`.
- `uv`, `git`, `pytest` and the linters themselves: each succeeds or fails with a status. Writing or removing a record file succeeds, and making an environment happens or does not.
- GateProofs.EveryRecordIsTrue: takes the removal of one distribution as one command, so a half-removed one counts as removed.
- GateOutcomes.BareRunsRemoveNothing: assumes that a failed install resolved nothing and that an install already satisfied succeeds, as the script's comments do; `GateOutcomes.APlainRunKeepsBothExactlyWhen` assumes neither. A plain run killed inside a bracket leaves that environment unrecorded, which is the case the latter decides.
- EnvironmentFile.Environment.ReadEnvironmentFile: character classes are those of the C locale, and names the shell itself refuses to assign count as set by the caller.
- The rest of `tests/open_packages.py`, the guard tests over the repository's text, the release and sign-off scripts, and the scripts that start and reset the demonstration.
