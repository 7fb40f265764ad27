/**
 The four acts and the files they leave (`tools.py`), and the stamp a governed body reads
 the decision it runs under from (`governance_stamp.py`).
 */
module Tools {
  import opened Options
  import opened Acts

  datatype Governance = Governance(capability: string, decisionRef: Option<string>)

  datatype Artefact =
    | MessageFile(recipient: string, subject: string, body: string, governance: Governance)
    | UploadFile(destination: string, filename: string, governance: Governance)

  /** The two directories the tools write below. */
  datatype Files = Files(reports: map<string, string>, outbox: map<string, Artefact>)

  const NO_FILES := Files(map[], map[])

  function Reference(g: Governance): string {
    if g.decisionRef.Some? && g.decisionRef.value != "" then g.decisionRef.value else "no-decision"
  }

  function MessageName(reference: string): string { "message-" + reference + ".json" }

  function UploadName(reference: string): string { "upload-" + reference + ".json" }

  lemma ArtefactNamesTellReferencesApart(r1: string, r2: string)
    ensures MessageName(r1) == MessageName(r2) ==> r1 == r2
    ensures UploadName(r1) == UploadName(r2) ==> r1 == r2
    ensures MessageName(r1) != UploadName(r2)
  {
    assert MessageName(r1)[0] == 'm' && UploadName(r2)[0] == 'u';
    if MessageName(r1) == MessageName(r2) {
      assert r1 == MessageName(r1)[8..|MessageName(r1)| - 5];
      assert r2 == MessageName(r2)[8..|MessageName(r2)| - 5];
    }
    if UploadName(r1) == UploadName(r2) {
      assert r1 == UploadName(r1)[7..|UploadName(r1)| - 5];
      assert r2 == UploadName(r2)[7..|UploadName(r2)| - 5];
    }
  }

  // -- What each act does -------------------------------------------------------

  /** The name a body uses when the act names no file. The two nodes disagree. */
  function DefaultName(t: Tool): string {
    if t == Upload then "payload.bin" else REPORT_FILENAME
  }

  function UsedName(t: Tool, r: Resolved): string {
    Shown(Or(Field(r, "filename"), DefaultName(t)))
  }

  function ReadEffect(c: Setting): Outcome {
    if c.corpus == [] then Refused(EmptyCorpus) else CorpusText(c.corpus)
  }

  function WriteEffect(c: Setting, r: Resolved, f: Files): (Files, Outcome) {
    var content := Shown(Field(r, "content"));
    match c.checked(UsedName(Write, r))
    case None => (f, Refused(BadName(UsedName(Write, r))))
    case Some(name) =>
      if Strip(content) == "" then (f, Refused(NoReport))
      else (f.(reports := f.reports[name := content]), Saved(name, |content|))
  }

  function SendEffect(r: Resolved, g: Governance, f: Files): (Files, Outcome) {
    var recipient := Strip(Shown(Field(r, "recipient")));
    if recipient == "" || '@' !in recipient then (f, Refused(NotAnAddress(recipient)))
    else
      var message := MessageFile(recipient, Strip(Shown(Field(r, "subject"))), Shown(Field(r, "body")), g);
      (f.(outbox := f.outbox[MessageName(Reference(g)) := message]), Delivered(recipient))
  }

  function UploadEffect(c: Setting, r: Resolved, g: Governance, f: Files): (Files, Outcome) {
    var destination := Strip(Shown(Field(r, "destination")));
    match c.checked(UsedName(Upload, r))
    case None => (f, Refused(BadName(UsedName(Upload, r))))
    case Some(name) =>
      (f.(outbox := f.outbox[UploadName(Reference(g)) := UploadFile(destination, name, g)]), Uploaded(name, destination))
  }

  /** The one act of a node, on resolved arguments, under the stamp it was given. */
  function Perform(c: Setting, t: Tool, r: Resolved, g: Governance, f: Files): (Files, Outcome) {
    match t
    case Read => (f, ReadEffect(c))
    case Write => WriteEffect(c, r, f)
    case Send => SendEffect(r, g, f)
    case Upload => UploadEffect(c, r, g, f)
  }

  // -- The stamp ----------------------------------------------------------------

  /** `last_authorisation`, as a function of the decisions on record */
  function LastAuthorisation(last: map<string, string>, t: Tool): Governance {
    Governance(Capability(t), if Capability(t) in last then Some(last[Capability(t)]) else None)
  }

  /** The module-level dictionary of the decision each capability's act runs under. */
  class Stamp {
    var last: map<string, string>

    constructor ()
      ensures last == map[]
    {
      last := map[];
    }

    method Record(capability: string, decisionRef: string)
      modifies this
      ensures last == old(last)[capability := decisionRef]
    {
      last := last[capability := decisionRef];
    }

    method Authorisation(t: Tool) returns (g: Governance)
      ensures g == LastAuthorisation(last, t)
    {
      g := Governance(Capability(t), None);
      if Capability(t) in last {
        g := g.(decisionRef := Some(last[Capability(t)]));
      }
    }
  }

  // -- The files, written in place ----------------------------------------------

  class Workspace {
    var reports: map<string, string>
    var outbox: map<string, Artefact>

    constructor ()
      ensures Contents() == NO_FILES
    {
      reports, outbox := map[], map[];
    }

    function Contents(): Files
      reads this
    {
      Files(reports, outbox)
    }

    method WriteInternalReport(c: Setting, r: Resolved) returns (o: Outcome)
      modifies this
      ensures (Contents(), o) == WriteEffect(c, r, old(Contents()))
    {
      var name := c.checked(UsedName(Write, r));
      if name.None? { return Refused(BadName(UsedName(Write, r))); }
      var content := Shown(Field(r, "content"));
      if Strip(content) == "" { return Refused(NoReport); }
      reports := reports[name.value := content];
      o := Saved(name.value, |content|);
    }

    method SendExternalEmail(r: Resolved, g: Governance) returns (o: Outcome)
      modifies this
      ensures (Contents(), o) == SendEffect(r, g, old(Contents()))
    {
      var recipient := Strip(Shown(Field(r, "recipient")));
      if recipient == "" || '@' !in recipient { return Refused(NotAnAddress(recipient)); }
      var subject := Strip(Shown(Field(r, "subject")));
      outbox := outbox[MessageName(Reference(g)) := MessageFile(recipient, subject, Shown(Field(r, "body")), g)];
      o := Delivered(recipient);
    }

    method UploadExternal(c: Setting, r: Resolved, g: Governance) returns (o: Outcome)
      modifies this
      ensures (Contents(), o) == UploadEffect(c, r, g, old(Contents()))
    {
      var destination := Strip(Shown(Field(r, "destination")));
      var name := c.checked(UsedName(Upload, r));
      if name.None? { return Refused(BadName(UsedName(Upload, r))); }
      outbox := outbox[UploadName(Reference(g)) := UploadFile(destination, name.value, g)];
      o := Uploaded(name.value, destination);
    }

    /** The body of a tool node: whichever act the node is registered with. */
    method Execute(c: Setting, t: Tool, r: Resolved, stamp: Stamp) returns (o: Outcome)
      modifies this
      ensures (Contents(), o) == Perform(c, t, r, LastAuthorisation(stamp.last, t), old(Contents()))
    {
      match t {
        case Read => o := ReadEffect(c);
        case Write => o := WriteInternalReport(c, r);
        case Send =>
          var g := stamp.Authorisation(Send);
          o := SendExternalEmail(r, g);
        case Upload =>
          var g := stamp.Authorisation(Upload);
          o := UploadExternal(c, r, g);
      }
    }
  }
}

/** The binding determines the effect, and exactly when a file name is the bound one. */
module Bindings {
  import opened Options
  import opened Acts
  import opened Tools

  /** The file name a reader of the binding would expect the body to use. */
  function BoundName(t: Tool, bound: string): string {
    if bound == "" then DefaultName(t) else bound
  }

  /** The name is truthy exactly when its text is not empty. */
  predicate PlainName(v: Value) {
    Truthy(v) <==> Shown(v) != ""
  }

  /** Equal send bindings have equal effects, whatever either pending act calls its tool. */
  lemma EqualSendBindingsSendTheSameMessage(c: Setting, s1: State, s2: State, g: Governance, f: Files)
    requires Injective(c.digest)
    requires Bind(c, Send, s1).Some? && Bind(c, Send, s1) == Bind(c, Send, s2)
    ensures SendEffect(Resolve(c, s1), g, f) == SendEffect(Resolve(c, s2), g, f)
  {
    var body1, body2 := Shown(Field(Resolve(c, s1), "body")), Shown(Field(Resolve(c, s2), "body"));
    assert c.digest(body1) == c.digest(body2);
  }

  lemma EqualPlainBindingsHaveEqualEffects(c: Setting, t: Tool, s1: State, s2: State, g: Governance, f: Files)
    requires Injective(c.digest)
    requires t == Write || t == Upload
    requires Bind(c, t, s1).Some? && Bind(c, t, s1) == Bind(c, t, s2)
    requires PlainName(Field(Resolve(c, s1), "filename")) && PlainName(Field(Resolve(c, s2), "filename"))
    ensures Perform(c, t, Resolve(c, s1), g, f) == Perform(c, t, Resolve(c, s2), g, f)
  {
    UsedNameIsTheBoundNameExactlyWhen(t, Resolve(c, s1));
    UsedNameIsTheBoundNameExactlyWhen(t, Resolve(c, s2));
    if t == Write {
      var content1, content2 := Shown(Field(Resolve(c, s1), "content")), Shown(Field(Resolve(c, s2), "content"));
      assert c.digest(content1) == c.digest(content2);
    }
  }

  /** The binding determines the effect of every act at its own node. */
  lemma EqualBindingsHaveEqualEffects(c: Setting, t: Tool, s1: State, s2: State, g: Governance, f: Files)
    requires Injective(c.digest)
    requires s1.pending.Some? && s1.pending.value.tool == ToolName(t)
    requires s2.pending.Some? && s2.pending.value.tool == ToolName(t)
    requires Bind(c, t, s1) == Bind(c, t, s2)
    ensures Perform(c, t, Resolve(c, s1), g, f) == Perform(c, t, Resolve(c, s2), g, f)
  {
    ProposedActsAreBound(c, t, s1);
    match t
    case Read =>
    case Send => EqualSendBindingsSendTheSameMessage(c, s1, s2, g, f);
    case _ =>
      OwnActsHavePlainNames(c, t, s1);
      OwnActsHavePlainNames(c, t, s2);
      EqualPlainBindingsHaveEqualEffects(c, t, s1, s2, g, f);
  }

  /** An act that reaches its own node always has a plain name. */
  lemma OwnActsHavePlainNames(c: Setting, t: Tool, s: State)
    requires s.pending.Some? && s.pending.value.tool == ToolName(t)
    ensures PlainName(Field(Resolve(c, s), "filename"))
  {
    ProposedActsAreBound(c, t, s);
  }

  /** The body uses the bound name, with its own default for a blank one, exactly when the
      value is plain, or falsy and spelled like the default. */
  lemma UsedNameIsTheBoundNameExactlyWhen(t: Tool, r: Resolved)
    ensures var v := Field(r, "filename");
            UsedName(t, r) == BoundName(t, Shown(v)) <==>
            PlainName(v) || (!Truthy(v) && Shown(v) == DefaultName(t))
  {
    assert DefaultName(t) != "" by {
      assert |"payload.bin"| == 11 && |REPORT_FILENAME| == 18;
    }
  }

  /** An act no tool bears the name of, with this file name and this text. */
  function Substituted(filename: Value): Pending {
    Pending("", "", map["filename" := filename, "content" := Text("x")], 1)
  }

  /** A substituted act with a name of nothing: the binding says « None », the body saves
      under the default, and an act that really names « None » has the same binding. */
  lemma ASubstitutedNullNameIsNotTheBoundName(c: Setting, s: State, f: Files)
    requires c.checked("None") == Some("None") && c.checked(REPORT_FILENAME) == Some(REPORT_FILENAME)
    ensures var s1, s2 := s.(pending := Some(Substituted(Null))), s.(pending := Some(Substituted(Text("None"))));
            && Bind(c, Write, s1).Some? && Bind(c, Write, s1) == Bind(c, Write, s2)
            && WriteEffect(c, Resolve(c, s1), f).0.reports == f.reports[REPORT_FILENAME := "x"]
            && WriteEffect(c, Resolve(c, s2), f).0.reports == f.reports["None" := "x"]
  {
    var s1, s2 := s.(pending := Some(Substituted(Null))), s.(pending := Some(Substituted(Text("None"))));
    var r1, r2 := Resolve(c, s1), Resolve(c, s2);
    assert Field(r1, "filename") == Null && Field(r2, "filename") == Text("None");
    assert Field(r1, "content") == Text("x") && Field(r2, "content") == Text("x");
    assert UsedName(Write, r1) == REPORT_FILENAME && UsedName(Write, r2) == "None";
    assert Strip("x") == "x";
    assert Bind(c, Write, s1) == Bind(c, Write, s2);
  }
}
