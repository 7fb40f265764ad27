/**
 Reading the configuration file (`scripts/lib/environment.sh`): a loop over lines that keeps
 the names it has assigned in ONE string, and looks them up by substring.
 */
module EnvironmentFile {
  import opened Options

  // -- One line -----------------------------------------------------------------

  /** `[[:space:]]` */
  predicate IsBlank(c: char) {
    c == ' ' || 9 <= c as int <= 13
  }

  predicate IsNameStart(c: char) {
    'A' <= c <= 'Z' || 'a' <= c <= 'z' || c == '_'
  }

  predicate IsNameChar(c: char) {
    IsNameStart(c) || '0' <= c <= '9'
  }

  predicate IsName(s: string) {
    s != "" && IsNameStart(s[0]) && forall i :: 0 <= i < |s| ==> IsNameChar(s[i])
  }

  /** A name is letters, digits and underscores, and does not begin with a digit. */
  lemma WhatANameIs(s: string)
    ensures IsName(s) <==>
            && s != "" && !('0' <= s[0] <= '9')
            && forall i :: 0 <= i < |s| ==> 'a' <= s[i] <= 'z' || 'A' <= s[i] <= 'Z' || '0' <= s[i] <= '9' || s[i] == '_'
  {
  }

  function DropReturn(s: string): string {
    if s != "" && s[|s| - 1] == '\r' then s[..|s| - 1] else s
  }

  function SkipBlanks(s: string): string {
    if s != "" && IsBlank(s[0]) then SkipBlanks(s[1..]) else s
  }

  function TakeName(s: string): (name: string)
    ensures name <= s
    ensures forall i :: 0 <= i < |name| ==> IsNameChar(name[i])
  {
    if s != "" && IsNameChar(s[0]) then [s[0]] + TakeName(s[1..]) else ""
  }

  /** `value` still carries its quotes. */
  datatype Line = Skipped | NotAnAssignment | Assigns(name: string, value: string)

  /** `NAME=value` from the front of `s` */
  function NameValue(s: string): (l: Line)
    ensures l.Assigns? ==> IsName(l.name) && s == l.name + "=" + l.value
  {
    var name := TakeName(s);
    if IsName(name) && |name| < |s| && s[|name|] == '=' then Assigns(name, s[|name| + 1..]) else NotAnAssignment
  }

  /** The optional `export` and its blanks, taken off when what is left is an assignment. */
  function Assignment(s: string): Line {
    if "export" <= s && |s| > 6 && IsBlank(s[6]) && NameValue(SkipBlanks(s[6..])).Assigns?
    then NameValue(SkipBlanks(s[6..]))
    else NameValue(s)
  }

  function Classify(line: string): Line {
    var s := SkipBlanks(DropReturn(line));
    if s == "" || s[0] == '#' then Skipped else Assignment(s)
  }

  /** One layer of matching quotes, removed. */
  function Unquote(v: string): string {
    if |v| >= 2 && v[0] == v[|v| - 1] && (v[0] == '"' || v[0] == '\'') then v[1..|v| - 1] else v
  }

  // -- The whole file -----------------------------------------------------------

  datatype Entry = Entry(name: string, line: nat)

  datatype Complaint = NotRead(line: nat) | AssignedTwice(name: string, earlier: string, line: nat)

  datatype Reading = Reading(number: nat, table: seq<Entry>, env: map<string, string>, complaints: seq<Complaint>)

  /** The reader's own local variables. A setting of one of these names is hidden by the local
      and never reaches the environment. */
  const OWN_NAMES: set<string> := {"file", "line", "name", "value", "number", "assigned", "earlier"}

  function LineOf(table: seq<Entry>, name: string): Option<nat> {
    if table == [] then None
    else if table[0].name == name then Some(table[0].line)
    else LineOf(table[1..], name)
  }

  function Decimal(n: nat): string {
    if n < 10 then ["0123456789"[n]] else Decimal(n / 10) + ["0123456789"[n % 10]]
  }

  /** One line taken, with the names assigned so far in a plain table. */
  function Take(r: Reading, l: Line): Reading {
    var number := r.number + 1;
    match l
    case Skipped => r.(number := number)
    case NotAnAssignment => r.(number := number, complaints := r.complaints + [NotRead(number)])
    case Assigns(name, value) =>
      match LineOf(r.table, name)
      case Some(earlier) =>
        r.(number := number, complaints := r.complaints + [AssignedTwice(name, Decimal(earlier), number)])
      case None =>
        r.(number := number,
           table := r.table + [Entry(name, number)],
           env := if name in r.env || name in OWN_NAMES then r.env else r.env[name := Unquote(value)])
  }

  function ReadLine(r: Reading, line: string): Reading {
    Take(r, Classify(line))
  }

  function ReadLines(r: Reading, lines: seq<string>): Reading {
    if lines == [] then r
    else ReadLine(ReadLines(r, lines[..|lines| - 1]), lines[|lines| - 1])
  }

  /** What reading a file makes of an environment. A file that is not there changes nothing. */
  function Read(env: map<string, string>, file: Option<seq<string>>): Reading {
    var start := Reading(0, [], env, []);
    match file
    case None => start
    case Some(lines) => ReadLines(start, lines)
  }

  // -- The table in one string --------------------------------------------------

  function Encoded(table: seq<Entry>): string {
    if table == [] then " "
    else " " + table[0].name + "=" + Decimal(table[0].line) + Encoded(table[1..])
  }

  /** `${s#*p}`, and nothing when `p` does not occur: what follows its first occurrence. */
  function After(s: string, p: string): Option<string> {
    if p <= s then Some(s[|p|..])
    else if s == "" then None
    else After(s[1..], p)
  }

  /** `${s%% *}` */
  function BeforeSpace(s: string): string {
    if s == "" || s[0] == ' ' then "" else [s[0]] + BeforeSpace(s[1..])
  }

  predicate NoSpaceNorEquals(s: string) {
    forall i :: 0 <= i < |s| ==> s[i] != ' ' && s[i] != '='
  }

  predicate NamesAre(table: seq<Entry>) {
    forall i :: 0 <= i < |table| ==> NoSpaceNorEquals(table[i].name)
  }

  /** `After` is what it says: the least occurrence, and none only when there is none. */
  lemma {:induction false} AfterIsTheFirstOccurrence(s: string, p: string)
    ensures After(s, p).None? ==> forall i :: 0 <= i <= |s| ==> !(p <= s[i..])
    ensures After(s, p).Some? ==> exists i ::
              0 <= i <= |s| && p <= s[i..] && After(s, p).value == s[i..][|p|..] && forall j :: 0 <= j < i ==> !(p <= s[j..])
  {
    if p <= s {
      assert s[0..] == s;
    } else if s != "" {
      AfterIsTheFirstOccurrence(s[1..], p);
      assert forall i :: 0 <= i <= |s[1..]| ==> s[1..][i..] == s[i + 1..];
      assert s[0..] == s;
      if After(s, p).Some? {
        var i :| 0 <= i <= |s[1..]| && p <= s[1..][i..] && After(s, p).value == s[1..][i..][|p|..]
                 && forall j :: 0 <= j < i ==> !(p <= s[1..][j..]);
        forall j | 0 <= j < i + 1 ensures !(p <= s[j..]) {
          if j > 0 { assert s[j..] == s[1..][j - 1..]; }
        }
        assert s[i + 1..] == s[1..][i..];
      } else {
        forall i | 0 <= i <= |s| ensures !(p <= s[i..]) {
          if i > 0 { assert s[i..] == s[1..][i - 1..]; }
        }
      }
    }
  }

  lemma {:induction false} DigitsAreNeither(n: nat)
    ensures NoSpaceNorEquals(Decimal(n)) && Decimal(n) != ""
  {
    if n >= 10 { DigitsAreNeither(n / 10); }
  }

  /** A stretch without spaces holds no occurrence of what begins with one. */
  lemma {:induction false} NoOccurrenceInside(u: string, s: string, p: string)
    requires p != "" && p[0] == ' ' && forall i :: 0 <= i < |u| ==> u[i] != ' '
    ensures After(u + s, p) == After(s, p)
  {
    if u == "" {
      assert u + s == s;
    } else {
      assert (u + s)[0] == u[0];
      assert (u + s)[1..] == u[1..] + s;
      NoOccurrenceInside(u[1..], s, p);
    }
  }

  lemma {:induction false} BeforeTheSpace(u: string, s: string)
    requires s != "" && s[0] == ' ' && forall i :: 0 <= i < |u| ==> u[i] != ' '
    ensures BeforeSpace(u + s) == u
  {
    if u == "" {
      assert u + s == s;
    } else {
      assert (u + s)[1..] == u[1..] + s && (u + s)[0] == u[0];
      BeforeTheSpace(u[1..], s);
    }
  }

  /** A name with its equals sign begins an entry exactly when it is the entry's own name. */
  lemma OnlyItsOwnName(n: string, m: string, rest: string)
    requires NoSpaceNorEquals(n) && NoSpaceNorEquals(m)
    ensures " " + n + "=" <= " " + m + "=" + rest <==> n == m
  {
    var p, s := " " + n + "=", " " + m + "=" + rest;
    assert p[|n| + 1] == '=' && s[|m| + 1] == '=';
    if p <= s {
      assert s[|n| + 1] == '=' && |n| == |m|;
      assert n == p[1..|n| + 1] == s[1..|m| + 1] == m;
    }
  }

  /** The substring test for « NAME= » succeeds exactly when the name is in the table, and the
      two trims recover exactly its line's number. */
  lemma {:induction false} TheStringIsTheTable(table: seq<Entry>, name: string)
    requires NamesAre(table) && NoSpaceNorEquals(name)
    ensures var found := After(Encoded(table), " " + name + "=");
            && (found.Some? <==> LineOf(table, name).Some?)
            && (found.Some? ==> BeforeSpace(found.value) == Decimal(LineOf(table, name).value))
  {
    var p := " " + name + "=";
    if table == [] {
      assert |" "| < |p|;
      assert After(" "[1..], p).None?;
    } else {
      var m, digits, rest := table[0].name, Decimal(table[0].line), Encoded(table[1..]);
      DigitsAreNeither(table[0].line);
      var s := Encoded(table);
      assert s == " " + m + "=" + (digits + rest);
      OnlyItsOwnName(name, m, digits + rest);
      if name == m {
        assert s[|p|..] == digits + rest;
        BeforeTheSpace(digits, rest);
      } else {
        var u := m + "=" + digits;
        assert s[1..] == u + rest;
        NoOccurrenceInside(u, rest, p);
        TheStringIsTheTable(table[1..], name);
      }
    }
  }

  lemma {:induction false} EncodingOneMore(table: seq<Entry>, e: Entry)
    ensures Encoded(table + [e]) == Encoded(table) + e.name + "=" + Decimal(e.line) + " "
  {
    if table == [] {
      assert table + [e] == [e];
      assert Encoded([e][1..]) == " ";
    } else {
      var head, rest := " " + table[0].name + "=" + Decimal(table[0].line), Encoded(table[1..]);
      assert (table + [e])[1..] == table[1..] + [e];
      EncodingOneMore(table[1..], e);
      Regrouped(head, rest, e.name, Decimal(e.line));
    }
  }

  lemma Regrouped(head: string, rest: string, name: string, digits: string)
    ensures head + (rest + name + "=" + digits + " ") == head + rest + name + "=" + digits + " "
  {
  }

  lemma OneLineMore(start: Reading, lines: seq<string>, number: nat)
    requires number < |lines|
    ensures ReadLines(start, lines[..number + 1]) == Take(ReadLines(start, lines[..number]), Classify(lines[number]))
  {
    assert lines[..number + 1][..number] == lines[..number];
  }

  // -- The reader, in place -----------------------------------------------------

  class Environment {
    var variables: map<string, string>

    constructor (variables: map<string, string>)
      ensures this.variables == variables
    {
      this.variables := variables;
    }

    method ReadEnvironmentFile(file: Option<seq<string>>) returns (complaints: seq<Complaint>)
      modifies this
      ensures variables == Read(old(variables), file).env
      ensures complaints == Read(old(variables), file).complaints
    {
      complaints := [];
      if file.None? { return; }
      var lines := file.value;
      ghost var start := Reading(0, [], variables, []);
      ghost var table: seq<Entry> := [];
      var number, entries := 0, " ";
      while number < |lines|
        invariant 0 <= number <= |lines| && NamesAre(table) && entries == Encoded(table)
        invariant Reading(number, table, variables, complaints) == ReadLines(start, lines[..number])
      {
        OneLineMore(start, lines, number);
        var line := Classify(lines[number]);
        ClassifiedNames(lines[number]);
        number := number + 1;
        match line {
          case Skipped =>
          case NotAnAssignment => complaints := complaints + [NotRead(number)];
          case Assigns(name, value) =>
            TheStringIsTheTable(table, name);
            var found := After(entries, " " + name + "=");
            if found.Some? {
              complaints := complaints + [AssignedTwice(name, BeforeSpace(found.value), number)];
            } else {
              EncodingOneMore(table, Entry(name, number));
              entries := entries + name + "=" + Decimal(number) + " ";
              table := table + [Entry(name, number)];
              if name !in variables && name !in OWN_NAMES {
                variables := variables[name := Unquote(value)];
              }
            }
        }
      }
      assert lines[..number] == lines;
    }
  }

  lemma ClassifiedNames(line: string)
    ensures Classify(line).Assigns? ==> IsName(Classify(line).name) && NoSpaceNorEquals(Classify(line).name)
  {
  }

  // -- What reading means -------------------------------------------------------

  /** What one line assigns to a name. */
  function Assigned(l: Line, name: string): Option<string> {
    if l.Assigns? && l.name == name then Some(Unquote(l.value)) else None
  }

  /** The first accepted assignment of a name, without its quotes. */
  function FirstAssigned(lines: seq<string>, name: string): Option<string> {
    if lines == [] then None
    else
      var first := Assigned(Classify(lines[0]), name);
      if first.Some? then first else FirstAssigned(lines[1..], name)
  }

  function Lookup(env: map<string, string>, name: string): Option<string> {
    if name in env then Some(env[name]) else None
  }

  /** What a name should be after reading: the caller's value, else the file's first. */
  function Meaning(env: map<string, string>, lines: seq<string>, name: string): Option<string> {
    if name in env then Some(env[name])
    else if name in OWN_NAMES then None
    else FirstAssigned(lines, name)
  }

  lemma {:induction false} FirstOfBoth(a: seq<string>, b: seq<string>, name: string)
    ensures FirstAssigned(a + b, name) ==
            if FirstAssigned(a, name).Some? then FirstAssigned(a, name) else FirstAssigned(b, name)
  {
    if a == [] {
      assert a + b == b;
    } else {
      assert (a + b)[1..] == a[1..] + b;
      FirstOfBoth(a[1..], b, name);
    }
  }

  lemma {:induction false} LineOfOneMore(table: seq<Entry>, e: Entry, name: string)
    ensures LineOf(table + [e], name) ==
            if LineOf(table, name).Some? then LineOf(table, name) else if e.name == name then Some(e.line) else None
  {
    if table == [] {
      assert table + [e] == [e];
      assert [e][1..] == [];
    } else {
      assert (table + [e])[1..] == table[1..] + [e];
      LineOfOneMore(table[1..], e, name);
    }
  }

  /** What is true of the names of a reading: which are assigned, and to what. */
  predicate NameMeans(r: Reading, env: map<string, string>, lines: seq<string>, name: string) {
    && Lookup(r.env, name) == Meaning(env, lines, name)
    && (LineOf(r.table, name).Some? <==> FirstAssigned(lines, name).Some?)
  }

  /** Taking line `l`, when it is the last of `all` and `lines` are the others. */
  lemma TakingALineMeans(r: Reading, env: map<string, string>, lines: seq<string>, all: seq<string>, l: Line, name: string)
    requires NameMeans(r, env, lines, name)
    requires FirstAssigned(all, name) ==
             if FirstAssigned(lines, name).Some? then FirstAssigned(lines, name) else Assigned(l, name)
    ensures NameMeans(Take(r, l), env, all, name)
  {
    if l.Assigns? {
      LineOfOneMore(r.table, Entry(l.name, r.number + 1), name);
    }
  }

  lemma OneMoreLineMeans(r: Reading, env: map<string, string>, lines: seq<string>, line: string, name: string)
    requires NameMeans(r, env, lines, name)
    ensures NameMeans(ReadLine(r, line), env, lines + [line], name)
  {
    var l := Classify(line);
    FirstOfBoth(lines, [line], name);
    assert FirstAssigned([line], name) == Assigned(l, name) by { assert [line][1..] == []; }
    TakingALineMeans(r, env, lines, lines + [line], l, name);
  }

  /** Every name means the caller's value if it is set, even to nothing, else the file's first
      accepted assignment of it, except for the reader's own names; and a name is in the table
      exactly when the file has assigned it. */
  lemma {:induction false} ReadingMeans(env: map<string, string>, lines: seq<string>, name: string)
    ensures NameMeans(Read(env, Some(lines)), env, lines, name)
  {
    if lines != [] {
      var before, last := lines[..|lines| - 1], lines[|lines| - 1];
      ReadingMeans(env, before, name);
      OneMoreLineMeans(Read(env, Some(before)), env, before, last, name);
      assert lines == before + [last];
    }
  }

  /** A file's first assignment of an unset name is what the name becomes, exactly unless it
      is one of the reader's own. */
  lemma OwnNamesAreNeverAssigned(env: map<string, string>, lines: seq<string>, name: string)
    requires name !in env && FirstAssigned(lines, name).Some?
    ensures Lookup(Read(env, Some(lines)).env, name) == FirstAssigned(lines, name) <==> name !in OWN_NAMES
  {
    ReadingMeans(env, lines, name);
  }

  lemma SameLookups(a: map<string, string>, b: map<string, string>)
    requires forall name :: Lookup(a, name) == Lookup(b, name)
    ensures a == b
  {
    forall name ensures name in a <==> name in b {
      assert Lookup(a, name) == Lookup(b, name);
    }
    forall name | name in a ensures a[name] == b[name] {
      assert Lookup(a, name) == Lookup(b, name);
    }
  }

  /** Reading one file and then another is reading the lines of both; reading a file again
      changes nothing. */
  lemma ReadingTwiceIsReadingBoth(env: map<string, string>, f1: seq<string>, f2: seq<string>)
    ensures Read(Read(env, Some(f1)).env, Some(f2)).env == Read(env, Some(f1 + f2)).env
    ensures Read(Read(env, Some(f1)).env, Some(f1)).env == Read(env, Some(f1)).env
  {
    var once := Read(env, Some(f1)).env;
    forall name ensures Lookup(Read(once, Some(f2)).env, name) == Lookup(Read(env, Some(f1 + f2)).env, name) {
      ReadingMeans(env, f1, name);
      ReadingMeans(once, f2, name);
      ReadingMeans(env, f1 + f2, name);
      FirstOfBoth(f1, f2, name);
    }
    SameLookups(Read(once, Some(f2)).env, Read(env, Some(f1 + f2)).env);
    forall name ensures Lookup(Read(once, Some(f1)).env, name) == Lookup(once, name) {
      ReadingMeans(env, f1, name);
      ReadingMeans(once, f1, name);
    }
    SameLookups(Read(once, Some(f1)).env, once);
  }

  // -- A line written for the reader --------------------------------------------

  lemma {:induction false} TakingAName(name: string, rest: string)
    requires forall i :: 0 <= i < |name| ==> IsNameChar(name[i])
    requires rest != "" && !IsNameChar(rest[0])
    ensures TakeName(name + rest) == name
  {
    if name == "" {
      assert name + rest == rest;
    } else {
      assert (name + rest)[0] == name[0] && (name + rest)[1..] == name[1..] + rest;
      TakingAName(name[1..], rest);
    }
  }

  lemma {:induction false} SkippingBlanks(pad: string, s: string)
    requires forall i :: 0 <= i < |pad| ==> IsBlank(pad[i])
    requires s != "" && !IsBlank(s[0])
    ensures SkipBlanks(pad + s) == s
  {
    if pad == "" {
      assert pad + s == s;
    } else {
      assert (pad + s)[0] == pad[0] && (pad + s)[1..] == pad[1..] + s;
      SkippingBlanks(pad[1..], s);
    }
  }

  lemma NameAndValue(name: string, value: string)
    requires IsName(name)
    ensures NameValue(name + "=" + value) == Assigns(name, value)
    ensures Assignment(name + "=" + value) == Assigns(name, value)
  {
    var s := name + "=" + value;
    TakingAName(name, "=" + value);
    assert s == name + ("=" + value);
    assert s[|name|] == '=' && s[|name| + 1..] == value;
    assert !("export" <= s && |s| > 6 && IsBlank(s[6]));
  }

  lemma ALineWithoutItsEnds(pad: string, body: string)
    requires forall i :: 0 <= i < |pad| ==> IsBlank(pad[i])
    requires body != "" && !IsBlank(body[0])
    ensures body[|body| - 1] != '\r' ==> SkipBlanks(DropReturn(pad + body)) == body
    ensures SkipBlanks(DropReturn(pad + body + "\r")) == body
  {
    SkippingBlanks(pad, body);
    assert (pad + body)[|pad + body| - 1] == body[|body| - 1];
    assert (pad + body + "\r")[..|pad + body|] == pad + body;
  }

  lemma AnExportedAssignment(gap: string, name: string, value: string)
    requires IsName(name) && gap != "" && forall i :: 0 <= i < |gap| ==> IsBlank(gap[i])
    ensures Assignment("export" + (gap + (name + "=" + value))) == Assigns(name, value)
  {
    var rest := gap + (name + "=" + value);
    var s := "export" + rest;
    assert s[6..] == rest && s[6] == gap[0];
    SkippingBlanks(gap, name + "=" + value);
    NameAndValue(name, value);
  }

  function Written(name: string, value: string): string {
    name + "=" + ("\"" + value + "\"")
  }

  function Exported(gap: string, assignment: string): string {
    if gap == "" then assignment else "export" + (gap + assignment)
  }

  /** Any value, written in double quotes for a proper name, is read back as it was: with
      blanks before it, with or without `export`, and with or without a carriage return. */
  lemma AQuotedLineReadsBack(pad: string, gap: string, name: string, value: string)
    requires IsName(name)
    requires forall i :: 0 <= i < |pad| ==> IsBlank(pad[i])
    requires forall i :: 0 <= i < |gap| ==> IsBlank(gap[i])
    ensures var line := pad + Exported(gap, Written(name, value));
            && Classify(line).Assigns? && Classify(line).name == name && Unquote(Classify(line).value) == value
            && Classify(line + "\r") == Classify(line)
  {
    var quoted := "\"" + value + "\"";
    var body := Exported(gap, name + "=" + quoted);
    assert body[|body| - 1] == quoted[|quoted| - 1] == '"';
    assert body[0] == if gap == "" then name[0] else 'e';
    ALineWithoutItsEnds(pad, body);
    NameAndValue(name, quoted);
    if gap != "" { AnExportedAssignment(gap, name, quoted); }
    assert quoted[1..|quoted| - 1] == value;
  }

  // -- Exactly what a line is ---------------------------------------------------

  predicate AllBlank(s: string) {
    forall i :: 0 <= i < |s| ==> IsBlank(s[i])
  }

  /** Without a carriage return at its end. */
  predicate Ended(s: string) {
    s == "" || s[|s| - 1] != '\r'
  }

  /** The line is this assignment: with blanks before it, with or without `export`, and with or
      without a carriage return after it. */
  ghost predicate Writes(line: string, name: string, text: string) {
    IsName(name) && exists pad, gap ::
      && AllBlank(pad) && AllBlank(gap)
      && ((line == pad + Exported(gap, name + "=" + text) && Ended(text))
          || line == pad + Exported(gap, name + "=" + text) + "\r")
  }

  /** The line is blank, or its first character that is not blank is a hash sign. */
  ghost predicate Ignorable(line: string) {
    AllBlank(line) || exists i :: 0 <= i < |line| && line[i] == '#' && AllBlank(line[..i])
  }

  /** What skipping blanks leaves begins with the first character that is not one. */
  lemma {:induction false} BlanksAreSkipped(s: string) returns (k: nat)
    ensures k <= |s| && SkipBlanks(s) == s[k..]
    ensures forall i :: 0 <= i < k ==> IsBlank(s[i])
    ensures k < |s| ==> !IsBlank(s[k])
  {
    k := 0;
    if s != "" && IsBlank(s[0]) {
      var rest := s[1..];
      var j := BlanksAreSkipped(rest);
      k := j + 1;
      assert rest[j..] == s[k..];
      assert forall i :: 1 <= i < k ==> s[i] == rest[i - 1];
    }
  }

  lemma {:induction false} AnAssignmentIsWritten(s: string) returns (gap: string)
    requires Assignment(s).Assigns?
    ensures AllBlank(gap) && IsName(Assignment(s).name)
    ensures s == Exported(gap, Assignment(s).name + "=" + Assignment(s).value)
  {
    gap := "";
    if "export" <= s && |s| > 6 && IsBlank(s[6]) && NameValue(SkipBlanks(s[6..])).Assigns? {
      var rest := s[6..];
      var k := BlanksAreSkipped(rest);
      gap := rest[..k];
      assert s == "export" + rest && rest == gap + SkipBlanks(rest);
      assert rest[0] == s[6];
    }
  }

  /** A line is read as an assignment exactly when it is one. */
  lemma ALineIsReadAsWritten(line: string, name: string, text: string)
    ensures Classify(line) == Assigns(name, text) <==> Writes(line, name, text)
  {
    if Classify(line) == Assigns(name, text) { AReadLineIsWritten(line); }
    if Writes(line, name, text) {
      var pad, gap :| && AllBlank(pad) && AllBlank(gap)
                      && ((line == pad + Exported(gap, name + "=" + text) && Ended(text))
                          || line == pad + Exported(gap, name + "=" + text) + "\r");
      AWrittenLineIsRead(pad, gap, name, text);
    }
  }

  lemma AWrittenLineIsRead(pad: string, gap: string, name: string, text: string)
    requires AllBlank(pad) && AllBlank(gap) && IsName(name)
    ensures Ended(text) ==> Classify(pad + Exported(gap, name + "=" + text)) == Assigns(name, text)
    ensures Classify(pad + Exported(gap, name + "=" + text) + "\r") == Assigns(name, text)
  {
    var body := Exported(gap, name + "=" + text);
    assert body[|body| - 1] == if text == "" then '=' else text[|text| - 1];
    assert body[0] == if gap == "" then name[0] else 'e';
    ALineWithoutItsEnds(pad, body);
    NameAndValue(name, text);
    if gap != "" { AnExportedAssignment(gap, name, text); }
  }

  lemma AReadLineIsWritten(line: string)
    requires Classify(line).Assigns?
    ensures Writes(line, Classify(line).name, Classify(line).value)
  {
    var rest := DropReturn(line);
    var k := BlanksAreSkipped(rest);
    var pad := rest[..k];
    var gap := AnAssignmentIsWritten(SkipBlanks(rest));
    assert rest == pad + SkipBlanks(rest);
    assert if line != "" && line[|line| - 1] == '\r' then line == rest + "\r" else line == rest;
    PartsMakeALine(line, rest, pad, gap, Classify(line).name, Classify(line).value);
  }

  lemma PartsMakeALine(line: string, rest: string, pad: string, gap: string, name: string, text: string)
    requires IsName(name) && AllBlank(pad) && AllBlank(gap) && rest == pad + Exported(gap, name + "=" + text)
    requires if line != "" && line[|line| - 1] == '\r' then line == rest + "\r" else line == rest
    ensures Writes(line, name, text)
  {
    var body := Exported(gap, name + "=" + text);
    assert body[|body| - 1] == if text == "" then '=' else text[|text| - 1];
    assert line == rest ==> Ended(text);
  }

  lemma ALineIsSkippedExactlyWhen(line: string)
    ensures Classify(line).Skipped? <==> Ignorable(line)
  {
    var rest := DropReturn(line);
    var k := BlanksAreSkipped(rest);
    assert |line| >= |rest| && forall i :: 0 <= i < |rest| ==> line[i] == rest[i];
    if k == |rest| {
      assert AllBlank(line);
    } else {
      FirstNotBlank(line, k);
    }
  }

  lemma FirstNotBlank(line: string, k: nat)
    requires k < |line| && !IsBlank(line[k]) && forall i :: 0 <= i < k ==> IsBlank(line[i])
    ensures Ignorable(line) <==> line[k] == '#'
  {
    if line[k] == '#' {
      assert AllBlank(line[..k]);
    } else {
      forall i | 0 <= i < |line| && line[i] == '#' ensures !AllBlank(line[..i]) {
        if i > k { assert line[..i][k] == line[k]; }
      }
    }
  }

  // -- What a file does, line by line -------------------------------------------

  ghost predicate WritesAnything(line: string) {
    exists name, text :: Writes(line, name, text)
  }

  /** The value of what is written after the equals sign: without one layer of matching quotes,
      and as it is when it has none. */
  ghost predicate Values(text: string, value: string) {
    if |text| >= 2 && text[0] == text[|text| - 1] && (text[0] == '"' || text[0] == '\'')
    then text == [text[0]] + value + [text[0]] else value == text
  }

  /** Where a name is first written, by its place among the lines. */
  ghost predicate FirstWrittenAt(lines: seq<string>, name: string, i: nat, text: string) {
    i < |lines| && Writes(lines[i], name, text) && forall j, other :: 0 <= j < i ==> !Writes(lines[j], name, other)
  }

  ghost predicate NeverWritten(lines: seq<string>, name: string) {
    forall j, text :: 0 <= j < |lines| ==> !Writes(lines[j], name, text)
  }

  lemma TheValueIsWithoutItsQuotes(text: string)
    ensures Values(text, Unquote(text))
    ensures forall value :: Values(text, value) ==> value == Unquote(text)
  {
    if |text| >= 2 && text[0] == text[|text| - 1] && (text[0] == '"' || text[0] == '\'') {
      assert text == [text[0]] + Unquote(text) + [text[0]];
      forall value | Values(text, value) ensures value == Unquote(text) {
        assert value == text[1..|text| - 1];
      }
    }
  }

  /** The table is of the names written so far, each with the number of its first line. */
  lemma {:induction false} TheTableIsOfFirstLines(env: map<string, string>, lines: seq<string>, name: string)
    ensures var r := Read(env, Some(lines));
            && r.number == |lines|
            && (NeverWritten(lines, name) <==> LineOf(r.table, name).None?)
            && (NeverWritten(lines, name) <==> FirstAssigned(lines, name).None?)
            && forall i: nat, text :: FirstWrittenAt(lines, name, i, text) ==>
                 LineOf(r.table, name) == Some(i + 1) && FirstAssigned(lines, name) == Some(Unquote(text))
  {
    if lines == [] {
    } else {
      var before, last := lines[..|lines| - 1], lines[|lines| - 1];
      TheTableIsOfFirstLines(env, before, name);
      OneLineMoreInTheTable(env, before, last, name);
      assert before + [last] == lines;
    }
  }

  lemma OneLineMoreInTheTable(env: map<string, string>, before: seq<string>, last: string, name: string)
    requires var r := Read(env, Some(before));
             && r.number == |before|
             && (NeverWritten(before, name) <==> LineOf(r.table, name).None?)
             && (NeverWritten(before, name) <==> FirstAssigned(before, name).None?)
             && forall i: nat, text :: FirstWrittenAt(before, name, i, text) ==>
                  LineOf(r.table, name) == Some(i + 1) && FirstAssigned(before, name) == Some(Unquote(text))
    ensures var lines := before + [last];
            var r := Read(env, Some(lines));
            && r.number == |lines|
            && (NeverWritten(lines, name) <==> LineOf(r.table, name).None?)
            && (NeverWritten(lines, name) <==> FirstAssigned(lines, name).None?)
            && forall i: nat, text :: FirstWrittenAt(lines, name, i, text) ==>
                 LineOf(r.table, name) == Some(i + 1) && FirstAssigned(lines, name) == Some(Unquote(text))
  {
    var lines, l, r := before + [last], Classify(last), Read(env, Some(before));
    assert lines[..|before|] == before && lines[|before|] == last;
    assert Read(env, Some(lines)) == Take(r, l);
    forall text ensures Writes(last, name, text) <==> l == Assigns(name, text) { ALineIsReadAsWritten(last, name, text); }
    FirstOfBoth(before, [last], name);
    assert FirstAssigned([last], name) == Assigned(l, name) by { assert [last][1..] == []; }
    if l.Assigns? { LineOfOneMore(r.table, Entry(l.name, r.number + 1), name); }
    NeverWrittenInBoth(before, last, name);
    forall i: nat, text | FirstWrittenAt(lines, name, i, text)
      ensures LineOf(Take(r, l).table, name) == Some(i + 1) && FirstAssigned(lines, name) == Some(Unquote(text))
    {
      if i < |before| {
        assert FirstWrittenAt(before, name, i, text) by {
          assert forall j :: 0 <= j <= i ==> before[j] == lines[j];
        }
        assert !NeverWritten(before, name);
      } else {
        assert NeverWritten(before, name) by { assert forall j :: 0 <= j < |before| ==> before[j] == lines[j]; }
      }
    }
  }

  lemma NeverWrittenInBoth(before: seq<string>, last: string, name: string)
    ensures NeverWritten(before + [last], name) <==> NeverWritten(before, name) && forall text :: !Writes(last, name, text)
  {
    var lines := before + [last];
    assert forall j :: 0 <= j < |before| ==> lines[j] == before[j];
    assert lines[|before|] == last;
  }

  lemma OneLineIsTaken(env: map<string, string>, lines: seq<string>, line: string)
    ensures Read(env, Some(lines + [line])) == Take(Read(env, Some(lines)), Classify(line))
  {
    assert (lines + [line])[..|lines|] == lines;
  }

  /** A blank line or a comment does nothing, and is no assignment. */
  lemma AnIgnorableLineDoesNothing(env: map<string, string>, lines: seq<string>, line: string)
    requires Ignorable(line)
    ensures var r, r' := Read(env, Some(lines)), Read(env, Some(lines + [line]));
            r'.env == r.env && r'.complaints == r.complaints && !WritesAnything(line)
  {
    OneLineIsTaken(env, lines, line);
    ALineIsSkippedExactlyWhen(line);
    forall name, text { ALineIsReadAsWritten(line, name, text); }
  }

  /** Any other line that is no assignment is complained of by its number. */
  lemma WhatIsNoAssignmentIsComplainedOf(env: map<string, string>, lines: seq<string>, line: string)
    requires !Ignorable(line) && !WritesAnything(line)
    ensures var r, r' := Read(env, Some(lines)), Read(env, Some(lines + [line]));
            r'.env == r.env && r'.complaints == r.complaints + [NotRead(|lines| + 1)]
  {
    OneLineIsTaken(env, lines, line);
    ALineIsSkippedExactlyWhen(line);
    TheTableIsOfFirstLines(env, lines, "");
    if Classify(line).Assigns? {
      AReadLineIsWritten(line);
      assert false;
    }
  }

  /** A second assignment of a name is refused, with the numbers of both lines. */
  lemma ASecondAssignmentIsRefused(env: map<string, string>, lines: seq<string>, line: string, name: string, text: string, i: nat, first: string)
    requires Writes(line, name, text) && FirstWrittenAt(lines, name, i, first)
    ensures var r, r' := Read(env, Some(lines)), Read(env, Some(lines + [line]));
            r'.env == r.env && r'.complaints == r.complaints + [AssignedTwice(name, Decimal(i + 1), |lines| + 1)]
  {
    ALineIsReadAsWritten(line, name, text);
    TheLineOfAName(env, lines, name, i, first);
    TakingASecondAssignment(env, lines, line, name, text, i + 1);
  }

  lemma TheLineOfAName(env: map<string, string>, lines: seq<string>, name: string, i: nat, text: string)
    requires FirstWrittenAt(lines, name, i, text)
    ensures LineOf(Read(env, Some(lines)).table, name) == Some(i + 1) && Read(env, Some(lines)).number == |lines|
  {
    TheTableIsOfFirstLines(env, lines, name);
  }

  lemma TakingASecondAssignment(env: map<string, string>, lines: seq<string>, line: string, name: string, text: string, earlier: nat)
    requires Classify(line) == Assigns(name, text)
    requires LineOf(Read(env, Some(lines)).table, name) == Some(earlier) && Read(env, Some(lines)).number == |lines|
    ensures var r, r' := Read(env, Some(lines)), Read(env, Some(lines + [line]));
            r'.env == r.env && r'.complaints == r.complaints + [AssignedTwice(name, Decimal(earlier), |lines| + 1)]
  {
    OneLineIsTaken(env, lines, line);
  }

  /** A first assignment is taken, for a name nobody has set and not one of the reader's own. */
  lemma AFirstAssignmentIsTaken(env: map<string, string>, lines: seq<string>, line: string, name: string, text: string, value: string)
    requires Writes(line, name, text) && NeverWritten(lines, name) && Values(text, value)
    ensures var r, r' := Read(env, Some(lines)), Read(env, Some(lines + [line]));
            && r'.complaints == r.complaints
            && r'.env == if name in r.env || name in OWN_NAMES then r.env else r.env[name := value]
  {
    OneLineIsTaken(env, lines, line);
    ALineIsReadAsWritten(line, name, text);
    TheTableIsOfFirstLines(env, lines, name);
    TheValueIsWithoutItsQuotes(text);
  }

  /** What a name is after a file: the value of the first line that writes it, when nobody has
      set it and it is not one of the reader's own; and else what it was. */
  lemma WhatAFileMeans(env: map<string, string>, lines: seq<string>, name: string)
    ensures var after := Lookup(Read(env, Some(lines)).env, name);
            && (name in env || name in OWN_NAMES || NeverWritten(lines, name) ==> after == Lookup(env, name))
            && (name !in env && name !in OWN_NAMES ==>
                  forall i: nat, text, value :: FirstWrittenAt(lines, name, i, text) && Values(text, value) ==> after == Some(value))
  {
    ReadingMeans(env, lines, name);
    TheTableIsOfFirstLines(env, lines, name);
    forall text { TheValueIsWithoutItsQuotes(text); }
  }

  /** A line that says NAME=text says just that: a value without quotes is read as it is, one
      in matching quotes without them, and one in quotes that do not match with them. */
  lemma ALineSaysWhatItSays(env: map<string, string>, name: string, text: string, value: string)
    requires IsName(name) && name !in env && name !in OWN_NAMES && Ended(text) && Values(text, value)
    ensures var r := Read(env, Some([name + "=" + text])); r.env == env[name := value] && r.complaints == []
  {
    var line := name + "=" + text;
    assert "" + Exported("", line) == line;
    assert Writes(line, name, text) by { assert AllBlank(""); }
    AFirstAssignmentIsTaken(env, [], line, name, text, value);
    assert [] + [line] == [line];
  }

  // -- Numbers ------------------------------------------------------------------

  function Digit(c: char): int {
    c as int - '0' as int
  }

  function Numeral(s: string): int {
    if s == "" then 0 else 10 * Numeral(s[..|s| - 1]) + Digit(s[|s| - 1])
  }

  /** A line's number is written out in decimal. */
  lemma {:induction false} ANumberIsWrittenInDecimal(n: nat)
    ensures Numeral(Decimal(n)) == n && forall i :: 0 <= i < |Decimal(n)| ==> 0 <= Digit(Decimal(n)[i]) <= 9
    ensures n > 0 ==> Digit(Decimal(n)[0]) != 0
  {
    TheDigits(n % 10);
    if n >= 10 {
      ANumberIsWrittenInDecimal(n / 10);
      var s := Decimal(n);
      assert s[..|s| - 1] == Decimal(n / 10) && s[|s| - 1] == "0123456789"[n % 10];
    } else {
      assert Decimal(n)[..0] == "";
    }
  }

  lemma TheDigits(d: nat)
    requires d < 10
    ensures Digit("0123456789"[d]) == d
  {
  }
}
