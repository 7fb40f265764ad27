/**
 Exactly how a gate run exits, for every wish, every way its commands can go and every disk:
 in terms of what was asked, what the commands did and what was found, and of nothing else.
 */
module GateExits {
  import opened Options
  import opened Gate
  import opened GateProofs
  import opened GateOutcomes

  // -- What is refused ----------------------------------------------------------

  /** A run may be asked for nothing or for the environment alone, with the index accepted or
      refused, and with checkouts that are there, the command's only beside the contract's. */
  predicate Acceptable(w: Wish) {
    && (w.argument == NoArgument || w.argument == EnvironmentOnly)
    && (w.index == Yes || w.index == No)
    && w.contract != Named(false) && w.client != Named(false)
    && (w.client != Unnamed ==> w.contract != Unnamed)
  }

  /** Usage and unreadable values are refused with 2, checkouts that are not there with 1. */
  function RefusalStatus(w: Wish): nat {
    if w.argument == UnknownArgument || w.argument == TwoArguments || w.index == Unreadable then 2 else 1
  }

  /** A named checkout that is not there, and whatever else cannot be honoured, is refused
      before anything is touched. */
  lemma ARefusedRunTouchesNothing(w: Wish, ch: Choices, n: nat, d: Disk)
    requires !Acceptable(w)
    ensures var j := Execute(w, ch, n, d);
            j.exit == Some(RefusalStatus(w)) && j.disk == d && j.past == [] && j.within == []
  {
    var j := Decide(w, d);
    assert j.exit == Some(RefusalStatus(w));
    AStoppedRunIsStopped(ch, n, j);
    assert BeforeReducing(w, ch, n, d) == j;
    assert Conclude(w, ch, j) == j;
  }

  lemma AnAcceptableRunIsNotRefused(w: Wish)
    ensures Refusal(w).None? <==> Acceptable(w)
  {
  }

  // -- The commands of a run, in order ------------------------------------------

  /** A command, and whether the trap sees it fail. */
  datatype Command = Command(done: Done, trapped: bool)

  function Plainly(done: Done): Command { Command(done, true) }

  function InFunction(done: Done): Command { Command(done, false) }

  /** The run's own refusal, in words and with status 1. */
  const STOPS := Command(Failed(1), true)

  function AsDone(i: Install): Done {
    if i.Delivers? then Ok else Failed(i.status)
  }

  /** The status of the first command to fail. The trap turns 75 into 1. */
  function FirstStatus(cs: seq<Command>): Option<nat> {
    if cs == [] then None
    else
      match cs[0].done
      case Ok => FirstStatus(cs[1..])
      case Failed(status) => Some(if cs[0].trapped && status == 75 then 1 else status)
  }

  lemma {:induction false} TheFirstOfBoth(a: seq<Command>, b: seq<Command>)
    ensures FirstStatus(a + b) == if FirstStatus(a).Some? then FirstStatus(a) else FirstStatus(b)
  {
    if a == [] {
      assert a + b == b;
    } else {
      assert (a + b)[0] == a[0] && (a + b)[1..] == a[1..] + b;
      TheFirstOfBoth(a[1..], b);
    }
  }

  /** The checkouts, and the command from its own. */
  function Building(w: Wish, ch: Choices): seq<Command> {
    if w.contract.Unnamed? then []
    else [InFunction(ch.readContract), Plainly(ch.build)] +
         if w.client.Unnamed? then []
         else [InFunction(ch.readClient), Plainly(ch.buildClient), Plainly(ch.makeClient), Plainly(AsDone(ch.installClient))]
  }

  /** A whole environment a checkouts run built, and an index that did not answer. */
  predicate RefusesMain(ch: Choices, d: Disk) {
    ch.installMain.TouchesNothing? && d.main.record == Some(Checkouts) && Importable(d.main)
  }

  predicate RefusesClient(ch: Choices, d: Disk) {
    ch.installClient.TouchesNothing? && d.client.record == Some(Checkouts) && d.client.command.Some?
  }

  function Installing(w: Wish, ch: Choices, d: Disk): seq<Command> {
    [Plainly(ch.makeMain), Plainly(ch.readPins)] +
    if w.contract.Named? then [Plainly(AsDone(ch.installMain))]
    else if w.index.Yes? && RefusesMain(ch, d) then [STOPS] else []
  }

  function FindingTheClient(w: Wish, ch: Choices, d: Disk): seq<Command> {
    if w.contract.Named? || !w.index.Yes? || !ch.installMain.Delivers? then []
    else if !ch.contractPinned then [STOPS]
    else (if d.client.made then [] else [Plainly(ch.makeClient)]) + (if RefusesClient(ch, d) then [STOPS] else [])
  }

  /** No route delivers: the index is refused, or did not deliver and nothing is kept for it. */
  predicate Reduces(w: Wish, ch: Choices, d: Disk) {
    w.contract.Unnamed? && (w.index.No? || FallsBack(ch, d))
  }

  /** One uninstall after another, of what is there. */
  function Uninstalls(ch: Choices, ds: seq<Dist>, there: set<Dist>): seq<Command> {
    if ds == [] then []
    else (if ds[0] in there then [Plainly(ch.uninstall(ds[0]))] else []) + Uninstalls(ch, ds[1..], there - {ds[0]})
  }

  function Removing(w: Wish, ch: Choices, d: Disk): seq<Command> {
    if Reduces(w, ch, d) then Uninstalls(ch, [Contract, Boundary, ControlPlane], Found(w, ch, d)) else []
  }

  function Checking(w: Wish, ch: Choices, d: Disk): seq<Command> {
    if w.argument == EnvironmentOnly then []
    else (if !Reduces(w, ch, d) && !ch.rootFits then [STOPS] else [])
         + [Plainly(ch.format), Plainly(ch.lint), Plainly(ch.tests)]
  }

  function Preparing(w: Wish, ch: Choices, d: Disk): seq<Command> {
    [Plainly(ch.prepare)] + Building(w, ch) + Installing(w, ch, d)
  }

  function Commands(w: Wish, ch: Choices, d: Disk): seq<Command> {
    Preparing(w, ch, d) + [Plainly(ch.installDev), Plainly(ch.installSelf)] + FindingTheClient(w, ch, d) + Removing(w, ch, d)
  }

  // -- Each phase stops at its first failure ------------------------------------

  lemma AttemptingStops(j: Job, c: Command)
    requires j.exit.None?
    ensures FirstStatus([c]) == if c.done.Ok? then None else Some(if c.trapped then Trapped(c.done.status) else c.done.status)
    ensures c.trapped ==> Attempt(j, c.done) == j.(exit := FirstStatus([c]))
    ensures !c.trapped ==> AttemptInFunction(j, c.done) == j.(exit := FirstStatus([c]))
  {
    assert [c][1..] == [];
  }

  lemma TwoAttempts(j: Job, d1: Done, d2: Done)
    requires j.exit.None?
    ensures Attempt(Attempt(j, d1), d2) == j.(exit := FirstStatus([Plainly(d1), Plainly(d2)]))
    ensures Attempt(AttemptInFunction(j, d1), d2) == j.(exit := FirstStatus([InFunction(d1), Plainly(d2)]))
  {
    AttemptingStops(j, Plainly(d1));
    AttemptingStops(j, InFunction(d1));
    AttemptingStops(j, Plainly(d2));
    TheFirstOfBoth([Plainly(d1)], [Plainly(d2)]);
    TheFirstOfBoth([InFunction(d1)], [Plainly(d2)]);
    assert [Plainly(d1)] + [Plainly(d2)] == [Plainly(d1), Plainly(d2)];
    assert [InFunction(d1)] + [Plainly(d2)] == [InFunction(d1), Plainly(d2)];
  }

  lemma InstallingTheClientStops(ch: Choices, n: nat, j: Job)
    requires j.exit.None?
    ensures var j' := ClientFromCheckout(ch, n, j);
            && j'.exit == FirstStatus([Plainly(AsDone(ch.installClient))]) && j'.mode == j.mode && j'.route == j.route
            && j'.disk.main == j.disk.main && (j'.exit.None? ==> j'.clientBuilt)
  {
    AttemptingStops(j, Plainly(AsDone(ch.installClient)));
  }

  lemma BuildingStops(w: Wish, ch: Choices, n: nat, j: Job)
    requires j.exit.None? && j.mode.Full? && j.route == Some(Checkouts) && w.contract.Named? && !j.clientBuilt
    ensures var j' := BuildCheckouts(w, ch, n, j);
            && j'.exit == FirstStatus(Building(w, ch)) && j'.mode.Full? && j'.route == Some(Checkouts)
            && (j'.exit.None? ==> (j'.clientBuilt <==> w.client.Named?))
  {
    var first := [InFunction(ch.readContract), Plainly(ch.build)];
    var built := Attempt(AttemptInFunction(j, ch.readContract), ch.build);
    TwoAttempts(j, ch.readContract, ch.build);
    if w.client.Unnamed? {
      assert Building(w, ch) == first;
    } else if built.exit.Some? {
      TheFirstOfBoth(first, Building(w, ch)[2..]);
      assert Building(w, ch) == first + Building(w, ch)[2..];
    } else {
      BuildingTheClientStops(ch, n, built);
      var rest := [InFunction(ch.readClient), Plainly(ch.buildClient), Plainly(ch.makeClient), Plainly(AsDone(ch.installClient))];
      TheFirstOfBoth(first, rest);
      assert Building(w, ch) == first + rest;
    }
  }

  lemma BuildingTheClientStops(ch: Choices, n: nat, j: Job)
    requires j.exit.None?
    ensures var made := Attempt(Attempt(AttemptInFunction(j, ch.readClient), ch.buildClient), ch.makeClient);
            var j' := if made.exit.Some? then made else ClientFromCheckout(ch, n, made);
            && j'.exit == FirstStatus([InFunction(ch.readClient), Plainly(ch.buildClient), Plainly(ch.makeClient), Plainly(AsDone(ch.installClient))])
            && j'.mode == j.mode && j'.route == j.route && (j'.exit.None? ==> j'.clientBuilt)
  {
    var two, three := [InFunction(ch.readClient), Plainly(ch.buildClient)], [Plainly(ch.makeClient)];
    var last := [Plainly(AsDone(ch.installClient))];
    TwoAttempts(j, ch.readClient, ch.buildClient);
    AttemptingStops(j, Plainly(ch.makeClient));
    InstallingTheClientStops(ch, n, j);
    TheFirstOfBoth(two, three);
    TheFirstOfBoth(two + three, last);
    assert two + three + last == [InFunction(ch.readClient), Plainly(ch.buildClient), Plainly(ch.makeClient), Plainly(AsDone(ch.installClient))];
  }

  lemma InstallingFromCheckoutsStops(w: Wish, ch: Choices, n: nat, j: Job, d: Disk)
    requires j.exit.None? && j.mode.Full? && j.route == Some(Checkouts) && w.contract.Named?
    ensures var j' := InstallMain(ch, n, j);
            && j'.exit == FirstStatus(Installing(w, ch, d)) && j'.mode.Full? && j'.route == Some(Checkouts)
            && j'.clientBuilt == j.clientBuilt
  {
    var two, last := [Plainly(ch.makeMain), Plainly(ch.readPins)], [Plainly(AsDone(ch.installMain))];
    TwoAttempts(j, ch.makeMain, ch.readPins);
    AttemptingStops(j, Plainly(AsDone(ch.installMain)));
    TheFirstOfBoth(two, last);
  }

  lemma InstallingFromIndexStops(w: Wish, ch: Choices, n: nat, j: Job)
    requires j.exit.None? && j.mode.Full? && j.route == Some(Index) && w.contract.Unnamed? && w.index.Yes?
    ensures var j' := InstallMain(ch, n, j);
            && j'.exit == FirstStatus(Installing(w, ch, j.disk)) && j'.clientBuilt == j.clientBuilt
            && (j'.exit.None? ==>
                  && (j'.mode.Reduced? <==> FallsBack(ch, j.disk)) && (j'.mode.Full? <==> j'.route == Some(Index))
                  && (j'.mode.Full? ==> ch.installMain.Delivers?) && j'.disk.client == j.disk.client)
  {
    var two := [Plainly(ch.makeMain), Plainly(ch.readPins)];
    TwoAttempts(j, ch.makeMain, ch.readPins);
    TheFirstOfBoth(two, if RefusesMain(ch, j.disk) then [STOPS] else []);
    if FirstStatus(two).None? { TheIndexStops(ch, n, j); }
  }

  lemma TheIndexStops(ch: Choices, n: nat, j: Job)
    requires j.exit.None? && j.mode.Full? && j.route == Some(Index)
    ensures var j' := InstallFromIndex(ch, n, j);
            && j'.exit == (if RefusesMain(ch, j.disk) then Some(1) else None) && j'.clientBuilt == j.clientBuilt
            && (j'.exit.None? ==>
                  && (j'.mode.Reduced? <==> FallsBack(ch, j.disk)) && (j'.mode.Full? <==> j'.route == Some(Index))
                  && (j'.mode.Full? ==> ch.installMain.Delivers?) && j'.disk.client == j.disk.client)
  {
    FallingBackExactlyWhen(ch, n, j);
  }

  lemma FindingTheClientStops(w: Wish, ch: Choices, n: nat, j: Job)
    requires j.exit.None? && j.mode.Full? && j.route == Some(Index)
    requires w.contract.Unnamed? && w.index.Yes? && ch.installMain.Delivers? && !j.clientBuilt
    ensures var j' := ClientFromIndex(ch, n, j);
            && j'.exit == FirstStatus(FindingTheClient(w, ch, j.disk)) && j'.mode.Full?
            && (j'.exit.None? ==> (j'.clientBuilt <==> ch.installClient.Delivers?))
  {
    if ch.contractPinned {
      FindingTheCommand(ch, n, j);
      var made := if j.disk.client.made then [] else [Plainly(ch.makeClient)];
      AttemptingStops(j, Plainly(ch.makeClient));
      TheFirstOfBoth(made, if RefusesClient(ch, j.disk) then [STOPS] else []);
      if WithAClient(ch, j).exit.None? { TheCommandStops(ch, n, WithAClient(ch, j)); }
    }
  }

  lemma TheCommandStops(ch: Choices, n: nat, j: Job)
    requires j.exit.None? && j.mode.Full? && !j.clientBuilt
    ensures var j' := CommandFromIndex(ch, n, j);
            && j'.exit == (if RefusesClient(ch, j.disk) then Some(1) else None) && j'.mode.Full?
            && (j'.exit.None? ==> (j'.clientBuilt <==> ch.installClient.Delivers?))
  {
  }

  // -- Before the removal -------------------------------------------------------

  /** The command was built, or the index delivered it. */
  predicate CommandThere(w: Wish, ch: Choices) {
    if w.contract.Named? then w.client.Named? else ch.installClient.Delivers?
  }

  /** The run before the removal stops at the first failure of what comes before it; if it does
      not stop it is reduced exactly when no route delivers, and knows whether it has the command. */
  ghost predicate Prepared(w: Wish, ch: Choices, d: Disk, j: Job) {
    && j.exit == FirstStatus(Preparing(w, ch, d) + [Plainly(ch.installDev), Plainly(ch.installSelf)] + FindingTheClient(w, ch, d))
    && (j.exit.None? ==>
          && (j.mode.Reduced? <==> Reduces(w, ch, d))
          && (j.mode.Full? ==> (j.clientBuilt <==> CommandThere(w, ch))))
  }

  lemma DevelopingStops(before: seq<Command>, ch: Choices, j: Job)
    requires j.exit == FirstStatus(before)
    ensures var j' := Attempt(Attempt(j, ch.installDev), ch.installSelf);
            j' == j.(exit := FirstStatus(before + [Plainly(ch.installDev), Plainly(ch.installSelf)]))
  {
    TheFirstOfBoth(before, [Plainly(ch.installDev), Plainly(ch.installSelf)]);
    if j.exit.None? { TwoAttempts(j, ch.installDev, ch.installSelf); }
  }

  /** The start of a run, as far as its first command. */
  lemma Starting(w: Wish, ch: Choices, d: Disk)
    requires Acceptable(w)
    ensures var j := Attempt(Decide(w, d), ch.prepare);
            j == Decide(w, d).(exit := FirstStatus([Plainly(ch.prepare)]))
  {
    AnAcceptableRunIsNotRefused(w);
    AttemptingStops(Decide(w, d), Plainly(ch.prepare));
  }

  lemma FromCheckoutsPrepared(w: Wish, ch: Choices, n: nat, d: Disk)
    requires Acceptable(w) && w.contract.Named?
    ensures Prepared(w, ch, d, BeforeReducing(w, ch, n, d))
  {
    var j0 := Attempt(Decide(w, d), ch.prepare);
    Starting(w, ch, d);
    var j1 := BuildCheckouts(w, ch, n, j0);
    ARunWithCheckoutsIsFull(w, ch, n, d);
    TheFirstOfBoth([Plainly(ch.prepare)], Building(w, ch));
    if j0.exit.None? { BuildingStops(w, ch, n, j0); }
    var j2 := InstallMain(ch, n, j1);
    TheFirstOfBoth([Plainly(ch.prepare)] + Building(w, ch), Installing(w, ch, d));
    if j1.exit.None? { InstallingFromCheckoutsStops(w, ch, n, j1, d); }
    DevelopingStops(Preparing(w, ch, d), ch, j2);
    var j3 := Attempt(Attempt(j2, ch.installDev), ch.installSelf);
    FindingKeepsTheMode(ch, n, j3);
    assert j3.route == Some(Checkouts);
    assert BeforeReducing(w, ch, n, d) == j3;
    var all := Preparing(w, ch, d) + [Plainly(ch.installDev), Plainly(ch.installSelf)];
    assert all + [] == all;
  }

  lemma FromIndexPrepared(w: Wish, ch: Choices, n: nat, d: Disk)
    requires Acceptable(w) && w.contract.Unnamed? && w.index.Yes?
    ensures Prepared(w, ch, d, BeforeReducing(w, ch, n, d))
  {
    var j0 := Attempt(Decide(w, d), ch.prepare);
    Starting(w, ch, d);
    assert BuildCheckouts(w, ch, n, j0) == j0;
    var first := [Plainly(ch.prepare)] + Building(w, ch);
    assert first == [Plainly(ch.prepare)];
    TheFirstOfBoth(first, Installing(w, ch, d));
    var j2 := InstallMain(ch, n, j0);
    if j0.exit.None? { InstallingFromIndexStops(w, ch, n, j0); }
    DevelopingStops(Preparing(w, ch, d), ch, j2);
    var j3 := Attempt(Attempt(j2, ch.installDev), ch.installSelf);
    var all := Preparing(w, ch, d) + [Plainly(ch.installDev), Plainly(ch.installSelf)];
    TheFirstOfBoth(all, FindingTheClient(w, ch, d));
    TheLastOfThePreparation(w, ch, n, d, j3);
  }

  lemma TheLastOfThePreparation(w: Wish, ch: Choices, n: nat, d: Disk, j: Job)
    requires w.contract.Unnamed? && w.index.Yes? && !j.clientBuilt
    requires j.exit.None? ==>
               && (j.mode.Reduced? <==> FallsBack(ch, d)) && (j.mode.Full? <==> j.route == Some(Index))
               && (j.mode.Full? ==> ch.installMain.Delivers?) && j.disk.client == d.client
    ensures var j' := ClientFromIndex(ch, n, j);
            && (j.exit.Some? ==> j' == j) && (j.exit.None? ==> j'.exit == FirstStatus(FindingTheClient(w, ch, d)))
            && (j'.exit.None? ==> j.exit.None? && j'.mode == j.mode
                                  && (j'.mode.Full? ==> (j'.clientBuilt <==> ch.installClient.Delivers?)))
  {
    FindingKeepsTheMode(ch, n, j);
    if j.exit.None? && j.mode.Full? {
      FindingTheClientStops(w, ch, n, j);
      assert FindingTheClient(w, ch, d) == FindingTheClient(w, ch, j.disk);
    }
  }

  lemma WithoutARoutePrepared(w: Wish, ch: Choices, n: nat, d: Disk)
    requires Acceptable(w) && w.contract.Unnamed? && w.index.No?
    ensures Prepared(w, ch, d, BeforeReducing(w, ch, n, d))
  {
    var j0 := Attempt(Decide(w, d), ch.prepare);
    Starting(w, ch, d);
    assert BuildCheckouts(w, ch, n, j0) == j0;
    var first := [Plainly(ch.prepare)] + Building(w, ch);
    assert first == [Plainly(ch.prepare)];
    var two := [Plainly(ch.makeMain), Plainly(ch.readPins)];
    assert Installing(w, ch, d) == two;
    TheFirstOfBoth(first, two);
    var j2 := InstallMain(ch, n, j0);
    if j0.exit.None? { TwoAttempts(j0, ch.makeMain, ch.readPins); }
    DevelopingStops(Preparing(w, ch, d), ch, j2);
    var j3 := Attempt(Attempt(j2, ch.installDev), ch.installSelf);
    FindingKeepsTheMode(ch, n, j3);
    var all := Preparing(w, ch, d) + [Plainly(ch.installDev), Plainly(ch.installSelf)];
    assert all + [] == all;
  }

  // -- The removal and the checks -----------------------------------------------

  lemma {:induction false} UninstallingStops(ch: Choices, ds: seq<Dist>, j: Job)
    requires j.exit.None?
    ensures Remove(ch, ds, j).exit == FirstStatus(Uninstalls(ch, ds, j.disk.main.held.Keys))
    decreases |ds|
  {
    if ds != [] {
      var d, there := ds[0], j.disk.main.held.Keys;
      TheFirstOfBoth(if d in there then [Plainly(ch.uninstall(d))] else [], Uninstalls(ch, ds[1..], there - {d}));
      if d !in there {
        assert there - {d} == there;
        UninstallingStops(ch, ds[1..], j);
      } else {
        AttemptingStops(j, Plainly(ch.uninstall(d)));
        assert Without(j, d).disk.main.held.Keys == there - {d};
        if ch.uninstall(d).Ok? { UninstallingStops(ch, ds[1..], Without(j, d)); }
      }
    }
  }

  /** The removal leaves nothing importable, and so never ends the run by what it measures. */
  lemma ReducingStops(w: Wish, ch: Choices, n: nat, d: Disk)
    requires Acceptable(w) && Prepared(w, ch, d, BeforeReducing(w, ch, n, d))
    ensures var j := Reduce(ch, BeforeReducing(w, ch, n, d));
            && j.exit == FirstStatus(Commands(w, ch, d))
            && (j.exit.None? ==>
                  && (j.mode.Reduced? <==> Reduces(w, ch, d))
                  && (j.mode.Full? ==> (j.clientBuilt <==> CommandThere(w, ch))))
  {
    var j := BeforeReducing(w, ch, n, d);
    var before := Preparing(w, ch, d) + [Plainly(ch.installDev), Plainly(ch.installSelf)] + FindingTheClient(w, ch, d);
    TheFirstOfBoth(before, Removing(w, ch, d));
    assert Commands(w, ch, d) == before + Removing(w, ch, d);
    if j.exit.None? && j.mode.Reduced? {
      ReachingTheRemoval(w, ch, n, d);
      UninstallingStops(ch, OPEN_DISTRIBUTIONS, j);
      ReducingInTwoParts(ch, j);
      TheRemovalIsComplete(ch, j);
    }
  }

  lemma TheRemovalIsComplete(ch: Choices, j: Job)
    requires j.exit.None? && j.mode.Reduced?
    ensures Reduce(ch, j).exit == Remove(ch, OPEN_DISTRIBUTIONS, j).exit && Reduce(ch, j).mode.Reduced?
  {
    RemovingGoesThroughExactlyWhen(ch, OPEN_DISTRIBUTIONS, j);
    if Remove(ch, OPEN_DISTRIBUTIONS, j).exit.None? { TheLoopRemovesIt(ch, OPEN_DISTRIBUTIONS, j, Contract); }
  }

  lemma {:induction false} TheLoopRemovesIt(ch: Choices, ds: seq<Dist>, j: Job, d: Dist)
    requires j.exit.None? && Remove(ch, ds, j).exit.None? && d in ds
    ensures d !in Remove(ch, ds, j).disk.main.held
    decreases |ds|
  {
    var next := if ds[0] in j.disk.main.held then Without(j, ds[0]) else j;
    if ds[0] == d {
      RemovingLeavesLess(ch, ds[1..], next);
    } else {
      TheLoopRemovesIt(ch, ds[1..], next, d);
    }
  }

  /** The status of a run none of whose commands failed. */
  function Verdict(w: Wish, ch: Choices, d: Disk): nat {
    if w.argument == EnvironmentOnly then (if Reduces(w, ch, d) then 75 else 0)
    else if ch.report.None? then 1
    else if !Reduces(w, ch, d) && CommandThere(w, ch) then (if ch.report.value.checks == 0 then 0 else 1)
    else if ch.report.value.checks >= 1 && ch.report.value.present > ch.report.value.modules then 75 else 1
  }

  lemma ConcludingStops(w: Wish, ch: Choices, d: Disk, j: Job)
    requires j.exit.None? && (j.mode.Reduced? <==> Reduces(w, ch, d))
    requires j.mode.Full? ==> (j.clientBuilt <==> CommandThere(w, ch))
    ensures Conclude(w, ch, j).exit ==
            if FirstStatus(Checking(w, ch, d)).Some? then FirstStatus(Checking(w, ch, d)) else Some(Verdict(w, ch, d))
  {
    var fits := if !Reduces(w, ch, d) && !ch.rootFits then [STOPS] else [];
    var checks := [Plainly(ch.format), Plainly(ch.lint), Plainly(ch.tests)];
    TheFirstOfBoth(fits, checks);
    TwoAttempts(j, ch.format, ch.lint);
    AttemptingStops(j, Plainly(ch.tests));
    TheFirstOfBoth([Plainly(ch.format), Plainly(ch.lint)], [Plainly(ch.tests)]);
    assert checks == [Plainly(ch.format), Plainly(ch.lint)] + [Plainly(ch.tests)];
  }

  /** A run exits with the status of the first of its commands to fail, with 75 turned into 1
      except inside a function; and with its verdict when none does. */
  lemma ARunExitsWithItsFirstFailure(w: Wish, ch: Choices, n: nat, d: Disk)
    requires Acceptable(w)
    ensures var first := FirstStatus(Commands(w, ch, d) + Checking(w, ch, d));
            Execute(w, ch, n, d).exit == if first.Some? then first else Some(Verdict(w, ch, d))
  {
    var j := Reduce(ch, BeforeReducing(w, ch, n, d));
    if w.contract.Named? { FromCheckoutsPrepared(w, ch, n, d); }
    else if w.index.Yes? { FromIndexPrepared(w, ch, n, d); }
    else { WithoutARoutePrepared(w, ch, n, d); }
    ReducingStops(w, ch, n, d);
    TheFirstOfBoth(Commands(w, ch, d), Checking(w, ch, d));
    if j.exit.None? {
      ConcludingStops(w, ch, d, j);
    } else {
      assert Conclude(w, ch, j) == j;
    }
  }

  // -- Exactly when a run is green ----------------------------------------------

  lemma {:induction false} NothingFirst(cs: seq<Command>)
    ensures FirstStatus(cs).None? <==> forall c :: c in cs ==> c.done.Ok?
    ensures FirstStatus(cs) != Some(0)
    ensures (forall c :: c in cs ==> c.trapped) ==> FirstStatus(cs) != Some(75)
  {
    if cs != [] {
      NothingFirst(cs[1..]);
      assert cs == [cs[0]] + cs[1..];
    }
  }

  /** Every command of a run with checkouts did its work. */
  predicate CheckoutsWork(w: Wish, ch: Choices) {
    && ch.readContract.Ok? && ch.build.Ok? && ch.installMain.Delivers?
    && (w.client.Named? ==> ch.readClient.Ok? && ch.buildClient.Ok? && ch.makeClient.Ok? && ch.installClient.Delivers?)
  }

  /** The index delivered the distributions, and the command could be asked of it and need not
      be kept from it. */
  predicate IndexWorks(w: Wish, ch: Choices, d: Disk) {
    w.index.Yes? && ch.installMain.Delivers? && ch.contractPinned && (d.client.made || ch.makeClient.Ok?) && !RefusesClient(ch, d)
  }

  /** No route delivered, and whatever is there could be removed. */
  predicate RemovalWorks(w: Wish, ch: Choices, d: Disk) {
    Reduces(w, ch, d) && forall x :: x in Found(w, ch, d) ==> ch.uninstall(x).Ok?
  }

  predicate CommonWorks(ch: Choices) {
    ch.prepare.Ok? && ch.makeMain.Ok? && ch.readPins.Ok? && ch.installDev.Ok? && ch.installSelf.Ok?
  }

  /** The run gets as far as its environments. */
  predicate EnvironmentWorks(w: Wish, ch: Choices, d: Disk) {
    CommonWorks(ch) &&
    if w.contract.Named? then CheckoutsWork(w, ch) else IndexWorks(w, ch, d) || RemovalWorks(w, ch, d)
  }

  predicate ChecksPass(w: Wish, ch: Choices, d: Disk) {
    (Reduces(w, ch, d) || ch.rootFits) && ch.format.Ok? && ch.lint.Ok? && ch.tests.Ok?
  }

  /** Nothing failed and nothing was kept from the run, some route delivered the distributions,
      and either it was asked for the environment alone or every check ran. */
  predicate FullGreen(w: Wish, ch: Choices, d: Disk) {
    && Acceptable(w) && EnvironmentWorks(w, ch, d) && !Reduces(w, ch, d)
    && (w.argument == EnvironmentOnly
        || (ChecksPass(w, ch, d) && CommandThere(w, ch) && NothingStoodDown(ch.report)))
  }

  /** Nothing failed, the distributions or only the command are absent, and either the run was
      asked for the environment alone or something stood down for it and something ran. */
  predicate ReducedGreen(w: Wish, ch: Choices, d: Disk) {
    && Acceptable(w) && EnvironmentWorks(w, ch, d)
    && (if w.argument == EnvironmentOnly then Reduces(w, ch, d)
        else && (Reduces(w, ch, d) || !CommandThere(w, ch))
             && ChecksPass(w, ch, d) && SomethingStoodDownAndSomethingRan(ch.report))
  }

  lemma {:induction false} NoUninstallFails(ch: Choices, ds: seq<Dist>, there: set<Dist>)
    ensures FirstStatus(Uninstalls(ch, ds, there)).None? <==> forall x :: x in ds && x in there ==> ch.uninstall(x).Ok?
    ensures FirstStatus(Uninstalls(ch, ds, there)) != Some(75)
    decreases |ds|
  {
    if ds != [] {
      var d := ds[0];
      var one := if d in there then [Plainly(ch.uninstall(d))] else [];
      NothingFirst(one);
      TheFirstOfBoth(one, Uninstalls(ch, ds[1..], there - {d}));
      NoUninstallFails(ch, ds[1..], there - {d});
      assert ds == [d] + ds[1..];
    }
  }

  lemma BuildingWorks(w: Wish, ch: Choices)
    ensures FirstStatus(Building(w, ch)).None? <==>
            (w.contract.Named? ==>
               && ch.readContract.Ok? && ch.build.Ok?
               && (w.client.Named? ==> ch.readClient.Ok? && ch.buildClient.Ok? && ch.makeClient.Ok? && ch.installClient.Delivers?))
    ensures FirstStatus(Building(w, ch)) == Some(75) <==>
            && w.contract.Named?
            && (|| ch.readContract == Failed(75)
                || (ch.readContract.Ok? && ch.build.Ok? && w.client.Named? && ch.readClient == Failed(75)))
  {
    if w.contract.Named? {
      var first := [InFunction(ch.readContract), Plainly(ch.build)];
      var rest := if w.client.Unnamed? then []
                  else [InFunction(ch.readClient), Plainly(ch.buildClient), Plainly(ch.makeClient), Plainly(AsDone(ch.installClient))];
      TheFirstOfBoth(first, rest);
      FirstOfTwo(InFunction(ch.readContract), Plainly(ch.build));
      if w.client.Named? {
        var tail := [Plainly(ch.buildClient), Plainly(ch.makeClient), Plainly(AsDone(ch.installClient))];
        assert rest == [InFunction(ch.readClient)] + tail;
        TheFirstOfBoth([InFunction(ch.readClient)], tail);
        NothingFirst(tail);
        assert [InFunction(ch.readClient)][1..] == [];
        assert tail[0].done == ch.buildClient && tail[1].done == ch.makeClient && tail[2].done == AsDone(ch.installClient);
      }
    }
  }

  lemma FirstOfTwo(a: Command, b: Command)
    ensures FirstStatus([a, b]) == if a.done.Failed? then FirstStatus([a]) else FirstStatus([b])
    ensures FirstStatus([a]).None? <==> a.done.Ok?
  {
    assert [a, b][1..] == [b] && [a][1..] == [];
  }

  lemma InstallingWorks(w: Wish, ch: Choices, d: Disk)
    ensures FirstStatus(Installing(w, ch, d)).None? <==>
            && ch.makeMain.Ok? && ch.readPins.Ok?
            && (if w.contract.Named? then ch.installMain.Delivers? else !(w.index.Yes? && RefusesMain(ch, d)))
    ensures FirstStatus(Installing(w, ch, d)) != Some(75)
  {
    var two := [Plainly(ch.makeMain), Plainly(ch.readPins)];
    var last := if w.contract.Named? then [Plainly(AsDone(ch.installMain))]
                else if w.index.Yes? && RefusesMain(ch, d) then [STOPS] else [];
    TheFirstOfBoth(two, last);
    NothingFirst(two);
    NothingFirst(last);
    assert two[0].done == ch.makeMain && two[1].done == ch.readPins;
    if w.contract.Named? { assert last[0].done == AsDone(ch.installMain); }
    if !w.contract.Named? && w.index.Yes? && RefusesMain(ch, d) { assert last[0] == STOPS; }
  }

  lemma FindingWorks(w: Wish, ch: Choices, d: Disk)
    ensures FirstStatus(FindingTheClient(w, ch, d)).None? <==>
            (w.contract.Unnamed? && w.index.Yes? && ch.installMain.Delivers? ==>
               ch.contractPinned && (d.client.made || ch.makeClient.Ok?) && !RefusesClient(ch, d))
    ensures FirstStatus(FindingTheClient(w, ch, d)) != Some(75)
  {
    var cs := FindingTheClient(w, ch, d);
    NothingFirst(cs);
    if w.contract.Unnamed? && w.index.Yes? && ch.installMain.Delivers? {
      if !ch.contractPinned {
        assert cs[0] == STOPS;
      } else {
        var made := if d.client.made then [] else [Plainly(ch.makeClient)];
        var stops := if RefusesClient(ch, d) then [STOPS] else [];
        NothingFirst(made);
        NothingFirst(stops);
        TheFirstOfBoth(made, stops);
        if !d.client.made { assert made[0].done == ch.makeClient; }
        if RefusesClient(ch, d) { assert stops[0] == STOPS; }
      }
    }
  }

  lemma RemovingWorks(w: Wish, ch: Choices, d: Disk)
    ensures FirstStatus(Removing(w, ch, d)).None? <==> (Reduces(w, ch, d) ==> RemovalWorks(w, ch, d))
    ensures FirstStatus(Removing(w, ch, d)) != Some(75)
  {
    NoUninstallFails(ch, [Contract, Boundary, ControlPlane], Found(w, ch, d));
    forall x: Dist ensures x in [Contract, Boundary, ControlPlane] { EveryDistributionIsOpen(x); }
  }

  lemma CheckingWorks(w: Wish, ch: Choices, d: Disk)
    ensures FirstStatus(Checking(w, ch, d)).None? <==> w.argument == EnvironmentOnly || ChecksPass(w, ch, d)
    ensures FirstStatus(Checking(w, ch, d)) != Some(75)
  {
    if w.argument != EnvironmentOnly {
      var fits := if !Reduces(w, ch, d) && !ch.rootFits then [STOPS] else [];
      var checks := [Plainly(ch.format), Plainly(ch.lint), Plainly(ch.tests)];
      TheFirstOfBoth(fits, checks);
      NothingFirst(fits);
      NothingFirst(checks);
      assert checks[0].done == ch.format && checks[1].done == ch.lint && checks[2].done == ch.tests;
      if !Reduces(w, ch, d) && !ch.rootFits { assert fits[0] == STOPS; }
    }
  }

  /** The statuses of all the phases, put together. */
  lemma AllTheCommands(w: Wish, ch: Choices, d: Disk)
    ensures FirstStatus(Commands(w, ch, d)).None? <==>
            && ch.prepare.Ok? && ch.installDev.Ok? && ch.installSelf.Ok?
            && FirstStatus(Building(w, ch)).None? && FirstStatus(Installing(w, ch, d)).None?
            && FirstStatus(FindingTheClient(w, ch, d)).None? && FirstStatus(Removing(w, ch, d)).None?
    ensures FirstStatus(Commands(w, ch, d)) == Some(75) <==> ch.prepare.Ok? && FirstStatus(Building(w, ch)) == Some(75)
  {
    var prepare, dev := [Plainly(ch.prepare)], [Plainly(ch.installDev), Plainly(ch.installSelf)];
    NothingFirst(prepare);
    assert prepare[0].done == ch.prepare;
    NothingFirst(dev);
    assert dev[0].done == ch.installDev && dev[1].done == ch.installSelf;
    InstallingWorks(w, ch, d);
    FindingWorks(w, ch, d);
    RemovingWorks(w, ch, d);
    TheFirstOfBoth(prepare, Building(w, ch));
    TheFirstOfBoth(prepare + Building(w, ch), Installing(w, ch, d));
    TheFirstOfBoth(Preparing(w, ch, d), dev);
    TheFirstOfBoth(Preparing(w, ch, d) + dev, FindingTheClient(w, ch, d));
    TheFirstOfBoth(Preparing(w, ch, d) + dev + FindingTheClient(w, ch, d), Removing(w, ch, d));
  }

  lemma NothingStopsExactlyWhen(w: Wish, ch: Choices, d: Disk)
    requires Acceptable(w)
    ensures FirstStatus(Commands(w, ch, d)).None? <==> EnvironmentWorks(w, ch, d)
    ensures FirstStatus(Commands(w, ch, d)) == Some(75) <==> Forged(w, ch)
  {
    AllTheCommands(w, ch, d);
    BuildingWorks(w, ch);
    InstallingWorks(w, ch, d);
    FindingWorks(w, ch, d);
    RemovingWorks(w, ch, d);
    AnAcceptableRunIsNotRefused(w);
  }

  /** For every wish, whatever its commands do and whatever disk it finds: a run exits 0
      exactly when it is fully green, and 75 exactly when it is green without something, or
      the status was forged. */
  lemma ARunIsGreenExactlyWhen(w: Wish, ch: Choices, n: nat, d: Disk)
    ensures Execute(w, ch, n, d).exit == Some(0) <==> FullGreen(w, ch, d)
    ensures Execute(w, ch, n, d).exit == Some(75) <==> ReducedGreen(w, ch, d) || Forged(w, ch)
  {
    if Acceptable(w) {
      ARunExitsWithItsFirstFailure(w, ch, n, d);
      NothingStopsExactlyWhen(w, ch, d);
      CheckingWorks(w, ch, d);
      TheFirstOfBoth(Commands(w, ch, d), Checking(w, ch, d));
      NothingFirst(Commands(w, ch, d) + Checking(w, ch, d));
    } else {
      ARefusedRunTouchesNothing(w, ch, n, d);
      AnAcceptableRunIsNotRefused(w);
    }
  }

  // -- Exactly what a green run leaves ------------------------------------------

  function Everything(o: Origin): map<Dist, Origin> {
    map[Contract := o, Boundary := o, ControlPlane := o]
  }

  /** What the index delivered before is left as it is; anything else is replaced. */
  function FromTheIndex(m: Main, o: Origin): map<Dist, Origin> {
    if m.record == Some(Index) then Everything(o) + m.held else Everything(o)
  }

  function CommandOfTheIndex(cl: Client, o: Origin): Origin {
    if cl.record == Some(Index) && cl.command.Some? then cl.command.value else o
  }

  /** The disk a green run that was not forged leaves. */
  function GreenLeaves(w: Wish, ch: Choices, n: nat, d: Disk): Disk {
    if Reduces(w, ch, d) then Disk(Main(map[], None), Client(false, None, None))
    else if w.contract.Named? then
      Disk(Main(Everything(Origin(Checkouts, n)), Some(Checkouts)),
           if w.client.Named? then Client(true, Some(Origin(Checkouts, n)), Some(Checkouts)) else Client(false, None, None))
    else
      Disk(Main(FromTheIndex(d.main, Origin(Index, n)), Some(Index)),
           if ch.installClient.Delivers?
           then Client(true, Some(CommandOfTheIndex(d.client, Origin(Index, n))), Some(Index)) else Client(false, None, None))
  }

  lemma TheMapOfAll(f: map<Dist, Origin>, g: map<Dist, Origin>)
    requires Contract in f && Boundary in f && ControlPlane in f && Contract in g && Boundary in g && ControlPlane in g
    requires f[Contract] == g[Contract] && f[Boundary] == g[Boundary] && f[ControlPlane] == g[ControlPlane]
    ensures f == g
  {
    forall x: Dist ensures x in f && x in g && f[x] == g[x] {
      match x
      case Contract =>
      case Boundary =>
      case ControlPlane =>
    }
  }

  lemma TheCheckoutsLeave(ch: Choices, n: nat, j: Job)
    requires ch.installMain.Delivers?
    ensures InstallFromCheckouts(ch, n, j).disk == j.disk.(main := Main(Everything(Origin(Checkouts, n)), Some(Checkouts)))
  {
    var m := j.disk.main.(record := None);
    TheMapOfAll(InstalledMain(m, ch.installMain, true, Origin(Checkouts, n)).held, Everything(Origin(Checkouts, n)));
  }

  lemma TheIndexLeaves(ch: Choices, n: nat, j: Job)
    requires ch.installMain.Delivers?
    ensures InstallFromIndex(ch, n, j).disk ==
            j.disk.(main := Main(FromTheIndex(j.disk.main, Origin(Index, n)), Some(Index)))
  {
    var m, o := j.disk.main, Origin(Index, n);
    TheMapOfAll(InstalledMain(m.(record := None), ch.installMain, m.record != Some(Index), o).held, FromTheIndex(m, o));
  }

  lemma TheCommandLeaves(ch: Choices, n: nat, j: Job)
    requires j.exit.None? && !RefusesClient(ch, j.disk) && j.disk.client.made
    ensures CommandFromIndex(ch, n, j).disk ==
            j.disk.(client := if ch.installClient.Delivers?
                    then Client(true, Some(CommandOfTheIndex(j.disk.client, Origin(Index, n))), Some(Index)) else NO_CLIENT)
  {
  }

  lemma ACheckoutsRunLeavesWhat(w: Wish, ch: Choices, n: nat, d: Disk)
    requires Acceptable(w) && w.contract.Named? && CommonWorks(ch) && CheckoutsWork(w, ch)
    ensures BeforeReducing(w, ch, n, d).disk == GreenLeaves(w, ch, n, d) && BeforeReducing(w, ch, n, d).mode.Full?
  {
    AnAcceptableRunIsNotRefused(w);
    var j0 := Attempt(Decide(w, d), ch.prepare);
    assert j0 == Decide(w, d);
    var j1 := BuildCheckouts(w, ch, n, j0);
    assert j1.disk == d.(client := GreenLeaves(w, ch, n, d).client) && j1.exit.None? && j1.route == Some(Checkouts);
    assert InstallMain(ch, n, j1) == InstallFromCheckouts(ch, n, j1);
    TheCheckoutsLeave(ch, n, j1);
    AfterCheckouts(w, ch, n, d);
    FindingKeepsTheMode(ch, n, Attempt(Attempt(InstallMain(ch, n, j1), ch.installDev), ch.installSelf));
  }

  lemma AnIndexRunLeavesWhat(w: Wish, ch: Choices, n: nat, d: Disk)
    requires Acceptable(w) && w.contract.Unnamed? && CommonWorks(ch) && IndexWorks(w, ch, d)
    ensures BeforeReducing(w, ch, n, d).disk == GreenLeaves(w, ch, n, d) && BeforeReducing(w, ch, n, d).mode.Full?
  {
    AnAcceptableRunIsNotRefused(w);
    BareRunsGoStraightToTheIndex(w, ch, n, d);
    var j1 := Attempt(Attempt(Attempt(Decide(w, d), ch.prepare), ch.makeMain), ch.readPins);
    var j2 := InstallFromIndex(ch, n, j1);
    TheIndexLeaves(ch, n, j1);
    FallingBackExactlyWhen(ch, n, j1);
    assert j2.exit.None? && Attempt(Attempt(j2, ch.installDev), ch.installSelf) == j2;
    FindingTheCommand(ch, n, j2);
    var j3 := WithAClient(ch, j2);
    assert j3.exit.None? && j3.disk == j2.disk.(client := d.client.(made := true)) && j3.mode == j2.mode;
    TheCommandLeaves(ch, n, j3);
    FindingKeepsTheMode(ch, n, j2);
  }

  lemma AReducedRunLeavesWhat(w: Wish, ch: Choices, n: nat, d: Disk)
    requires Acceptable(w) && CommonWorks(ch) && RemovalWorks(w, ch, d)
    ensures Reduce(ch, BeforeReducing(w, ch, n, d)).disk == NEW_DISK
  {
    var j := BeforeReducing(w, ch, n, d);
    AnAcceptableRunIsNotRefused(w);
    ReachingTheRemoval(w, ch, n, d);
    RemovingGoesThroughExactlyWhen(ch, OPEN_DISTRIBUTIONS, j);
    ReducingInTwoParts(ch, j);
    var held := Remove(ch, OPEN_DISTRIBUTIONS, j).disk.main.held;
    forall x: Dist ensures x !in held {
      EveryDistributionIsOpen(x);
      TheLoopRemovesIt(ch, OPEN_DISTRIBUTIONS, j, x);
    }
    assert held == map[];
  }

  /** A green run that was not forged leaves exactly this disk: everything by its route and
      recorded as its route's, what the index delivered before left as it was; or nothing. */
  lemma AGreenRunLeaves(w: Wish, ch: Choices, n: nat, d: Disk)
    requires FullGreen(w, ch, d) || ReducedGreen(w, ch, d)
    ensures Execute(w, ch, n, d).disk == GreenLeaves(w, ch, n, d)
  {
    var j := BeforeReducing(w, ch, n, d);
    if w.contract.Named? { ACheckoutsRunLeavesWhat(w, ch, n, d); }
    else if IndexWorks(w, ch, d) { AnIndexRunLeavesWhat(w, ch, n, d); }
    else { AReducedRunLeavesWhat(w, ch, n, d); }
    ConcludingTouchesNothing(w, ch, Reduce(ch, j));
  }

  /** A plain run that refuses to reduce an environment a checkouts run built says so and
      leaves the whole disk as it found it. */
  lemma RefusingToReduceLeavesEverything(w: Wish, ch: Choices, n: nat, d: Disk)
    requires Acceptable(w) && w.contract.Unnamed? && w.index.Yes?
    requires ch.prepare.Ok? && ch.makeMain.Ok? && ch.readPins.Ok? && RefusesMain(ch, d)
    ensures Execute(w, ch, n, d).exit == Some(1) && Execute(w, ch, n, d).disk == d
  {
    AnAcceptableRunIsNotRefused(w);
    BareRunsGoStraightToTheIndex(w, ch, n, d);
    var j1 := Attempt(Attempt(Attempt(Decide(w, d), ch.prepare), ch.makeMain), ch.readPins);
    var j2 := InstallFromIndex(ch, n, j1);
    assert j2.exit == Some(1) && j2.disk == d;
    AStoppedRunIsStopped(ch, n, j2);
    assert BeforeReducing(w, ch, n, d) == j2;
    assert Conclude(w, ch, j2) == j2;
  }

  /** The same for the command, beside distributions the index delivered. */
  lemma RefusingToRemoveTheCommandLeavesIt(w: Wish, ch: Choices, n: nat, d: Disk)
    requires Acceptable(w) && w.contract.Unnamed? && w.index.Yes? && CommonWorks(ch)
    requires ch.installMain.Delivers? && ch.contractPinned && d.client.made && RefusesClient(ch, d)
    ensures Execute(w, ch, n, d).exit == Some(1)
    ensures Execute(w, ch, n, d).disk == d.(main := Main(FromTheIndex(d.main, Origin(Index, n)), Some(Index)))
  {
    AnAcceptableRunIsNotRefused(w);
    BareRunsGoStraightToTheIndex(w, ch, n, d);
    var j1 := Attempt(Attempt(Attempt(Decide(w, d), ch.prepare), ch.makeMain), ch.readPins);
    var j2 := InstallFromIndex(ch, n, j1);
    TheIndexLeaves(ch, n, j1);
    FallingBackExactlyWhen(ch, n, j1);
    assert Attempt(Attempt(j2, ch.installDev), ch.installSelf) == j2;
    FindingTheCommand(ch, n, j2);
    var j := CommandFromIndex(ch, n, j2);
    assert j.exit == Some(1) && j.disk == j2.disk;
    assert BeforeReducing(w, ch, n, d) == j;
    AStoppedRunIsStopped(ch, n, j);
    assert Conclude(w, ch, j) == j;
  }

  // -- Exactly what a kill inside a command can leave ---------------------------

  /** A kill inside the removal of the command's directory can leave any part of it, and
      nothing but a part of it. */
  lemma AnyPartCanBeLeft(cl: Client, part: Client)
    requires part != cl && part != NO_CLIENT
    ensures part in PartsOf(cl) <==>
            && (part.made == cl.made || !part.made) && (part.command == cl.command || part.command.None?)
            && (part.record == cl.record || part.record.None?)
  {
    var made, bare := cl.(made := cl.made), cl.(made := false);
    assert PartsOf(cl)[0] == made.(command := None) && PartsOf(cl)[1] == made.(record := None);
    assert PartsOf(cl)[2] == made.(command := None, record := None);
    assert PartsOf(cl)[3] == bare && PartsOf(cl)[4] == bare.(command := None) && PartsOf(cl)[5] == bare.(record := None);
  }

  /** Any of the distributions replaced, any of them lost, and no route on record. */
  function Mixture(m: Main, half: HalfMain, o: Origin): Main {
    Main(map d: Dist | d !in half.lost && (d in half.replaced || d in m.held) :: if d in half.replaced then o else m.held[d], None)
  }

  lemma AMixtureIsHalfInstalled(m: Main, half: HalfMain, o: Origin)
    ensures HalfInstalledMain(m.(record := None), half, o) == Mixture(m, half, o)
  {
  }

  lemma AnInstallCanBeKilledInside(ch: Choices, j: Job, reinstall: bool, o: Origin)
    ensures j.disk.(main := HalfInstalledMain(j.disk.main, ch.halfMain, o)) in InstallInMain(ch, j, reinstall, o).within
  {
    assert InstallInMain(ch, j, reinstall, o).within[|j.within|] == j.disk.(main := HalfInstalledMain(j.disk.main, ch.halfMain, o));
  }

  /** A green run by either route can be killed inside its install of the distributions, with
      any mixture left: importable or not, and unrecorded. */
  lemma AKillCanLeaveAnyMixture(w: Wish, ch: Choices, n: nat, d: Disk)
    requires Acceptable(w) && CommonWorks(ch)
    requires if w.contract.Named? then CheckoutsWork(w, ch) else IndexWorks(w, ch, d)
    ensures exists k :: Left(Execute(w, ch, n, d), Inside(k)).main ==
                        Mixture(d.main, ch.halfMain, Origin(if w.contract.Named? then Checkouts else Index, n))
  {
    AnAcceptableRunIsNotRefused(w);
    var o := Origin(if w.contract.Named? then Checkouts else Index, n);
    var j1 := BuildCheckouts(w, ch, n, Attempt(Decide(w, d), ch.prepare));
    assert j1.disk.main == d.main && j1.exit.None? && j1.route == Some(o.route);
    var unrecorded := TouchMain(j1, j1.disk.main.(record := None));
    var reinstall := w.contract.Named? || d.main.record != Some(Index);
    var mixed := unrecorded.disk.(main := HalfInstalledMain(unrecorded.disk.main, ch.halfMain, o));
    AnInstallCanBeKilledInside(ch, unrecorded, reinstall, o);
    AMixtureIsHalfInstalled(d.main, ch.halfMain, o);
    assert mixed in InstallMain(ch, n, j1).within;
    TheInstallIsNotForgotten(w, ch, n, d);
    var within := Execute(w, ch, n, d).within;
    assert mixed in within;
    var k :| 0 <= k < |within| && within[k] == mixed;
    assert Left(Execute(w, ch, n, d), Inside(k)) == mixed;
  }

  /** What an install can leave is still among what the run can leave. */
  lemma TheInstallIsNotForgotten(w: Wish, ch: Choices, n: nat, d: Disk)
    ensures InstallMain(ch, n, BuildCheckouts(w, ch, n, Attempt(Decide(w, d), ch.prepare))).within <= Execute(w, ch, n, d).within
  {
    var j2 := InstallMain(ch, n, BuildCheckouts(w, ch, n, Attempt(Decide(w, d), ch.prepare)));
    var j3 := Attempt(Attempt(j2, ch.installDev), ch.installSelf);
    assert j3.within == j2.within;
    FindingExtends(ch, n, j3);
    ReducingExtends(ch, BeforeReducing(w, ch, n, d));
    ConcludingTouchesNothing(w, ch, Reduce(ch, BeforeReducing(w, ch, n, d)));
  }

  lemma FindingExtends(ch: Choices, n: nat, j: Job)
    ensures j.within <= ClientFromIndex(ch, n, j).within
  {
    if j.exit.None? && j.route == Some(Index) && ch.contractPinned { FindingTheCommand(ch, n, j); }
  }
}
