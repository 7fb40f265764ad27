/** What an exit of the gate means, and what a plain run never removes. */
module GateOutcomes {
  import opened Options
  import opened Gate
  import opened GateProofs

  // -- What an exit means -------------------------------------------------------

  /** Every distribution is there and route `r` put it there; by checkouts, this very run. */
  predicate DeliveredBy(m: Main, r: Route, n: nat) {
    Importable(m) && forall d :: d in m.held ==> m.held[d].route == r && (r == Checkouts ==> m.held[d].run == n)
  }

  predicate CommandBy(cl: Client, r: Route, n: nat) {
    cl.command.Some? && cl.command.value.route == r && (r == Checkouts ==> cl.command.value.run == n)
  }

  /** A status set before the end is neither of the two green ones. */
  predicate NotGreen(j: Job) {
    j.exit.Some? ==> j.exit.value != FULL_GREEN && j.exit.value != REDUCED_GREEN
  }

  /** The reading of a checkout, which is done inside a shell function, fails with the reserved
      status: the one failure the trap does not see and so does not turn into another. */
  predicate Forged(w: Wish, ch: Choices) {
    && Refusal(w).None? && w.contract.Named? && ch.prepare.Ok?
    && (|| ch.readContract == Failed(REDUCED_GREEN)
        || (ch.readContract.Ok? && ch.build.Ok? && w.client.Named? && ch.readClient == Failed(REDUCED_GREEN)))
  }

  /** A full run still going has the distributions by its route, and the command by its route
      exactly when it says so. */
  predicate Earned(j: Job, n: nat) {
    && NotGreen(j)
    && (j.exit.None? && j.mode.Full? ==>
          && j.route.Some? && DeliveredBy(j.disk.main, j.route.value, n)
          && (if j.clientBuilt then CommandBy(j.disk.client, j.route.value, n) else j.disk.client.command.None?))
    && (j.exit.None? && j.mode.Reduced? ==> !Importable(j.disk.main) && j.disk.client == NO_CLIENT)
  }

  predicate MainEarned(j: Job, n: nat) {
    && NotGreen(j)
    && (j.exit.None? && j.mode.Full? ==> j.route.Some? && DeliveredBy(j.disk.main, j.route.value, n))
    && (j.exit.None? && j.route == Some(Checkouts) ==> CheckoutsClient(j, n))
    && (j.route == Some(Index) ==> !j.clientBuilt)
    && (j.mode.Full? <==> j.route.Some?)
  }

  predicate CheckoutsClient(j: Job, n: nat) {
    if j.clientBuilt then CommandBy(j.disk.client, Checkouts, n) else j.disk.client.command.None?
  }

  predicate BuildEarned(j: Job, n: nat) {
    && NotGreen(j)
    && (j.exit.None? && j.route == Some(Checkouts) ==> CheckoutsClient(j, n))
    && (j.route == Some(Index) ==> !j.clientBuilt)
    && (j.mode.Full? <==> j.route.Some?)
  }

  lemma ACheckoutIsEarned(ch: Choices, n: nat, j: Job)
    requires NotGreen(j) && j.route == Some(Checkouts) && j.mode.Full?
    ensures BuildEarned(ClientFromCheckout(ch, n, j), n)
  {
  }

  lemma BuildingIsEarned(w: Wish, ch: Choices, n: nat, d: Disk)
    requires !Forged(w, ch)
    ensures BuildEarned(BuildCheckouts(w, ch, n, Attempt(Decide(w, d), ch.prepare)), n)
  {
    var j := Attempt(Decide(w, d), ch.prepare);
    if j.exit.None? && w.contract.Named? {
      var built := Attempt(AttemptInFunction(j, ch.readContract), ch.build);
      var made := Attempt(Attempt(AttemptInFunction(built, ch.readClient), ch.buildClient), ch.makeClient);
      if built.exit.None? && w.client.Named? && made.exit.None? { ACheckoutIsEarned(ch, n, made); }
    }
  }

  lemma CheckoutsAreEarned(ch: Choices, n: nat, j: Job)
    requires BuildEarned(j, n) && j.exit.None? && j.route == Some(Checkouts)
    ensures MainEarned(InstallFromCheckouts(ch, n, j), n)
  {
  }

  lemma TheIndexIsEarned(ch: Choices, n: nat, j: Job)
    requires BuildEarned(j, n) && j.exit.None? && j.route == Some(Index) && RecordsTrue(j.disk)
    ensures MainEarned(InstallFromIndex(ch, n, j), n)
  {
    TheIndexBracket(j.disk.main, ch.installMain, Origin(Index, n));
    FallingBackExactlyWhen(ch, n, j);
  }

  lemma InstallingIsEarned(ch: Choices, n: nat, j: Job)
    requires BuildEarned(j, n) && RecordsTrue(j.disk)
    ensures MainEarned(InstallMain(ch, n, j), n)
  {
    var j' := Attempt(Attempt(j, ch.makeMain), ch.readPins);
    if j'.exit.None? && j'.route == Some(Checkouts) {
      CheckoutsAreEarned(ch, n, j');
    } else if j'.exit.None? && j'.route == Some(Index) {
      TheIndexIsEarned(ch, n, j');
    }
  }

  lemma ACommandIsEarned(ch: Choices, n: nat, j: Job)
    requires MainEarned(j, n) && RecordsTrue(j.disk) && j.exit.None? && j.route == Some(Index)
    ensures Earned(CommandFromIndex(ch, n, j), n)
  {
  }

  lemma FindingTheCommandIsEarned(ch: Choices, n: nat, j: Job)
    requires MainEarned(j, n) && RecordsTrue(j.disk)
    ensures var j' := ClientFromIndex(ch, n, j);
            j'.mode.Full? ==> Earned(j', n)
    ensures NotGreen(ClientFromIndex(ch, n, j))
  {
    if j.exit.None? && j.route == Some(Index) && ch.contractPinned {
      FindingTheCommand(ch, n, j);
      var j' := WithAClient(ch, j);
      if j'.exit.None? { ACommandIsEarned(ch, n, j'); }
    }
  }

  lemma {:induction false} RemovingIsNotGreen(ch: Choices, ds: seq<Dist>, j: Job)
    requires NotGreen(j)
    ensures NotGreen(Remove(ch, ds, j)) && Remove(ch, ds, j).mode == j.mode
    decreases |ds|
  {
    if ds != [] && j.exit.None? {
      if ds[0] !in j.disk.main.held {
        RemovingIsNotGreen(ch, ds[1..], j);
      } else if ch.uninstall(ds[0]).Ok? {
        RemovingIsNotGreen(ch, ds[1..], Without(j, ds[0]));
      }
    }
  }

  lemma ReducingIsEarned(ch: Choices, n: nat, j: Job)
    requires NotGreen(j) && (j.mode.Full? ==> Earned(j, n))
    ensures Earned(Reduce(ch, j), n)
  {
    if j.exit.None? && j.mode.Reduced? {
      RemovingIsNotGreen(ch, OPEN_DISTRIBUTIONS, j);
    }
  }

  lemma BuiltAndInstalledIsEarned(w: Wish, ch: Choices, n: nat, d: Disk)
    requires RecordsTrue(d) && !Forged(w, ch)
    ensures var j := InstallMain(ch, n, BuildCheckouts(w, ch, n, Attempt(Decide(w, d), ch.prepare)));
            MainEarned(j, n) && RecordsTrue(j.disk)
  {
    var j0 := Attempt(Decide(w, d), ch.prepare);
    assert Everywhere(j0, TRUE);
    BuildingIsEarned(w, ch, n, d);
    BuildingKeepsRecordsTrue(w, ch, n, j0);
    var j1 := BuildCheckouts(w, ch, n, j0);
    InstallingIsEarned(ch, n, j1);
    InstallMainKeepsRecordsTrue(ch, n, j1);
  }

  lemma AttemptingKeepsWhatIsEarned(j: Job, done: Done, n: nat)
    requires MainEarned(j, n)
    ensures MainEarned(Attempt(j, done), n) && Attempt(j, done).disk == j.disk
  {
  }

  /** A run that gets as far as its checks has earned its environments; a forged status ends
      the run before it has touched either. */
  lemma EnvironmentsAreEarned(w: Wish, ch: Choices, n: nat, d: Disk)
    requires RecordsTrue(d)
    ensures var j := Reduce(ch, BeforeReducing(w, ch, n, d));
            if Forged(w, ch) then j.exit == Some(REDUCED_GREEN) && j.disk == d && j.past == [] else Earned(j, n)
  {
    if Forged(w, ch) {
      AForgedRunTouchesNothing(w, ch, n, d);
    } else {
      BuiltAndInstalledIsEarned(w, ch, n, d);
      var j := InstallMain(ch, n, BuildCheckouts(w, ch, n, Attempt(Decide(w, d), ch.prepare)));
      AttemptingKeepsWhatIsEarned(j, ch.installDev, n);
      AttemptingKeepsWhatIsEarned(Attempt(j, ch.installDev), ch.installSelf, n);
      FindingTheCommandIsEarned(ch, n, Attempt(Attempt(j, ch.installDev), ch.installSelf));
      ReducingIsEarned(ch, n, BeforeReducing(w, ch, n, d));
    }
  }

  lemma AForgedRunTouchesNothing(w: Wish, ch: Choices, n: nat, d: Disk)
    requires Forged(w, ch)
    ensures var j := BeforeReducing(w, ch, n, d); j.exit == Some(REDUCED_GREEN) && j.disk == d && j.past == []
  {
    var j0 := Attempt(Decide(w, d), ch.prepare);
    var j1 := BuildCheckouts(w, ch, n, j0);
    assert j1 == Exit(j0, REDUCED_GREEN);
    assert BeforeReducing(w, ch, n, d) == j1;
  }

  // -- No command of a green run failed -----------------------------------------

  /** Every command a run of this kind cannot do without did its work. The index may fail to
      deliver: that makes the run a reduced one. */
  predicate NothingFailed(w: Wish, ch: Choices) {
    && ch.prepare.Ok? && ch.makeMain.Ok? && ch.readPins.Ok? && ch.installDev.Ok? && ch.installSelf.Ok?
    && (w.contract.Named? ==> ch.readContract.Ok? && ch.build.Ok? && ch.installMain.Delivers?)
    && (w.client.Named? ==> ch.readClient.Ok? && ch.buildClient.Ok? && ch.makeClient.Ok? && ch.installClient.Delivers?)
    && (w.argument != EnvironmentOnly ==> ch.format.Ok? && ch.lint.Ok? && ch.tests.Ok?)
  }

  lemma AStoppedRunIsStopped(ch: Choices, n: nat, j: Job)
    ensures j.exit.Some? ==> InstallMain(ch, n, j) == j && ClientFromIndex(ch, n, j) == j && Reduce(ch, j) == j
    ensures InstallMain(ch, n, j).exit.None? ==>
              && ch.makeMain.Ok? && ch.readPins.Ok?
              && (j.route == Some(Checkouts) ==> ch.installMain.Delivers?)
  {
  }

  lemma ABuiltRunBuilt(w: Wish, ch: Choices, n: nat, d: Disk)
    ensures var j := BuildCheckouts(w, ch, n, Attempt(Decide(w, d), ch.prepare));
            j.exit.None? ==>
              && Refusal(w).None? && ch.prepare.Ok? && (w.contract.Named? <==> j.route == Some(Checkouts))
              && (w.contract.Named? ==> ch.readContract.Ok? && ch.build.Ok?)
              && (w.client.Named? ==> ch.readClient.Ok? && ch.buildClient.Ok? && ch.makeClient.Ok? && ch.installClient.Delivers?)
  {
  }

  lemma ARunStillGoingFailedNothing(w: Wish, ch: Choices, n: nat, d: Disk)
    requires Reduce(ch, BeforeReducing(w, ch, n, d)).exit.None?
    ensures NothingFailed(w.(argument := EnvironmentOnly), ch)
  {
    var j1 := BuildCheckouts(w, ch, n, Attempt(Decide(w, d), ch.prepare));
    var j2 := InstallMain(ch, n, j1);
    var j3 := Attempt(Attempt(j2, ch.installDev), ch.installSelf);
    AStoppedRunIsStopped(ch, n, j1);
    AStoppedRunIsStopped(ch, n, j3);
    AStoppedRunIsStopped(ch, n, ClientFromIndex(ch, n, j3));
    ABuiltRunBuilt(w, ch, n, d);
  }

  /** What the test run recorded: nothing stood down, or something did and some ran. */
  predicate NothingStoodDown(r: Option<Report>) {
    r.Some? && r.value.checks == 0
  }

  predicate SomethingStoodDownAndSomethingRan(r: Option<Report>) {
    r.Some? && r.value.checks >= 1 && r.value.present > r.value.modules
  }

  /** What each green exit of a run says about its commands, the environments and the checks. */
  predicate GreenMeans(w: Wish, ch: Choices, n: nat, j: Job) {
    && (j.exit == Some(FULL_GREEN) ==>
          && NothingFailed(w, ch)
          && j.mode.Full? && j.route.Some? && DeliveredBy(j.disk.main, j.route.value, n)
          && (w.argument != EnvironmentOnly ==>
                j.clientBuilt && CommandBy(j.disk.client, j.route.value, n) && NothingStoodDown(ch.report)))
    && (j.exit == Some(REDUCED_GREEN) ==>
          && NothingFailed(w, ch)
          && j.disk.client.command.None?
          && (j.mode.Reduced? ==> !Importable(j.disk.main))
          && (j.mode.Full? ==> !j.clientBuilt && j.route.Some? && DeliveredBy(j.disk.main, j.route.value, n))
          && (w.argument != EnvironmentOnly ==> SomethingStoodDownAndSomethingRan(ch.report)))
  }

  lemma ConcludingIsEarned(w: Wish, ch: Choices, n: nat, j: Job)
    requires Earned(j, n) && (j.exit.None? ==> NothingFailed(w.(argument := EnvironmentOnly), ch))
    ensures GreenMeans(w, ch, n, Conclude(w, ch, j))
  {
    var j' := Attempt(Attempt(Attempt(j, ch.format), ch.lint), ch.tests);
    assert NotGreen(j') && (j'.exit.None? ==> j' == j && ch.format.Ok? && ch.lint.Ok? && ch.tests.Ok?);
  }

  /** On any disk earlier runs could leave, a green exit means what it says, exactly unless the
      reserved status was forged: full green had nothing stood down and its route put
      everything there; reduced green lacked what it names, counted what stood down for it,
      and ran something; and no command of either failed. */
  lemma GreenIsEarned(w: Wish, ch: Choices, runs: seq<Attempted>)
    ensures GreenMeans(w, ch, |runs|, Execute(w, ch, |runs|, DiskAfter(runs))) <==> !Forged(w, ch)
  {
    var d, n := DiskAfter(runs), |runs|;
    var j := Reduce(ch, BeforeReducing(w, ch, n, d));
    EveryRecordIsTrue(runs);
    EnvironmentsAreEarned(w, ch, n, d);
    if Forged(w, ch) {
      assert Conclude(w, ch, j) == j;
    } else {
      if j.exit.None? { ARunStillGoingFailedNothing(w, ch, n, d); }
      ConcludingIsEarned(w, ch, n, j);
    }
  }

  // -- What a plain run never removes -------------------------------------------

  /** A run that names no checkout and accepts the index. */
  predicate Bare(w: Wish) {
    w.contract.Unnamed? && w.client.Unnamed? && w.index.Yes?
  }

  predicate Usable(d: Disk) {
    Importable(d.main) && d.client.command.Some?
  }

  const USABLE := (d: Disk) => Usable(d)

  predicate BothRecorded(d: Disk) {
    d.main.record.Some? && d.client.record.Some?
  }

  /** Both environments recorded, truly, and usable. */
  predicate InUse(d: Disk) {
    RecordsTrue(d) && BothRecorded(d) && Usable(d)
  }

  /** The pins are the ones the index delivered before, so an index install that is already
      satisfied succeeds; and an install that fails resolved nothing and touched nothing. */
  predicate PinsFixed(ch: Choices, d: Disk) {
    && !ch.installMain.Wrecks? && !ch.installClient.Wrecks?
    && (d.main.record == Some(Index) ==> ch.installMain.Delivers?)
    && (d.client.record == Some(Index) ==> ch.installClient.Delivers?)
  }

  /** What is there is what was there, or the index's own copy. */
  predicate KeptOrReplaced(before: Disk, after: Disk) {
    && (forall d :: d in before.main.held && d in after.main.held ==>
          after.main.held[d] == before.main.held[d] || after.main.held[d].route == Index)
    && (before.client.command.Some? && after.client.command.Some? ==>
          after.client.command == before.client.command || after.client.command.value.route == Index)
  }

  lemma ARecordNamesARoute(record: Option<Route>)
    requires record.Some?
    ensures record == Some(Index) || record == Some(Checkouts)
  {
    match record.value
    case Index =>
    case Checkouts =>
  }

  lemma InstallingMainKeepsUsable(ch: Choices, j: Job, reinstall: bool, o: Origin)
    requires BetweenCommands(j, USABLE) && !ch.installMain.Wrecks?
    ensures BetweenCommands(InstallInMain(ch, j, reinstall, o), USABLE)
  {
    var half := j.disk.(main := HalfInstalledMain(j.disk.main, ch.halfMain, o));
    InterruptingKeeps(j, [half], USABLE);
    TouchingKeeps(Amid(j, [half]), j.disk.(main := InstalledMain(j.disk.main, ch.installMain, reinstall, o)), USABLE);
  }

  lemma InstallingTheCommandKeepsUsable(ch: Choices, j: Job, reinstall: bool, o: Origin)
    requires BetweenCommands(j, USABLE) && !ch.installClient.Wrecks?
    ensures BetweenCommands(InstallInClient(ch, j, reinstall, o), USABLE)
  {
    var half := j.disk.(client := HalfInstalledClient(j.disk.client, ch.halfClient, o));
    InterruptingKeeps(j, [half], USABLE);
    TouchingKeeps(Amid(j, [half]), j.disk.(client := InstalledClient(j.disk.client, ch.installClient, reinstall, o)), USABLE);
  }

  lemma TheIndexKeepsUsable(ch: Choices, n: nat, j: Job)
    requires BetweenCommands(j, USABLE) && j.disk.main.record.Some? && PinsFixed(ch, j.disk)
    ensures BetweenCommands(InstallFromIndex(ch, n, j), USABLE)
  {
    var m, o := j.disk.main, Origin(Index, n);
    var j1 := TouchMain(j, m.(record := None));
    TouchingKeeps(j, j1.disk, USABLE);
    InstallingMainKeepsUsable(ch, j1, m.record != Some(Index), o);
    var j2 := InstallInMain(ch, j1, m.record != Some(Index), o);
    TouchingKeeps(j2, j2.disk.(main := j2.disk.main.(record := Some(Index))), USABLE);
    TouchingKeeps(j2, j2.disk.(main := j2.disk.main.(record := Some(Checkouts))), USABLE);
    ARecordNamesARoute(m.record);
  }

  lemma BareInstallsKeep(ch: Choices, n: nat, j: Job)
    requires InUse(j.disk) && PinsFixed(ch, j.disk) && BetweenCommands(j, USABLE)
    requires j.exit.None? && j.mode.Full? && j.route == Some(Index)
    ensures var j' := InstallFromIndex(ch, n, j);
            && BetweenCommands(j', USABLE) && j'.mode.Full? && j'.route == Some(Index) && j'.disk.client == j.disk.client
            && InUse(j'.disk) && KeptOrReplaced(j.disk, j'.disk)
  {
    TheIndexKeepsUsable(ch, n, j);
    TheIndexBracket(j.disk.main, ch.installMain, Origin(Index, n));
  }

  lemma TheCommandKeepsUsable(ch: Choices, n: nat, j: Job)
    requires BetweenCommands(j, USABLE) && j.disk.client.record.Some? && !ch.installClient.Wrecks?
    requires j.disk.client.record == Some(Index) ==> ch.installClient.Delivers?
    ensures BetweenCommands(CommandFromIndex(ch, n, j), USABLE)
  {
    var cl, o := j.disk.client, Origin(Index, n);
    var j1 := TouchClient(j, cl.(record := None));
    TouchingKeeps(j, j1.disk, USABLE);
    InstallingTheCommandKeepsUsable(ch, j1, cl.record != Some(Index), o);
    var j2 := InstallInClient(ch, j1, cl.record != Some(Index), o);
    TouchingKeeps(j2.(clientBuilt := true), j2.disk.(client := j2.disk.client.(record := Some(Index))), USABLE);
    TouchingKeeps(j2, j2.disk.(client := j2.disk.client.(record := Some(Checkouts))), USABLE);
    ARecordNamesARoute(cl.record);
  }

  lemma BareCommandsKeep(ch: Choices, n: nat, j: Job)
    requires InUse(j.disk) && BetweenCommands(j, USABLE) && !ch.installClient.Wrecks?
    requires j.disk.client.record == Some(Index) ==> ch.installClient.Delivers?
    ensures var j' := CommandFromIndex(ch, n, j);
            && BetweenCommands(j', USABLE) && j'.mode == j.mode && InUse(j'.disk)
            && j'.disk.main == j.disk.main && KeptOrReplaced(j.disk, j'.disk)
  {
    TheCommandKeepsUsable(ch, n, j);
    ARecordNamesARoute(j.disk.client.record);
  }

  lemma BareClientsKeep(ch: Choices, n: nat, j: Job)
    requires InUse(j.disk) && BetweenCommands(j, USABLE) && !ch.installClient.Wrecks?
    requires j.disk.client.record == Some(Index) ==> ch.installClient.Delivers?
    ensures var j' := ClientFromIndex(ch, n, j);
            BetweenCommands(j', USABLE) && j'.mode == j.mode && InUse(j'.disk) && KeptOrReplaced(j.disk, j'.disk)
  {
    if j.exit.None? && j.route == Some(Index) && ch.contractPinned {
      FindingTheCommand(ch, n, j);
      MakingTheClientKeepsUsable(ch, j);
      var j' := WithAClient(ch, j);
      if j'.exit.None? { BareCommandsKeep(ch, n, j'); }
    }
  }

  lemma MakingTheClientKeepsUsable(ch: Choices, j: Job)
    requires InUse(j.disk) && BetweenCommands(j, USABLE)
    ensures var j' := WithAClient(ch, j);
            && BetweenCommands(j', USABLE) && InUse(j'.disk) && j'.mode == j.mode
            && j'.disk.(client := j'.disk.client.(made := j.disk.client.made)) == j.disk
  {
    TouchingKeeps(Attempt(j, ch.makeClient), j.disk.(client := j.disk.client.(made := true)), USABLE);
  }

  /** A completed plain run keeps both environments in use, each under its true record, and
      between no two of its commands is either thing missing. */
  lemma ABareRunKeepsBoth(w: Wish, ch: Choices, n: nat, d: Disk)
    requires Bare(w) && InUse(d) && PinsFixed(ch, d)
    ensures var j := Execute(w, ch, n, d);
            BetweenCommands(j, USABLE) && InUse(j.disk) && KeptOrReplaced(d, j.disk)
  {
    var j1 := Attempt(Attempt(Attempt(Decide(w, d), ch.prepare), ch.makeMain), ch.readPins);
    var j := BeforeReducing(w, ch, n, d);
    BareRunsGoStraightToTheIndex(w, ch, n, d);
    assert j1.past == [] && j1.disk == d;
    if j1.exit.None? {
      BareInstallsKeep(ch, n, j1);
      var j2 := InstallFromIndex(ch, n, j1);
      var j3 := Attempt(Attempt(j2, ch.installDev), ch.installSelf);
      assert j3.disk == j2.disk && j3.past == j2.past;
      BareClientsKeep(ch, n, j3);
      KeepingOnIsKeeping(d, j3.disk, j.disk);
    }
    assert Reduce(ch, j) == j;
    ConcludingTouchesNothing(w, ch, j);
  }

  /** Completed runs one after another, the first of them numbered `n`. */
  function DiskAfterCompleted(runs: seq<(Wish, Choices)>, n: nat, d: Disk): Disk
    decreases |runs|
  {
    if runs == [] then d else DiskAfterCompleted(runs[1..], n + 1, Execute(runs[0].0, runs[0].1, n, d).disk)
  }

  /** Every run is plain and meets fixed pins on the disk it finds. */
  ghost predicate AllBare(runs: seq<(Wish, Choices)>, n: nat, d: Disk)
    decreases |runs|
  {
    runs != [] ==>
      && Bare(runs[0].0) && PinsFixed(runs[0].1, d)
      && AllBare(runs[1..], n + 1, Execute(runs[0].0, runs[0].1, n, d).disk)
  }

  lemma KeepingOnIsKeeping(d0: Disk, d1: Disk, d2: Disk)
    requires InUse(d1) && KeptOrReplaced(d0, d1) && KeptOrReplaced(d1, d2)
    ensures KeptOrReplaced(d0, d2)
  {
    forall d | d in d0.main.held && d in d2.main.held
      ensures d2.main.held[d] == d0.main.held[d] || d2.main.held[d].route == Index
    {
      assert d in d1.main.held by { assert d == Contract || d == Boundary || d == ControlPlane; }
    }
  }

  /** No sequence of completed plain runs removes the distributions or the command. */
  lemma {:induction false} BareRunsRemoveNothing(runs: seq<(Wish, Choices)>, n: nat, d: Disk)
    requires InUse(d) && AllBare(runs, n, d)
    ensures InUse(DiskAfterCompleted(runs, n, d)) && KeptOrReplaced(d, DiskAfterCompleted(runs, n, d))
    decreases |runs|
  {
    if runs != [] {
      ABareRunKeepsBoth(runs[0].0, runs[0].1, n, d);
      TheRestRemoveNothing(runs, n, d, Execute(runs[0].0, runs[0].1, n, d).disk);
    }
  }

  lemma {:induction false} TheRestRemoveNothing(runs: seq<(Wish, Choices)>, n: nat, d: Disk, d': Disk)
    requires runs != [] && d' == Execute(runs[0].0, runs[0].1, n, d).disk
    requires AllBare(runs, n, d) && InUse(d') && KeptOrReplaced(d, d')
    ensures InUse(DiskAfterCompleted(runs, n, d)) && KeptOrReplaced(d, DiskAfterCompleted(runs, n, d))
    decreases |runs|, 0
  {
    BareRunsRemoveNothing(runs[1..], n + 1, d');
    KeepingOnIsKeeping(d, d', DiskAfterCompleted(runs[1..], n + 1, d'));
  }

  // -- Exactly when a plain run keeps both --------------------------------------

  /** The run ends before it installs anything. */
  predicate StopsEarly(w: Wish, ch: Choices) {
    Refusal(w).Some? || !ch.prepare.Ok? || !ch.makeMain.Ok? || !ch.readPins.Ok?
  }

  predicate StopsAfterMain(ch: Choices) {
    !ch.installDev.Ok? || !ch.installSelf.Ok?
  }

  /** The run stops before it opens the bracket around the command, or the index delivers it,
      or it is left untouched and a checkouts run is on record for it. */
  predicate KeepsTheCommand(ch: Choices, d: Disk) {
    || StopsAfterMain(ch) || !ch.contractPinned || (!d.client.made && !ch.makeClient.Ok?)
    || ch.installClient.Delivers? || (ch.installClient.TouchesNothing? && d.client.record == Some(Checkouts))
  }

  /** A checkouts run is on record for the distributions, or the run stops before it has
      removed one of them. */
  predicate KeepsTheDistributions(ch: Choices, d: Disk) {
    d.main.record == Some(Checkouts) || StopsAfterMain(ch) || !ch.uninstall(Contract).Ok?
  }

  predicate KeepsBoth(w: Wish, ch: Choices, d: Disk) {
    || StopsEarly(w, ch)
    || (ch.installMain.Delivers? && KeepsTheCommand(ch, d))
    || (ch.installMain.TouchesNothing? && KeepsTheDistributions(ch, d))
  }

  lemma ReplacingTheCommandKeepsIt(ch: Choices, n: nat, j: Job)
    requires j.exit.None? && j.mode.Full? && j.route == Some(Index) && Usable(j.disk)
    ensures var j' := ClientFromIndex(ch, n, j);
            && j'.mode.Full?
            && (Usable(j'.disk) <==>
                  || !ch.contractPinned || (!j.disk.client.made && !ch.makeClient.Ok?) || ch.installClient.Delivers?
                  || (ch.installClient.TouchesNothing? && j.disk.client.record == Some(Checkouts)))
  {
    if ch.contractPinned { FindingTheCommand(ch, n, j); }
  }

  lemma {:induction false} RemovingLeavesLess(ch: Choices, ds: seq<Dist>, j: Job)
    ensures Remove(ch, ds, j).disk.main.held.Keys <= j.disk.main.held.Keys
    decreases |ds|
  {
    if ds != [] && j.exit.None? {
      if ds[0] !in j.disk.main.held {
        RemovingLeavesLess(ch, ds[1..], j);
      } else if ch.uninstall(ds[0]).Ok? {
        RemovingLeavesLess(ch, ds[1..], Without(j, ds[0]));
      }
    }
  }

  /** A removal leaves the environments usable exactly when its first uninstall fails. */
  lemma ReducingKeepsThemExactlyWhen(ch: Choices, j: Job)
    requires j.exit.None? && j.mode.Reduced?
    ensures Usable(Reduce(ch, j).disk) <==> Usable(j.disk) && !ch.uninstall(Contract).Ok?
  {
    var removed := Remove(ch, OPEN_DISTRIBUTIONS, j);
    ReducingInTwoParts(ch, j);
    RemovingLeavesLess(ch, OPEN_DISTRIBUTIONS, j);
    RemovingGoesThroughExactlyWhen(ch, OPEN_DISTRIBUTIONS, j);
    if Contract in j.disk.main.held {
      if ch.uninstall(Contract).Ok? {
        assert removed == Remove(ch, OPEN_DISTRIBUTIONS[1..], Without(j, Contract));
        RemovingLeavesLess(ch, OPEN_DISTRIBUTIONS[1..], Without(j, Contract));
      } else {
        assert removed == Exit(j, Trapped(ch.uninstall(Contract).status));
      }
    }
  }

  lemma BareRunsGoStraightToTheIndex(w: Wish, ch: Choices, n: nat, d: Disk)
    requires Bare(w)
    ensures var j := Attempt(Attempt(Attempt(Decide(w, d), ch.prepare), ch.makeMain), ch.readPins);
            && j.disk == d && j.mode.Full? && j.route == Some(Index) && (j.exit.Some? <==> StopsEarly(w, ch))
            && BeforeReducing(w, ch, n, d) ==
               if j.exit.Some? then j
               else ClientFromIndex(ch, n, Attempt(Attempt(InstallFromIndex(ch, n, j), ch.installDev), ch.installSelf))
  {
    var j0 := Attempt(Decide(w, d), ch.prepare);
    assert BuildCheckouts(w, ch, n, j0) == j0;
  }

  lemma InstallingKeepsThemExactlyUnless(ch: Choices, n: nat, j: Job)
    requires j.exit.None? && j.mode.Full? && j.route == Some(Index) && Usable(j.disk)
    ensures var j' := InstallFromIndex(ch, n, j);
            && (Usable(j'.disk) <==> !ch.installMain.Wrecks?)
            && j'.disk.client == j.disk.client
            && (j'.exit.Some? <==> ch.installMain.TouchesNothing? && j.disk.main.record == Some(Checkouts))
  {
    if ch.installMain.Wrecks? {
      var lost := ch.installMain.lost;
      assert lost == Contract || lost == Boundary || lost == ControlPlane;
    }
  }

  /** For every plain run on a usable disk, whatever its commands do. */
  lemma APlainRunKeepsBothExactlyWhen(w: Wish, ch: Choices, n: nat, d: Disk)
    requires Bare(w) && Usable(d)
    ensures Usable(Execute(w, ch, n, d).disk) <==> KeepsBoth(w, ch, d)
  {
    var j1 := Attempt(Attempt(Attempt(Decide(w, d), ch.prepare), ch.makeMain), ch.readPins);
    var j := BeforeReducing(w, ch, n, d);
    BareRunsGoStraightToTheIndex(w, ch, n, d);
    ConcludingTouchesNothing(w, ch, Reduce(ch, j));
    if j1.exit.None? {
      var j2 := InstallFromIndex(ch, n, j1);
      InstallingKeepsThemExactlyUnless(ch, n, j1);
      FallingBackExactlyWhen(ch, n, j1);
      var j3 := Attempt(Attempt(j2, ch.installDev), ch.installSelf);
      FindingKeepsTheMode(ch, n, j3);
      if j3.exit.None? && j3.mode.Reduced? {
        ReducingKeepsThemExactlyWhen(ch, j3);
      } else if j3.exit.None? {
        ReplacingTheCommandKeepsIt(ch, n, j3);
      }
    }
  }

  // -- Exactly which disks no plain run removes anything from -------------------

  /** A run in which everything works. */
  const GOOD := Choices(Ok, Ok, Ok, Ok, Ok, Ok, Delivers, Untouched, Ok, Ok, Delivers, HalfMain({}, {}), Ok, Ok,
                        true, (d: Dist) => Ok, true, Ok, Ok, Ok, None)

  const PLAIN := Wish(NoArgument, Unnamed, Unnamed, Yes)

  /** With fixed pins, a usable disk is safe from every plain run exactly when both of its
      environments are recorded. */
  lemma ADiskIsSafeExactlyWhenBothAreRecorded(n: nat, d: Disk)
    requires Usable(d)
    ensures (forall w, ch :: Bare(w) && PinsFixed(ch, d) ==> Usable(Execute(w, ch, n, d).disk)) <==> BothRecorded(d)
  {
    if BothRecorded(d) {
      forall w, ch | Bare(w) && PinsFixed(ch, d) ensures Usable(Execute(w, ch, n, d).disk) {
        BothRecordedIsSafe(w, ch, n, d);
      }
    } else {
      AnUnrecordedDiskIsNot(n, d);
    }
  }

  lemma BothRecordedIsSafe(w: Wish, ch: Choices, n: nat, d: Disk)
    requires Usable(d) && BothRecorded(d) && Bare(w) && PinsFixed(ch, d)
    ensures Usable(Execute(w, ch, n, d).disk)
  {
    ARecordNamesARoute(d.main.record);
    ARecordNamesARoute(d.client.record);
    APlainRunKeepsBothExactlyWhen(w, ch, n, d);
  }

  lemma AnUnrecordedDiskIsNot(n: nat, d: Disk)
    requires Usable(d) && !BothRecorded(d)
    ensures Bare(PLAIN) && PinsFixed(Unlucky(d), d) && !Usable(Execute(PLAIN, Unlucky(d), n, d).disk)
  {
    APlainRunKeepsBothExactlyWhen(PLAIN, Unlucky(d), n, d);
  }

  /** The index cannot be reached for whatever is not recorded. */
  function Unlucky(d: Disk): Choices {
    if d.main.record.None? then GOOD.(installMain := TouchesNothing(1)) else GOOD.(installClient := TouchesNothing(1))
  }

  /** The same for all sequences of completed plain runs. */
  lemma RunsAreSafeExactlyWhenBothAreRecorded(n: nat, d: Disk)
    requires RecordsTrue(d) && Usable(d)
    ensures (forall runs :: AllBare(runs, n, d) ==> Usable(DiskAfterCompleted(runs, n, d))) <==> BothRecorded(d)
  {
    if BothRecorded(d) {
      forall runs | AllBare(runs, n, d) ensures Usable(DiskAfterCompleted(runs, n, d)) {
        BareRunsRemoveNothing(runs, n, d);
      }
    } else {
      AnUnrecordedDiskIsNot(n, d);
      OneRun(PLAIN, Unlucky(d), n, d);
      var runs := [(PLAIN, Unlucky(d))];
      assert AllBare(runs, n, d) && !Usable(DiskAfterCompleted(runs, n, d));
    }
  }

  lemma OneRun(w: Wish, ch: Choices, n: nat, d: Disk)
    ensures DiskAfterCompleted([(w, ch)], n, d) == Execute(w, ch, n, d).disk
    ensures AllBare([(w, ch)], n, d) <==> Bare(w) && PinsFixed(ch, d)
  {
    var d' := Execute(w, ch, n, d).disk;
    assert DiskAfterCompleted([], n + 1, d') == d' && AllBare([], n + 1, d');
    assert [(w, ch)][1..] == [];
  }

  // -- What is lost otherwise ---------------------------------------------------

  /** Beside an unrecorded first environment, an index that cannot be reached costs the
      distributions and also the command, whoever built it. */
  lemma AnUnrecordedFirstEnvironmentCostsTheSecond(w: Wish, ch: Choices, n: nat, d: Disk)
    requires Bare(w) && Refusal(w).None? && d.main.record.None? && !ch.installMain.Delivers?
    requires ch.prepare.Ok? && ch.makeMain.Ok? && ch.readPins.Ok? && ch.installDev.Ok? && ch.installSelf.Ok?
    requires forall x :: ch.uninstall(x).Ok?
    ensures Execute(w, ch, n, d).disk == NEW_DISK
  {
    var j := BeforeReducing(w, ch, n, d);
    ReachingTheRemoval(w, ch, n, d);
    RemovingSucceeds(ch, OPEN_DISTRIBUTIONS, j);
    ConcludingTouchesNothing(w, ch, Reduce(ch, j));
    var held := Remove(ch, OPEN_DISTRIBUTIONS, j).disk.main.held;
    forall x: Dist ensures x !in held { EveryDistributionIsOpen(x); }
    assert held == map[];
  }

  /** Beside a first environment the index filled, an unrecorded command the index does not
      deliver is removed and nothing else is. */
  lemma AnUnrecordedCommandIsRemoved(w: Wish, ch: Choices, n: nat, d: Disk)
    requires Bare(w) && !StopsEarly(w, ch) && !StopsAfterMain(ch) && ch.contractPinned && (d.client.made || ch.makeClient.Ok?)
    requires ch.installMain.Delivers? && !ch.installClient.Delivers? && d.client.record != Some(Checkouts)
    ensures var d' := Execute(w, ch, n, d).disk;
            d'.client == NO_CLIENT && Importable(d'.main) && d'.main.record == Some(Index)
  {
    var j1 := Attempt(Attempt(Attempt(Decide(w, d), ch.prepare), ch.makeMain), ch.readPins);
    var j2 := InstallFromIndex(ch, n, j1);
    BareRunsGoStraightToTheIndex(w, ch, n, d);
    FallingBackExactlyWhen(ch, n, j1);
    assert Attempt(Attempt(j2, ch.installDev), ch.installSelf) == j2;
    FindingTheCommand(ch, n, j2);
    var j := BeforeReducing(w, ch, n, d);
    assert Reduce(ch, j) == j;
    ConcludingTouchesNothing(w, ch, j);
  }

  lemma {:induction false} RemovingSucceeds(ch: Choices, ds: seq<Dist>, j: Job)
    requires j.exit.None? && forall x :: ch.uninstall(x).Ok?
    ensures Remove(ch, ds, j).exit.None?
    ensures forall d :: d in ds ==> d !in Remove(ch, ds, j).disk.main.held
    ensures Remove(ch, ds, j).disk.main.held.Keys <= j.disk.main.held.Keys
    decreases |ds|
  {
    if ds != [] {
      assert ds == [ds[0]] + ds[1..];
      RemovingSucceeds(ch, ds[1..], if ds[0] in j.disk.main.held then Without(j, ds[0]) else j);
    }
  }

  // -- Such a disk is reached by completed runs ---------------------------------

  const FROM_CHECKOUTS := Wish(NoArgument, Named(true), Named(true), Yes)

  function Completed(runs: seq<(Wish, Choices)>): seq<Attempted> {
    seq(|runs|, i requires 0 <= i < |runs| => Attempted(runs[i].0, runs[i].1, Never))
  }

  lemma ACheckoutsRunLeaves(i: Install, n: nat, d: Disk)
    requires !i.Wrecks?
    ensures var d' := Execute(FROM_CHECKOUTS, GOOD.(installMain := i), n, d).disk;
            && d'.client == Client(true, Some(Origin(Checkouts, n)), Some(Checkouts))
            && (i.Delivers? ==> Importable(d'.main) && d'.main.record == Some(Checkouts))
            && (!i.Delivers? ==> d'.main == d.main.(record := None))
  {
    var ch := GOOD.(installMain := i);
    var j0 := Attempt(Decide(FROM_CHECKOUTS, d), ch.prepare);
    assert j0.exit.None? && j0.disk == d;
    var j1 := BuildCheckouts(FROM_CHECKOUTS, ch, n, j0);
    assert j1 == ClientFromCheckout(ch, n, j0);
    assert j1.disk.client == Client(true, Some(Origin(Checkouts, n)), Some(Checkouts)) && j1.disk.main == d.main;
    var j2 := InstallMain(ch, n, j1);
    assert j2 == InstallFromCheckouts(ch, n, j1);
    AfterCheckouts(FROM_CHECKOUTS, ch, n, d);
    var j := BeforeReducing(FROM_CHECKOUTS, ch, n, d);
    assert j.disk == j2.disk;
    assert Reduce(ch, j) == j;
    ConcludingTouchesNothing(FROM_CHECKOUTS, ch, j);
  }

  lemma {:induction false} OneCompletedMore(runs: seq<(Wish, Choices)>, w: Wish, ch: Choices)
    ensures DiskAfter(Completed(runs + [(w, ch)])) == Execute(w, ch, |runs|, DiskAfter(Completed(runs))).disk
  {
    var all := Completed(runs + [(w, ch)]);
    assert all[..|runs|] == Completed(runs);
    assert all[|runs|] == Attempted(w, ch, Never);
  }

  const NO_INSTALL := GOOD.(installMain := TouchesNothing(1))
  const NO_NETWORK := NO_INSTALL.(installClient := TouchesNothing(1))

  const EARLIER := [(FROM_CHECKOUTS, GOOD)] + [(FROM_CHECKOUTS, NO_INSTALL)]

  lemma WhatTheEarlierRunsLeave()
    ensures var d := DiskAfter(Completed(EARLIER)); Usable(d) && d.main.record.None? && d.client.record == Some(Checkouts)
  {
    OneCompletedMore([], FROM_CHECKOUTS, GOOD);
    OneCompletedMore([(FROM_CHECKOUTS, GOOD)], FROM_CHECKOUTS, NO_INSTALL);
    assert Completed([]) == [];
    assert [] + [(FROM_CHECKOUTS, GOOD)] == [(FROM_CHECKOUTS, GOOD)];
    ACheckoutsRunLeaves(Delivers, 0, NEW_DISK);
    assert GOOD.(installMain := Delivers) == GOOD;
    ACheckoutsRunLeaves(TouchesNothing(1), 1, Execute(FROM_CHECKOUTS, GOOD, 0, NEW_DISK).disk);
  }

  /** Three completed runs: from checkouts; from checkouts again, whose install of the
      distributions fails and touches nothing; and a plain one without the network. The third
      removes the distributions and the command the first two built. */
  lemma APlainRunCanRemoveWhatEarlierRunsInstalled()
    ensures exists earlier, ch ::
              var d := DiskAfter(Completed(earlier));
              && Usable(d) && PinsFixed(ch, d) && Bare(PLAIN)
              && Execute(PLAIN, ch, |earlier|, d).disk == NEW_DISK
  {
    WhatTheEarlierRunsLeave();
    var d := DiskAfter(Completed(EARLIER));
    AnUnrecordedFirstEnvironmentCostsTheSecond(PLAIN, NO_NETWORK, |EARLIER|, d);
    assert PinsFixed(NO_NETWORK, d);
  }
}
