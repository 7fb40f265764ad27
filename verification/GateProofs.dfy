/** What any number of gate runs, with any wishes and failures and killed anywhere, keep. */
module GateProofs {
  import opened Options
  import opened Gate

  // -- A record is true ---------------------------------------------------------

  predicate MainTrue(m: Main) {
    m.record.Some? ==> forall d :: d in m.held ==> m.held[d].route == m.record.value
  }

  predicate ClientTrue(cl: Client) {
    cl.record.Some? && cl.command.Some? ==> cl.command.value.route == cl.record.value
  }

  /** A route record that says `r` stands beside things route `r` put there, and nothing else. */
  predicate RecordsTrue(d: Disk) {
    MainTrue(d.main) && ClientTrue(d.client)
  }

  ghost predicate All(ds: seq<Disk>, good: Disk -> bool) {
    forall i :: 0 <= i < |ds| ==> good(ds[i])
  }

  /** Of every disk the run could be killed at between two commands. */
  ghost predicate BetweenCommands(j: Job, good: Disk -> bool) {
    All(j.past, good) && good(j.disk)
  }

  /** Of every disk the run could be killed at. */
  ghost predicate Everywhere(j: Job, good: Disk -> bool) {
    BetweenCommands(j, good) && All(j.within, good)
  }

  const TRUE := (d: Disk) => RecordsTrue(d)

  lemma TouchingKeeps(j: Job, d: Disk, good: Disk -> bool)
    ensures BetweenCommands(Touch(j, d), good) <==> BetweenCommands(j, good) && good(d)
    ensures Everywhere(Touch(j, d), good) <==> Everywhere(j, good) && good(d)
  {
    var past := Touch(j, d).past;
    assert past[|j.past|] == j.disk;
    assert forall i :: 0 <= i < |j.past| ==> past[i] == j.past[i];
  }

  lemma InterruptingKeeps(j: Job, ds: seq<Disk>, good: Disk -> bool)
    ensures BetweenCommands(Amid(j, ds), good) <==> BetweenCommands(j, good)
    ensures Everywhere(Amid(j, ds), good) <==> Everywhere(j, good) && All(ds, good)
  {
    var within := Amid(j, ds).within;
    assert forall i :: 0 <= i < |j.within| ==> within[i] == j.within[i];
    assert forall i :: 0 <= i < |ds| ==> within[|j.within| + i] == ds[i];
  }

  /** Every command of a run is one of these: it leaves both environments alone, or it changes
      one of them, or it can also be killed inside. */
  lemma AttemptingTouchesNothing(j: Job, done: Done)
    ensures var j' := Attempt(j, done); j'.past == j.past && j'.within == j.within && j'.disk == j.disk
    ensures var j' := AttemptInFunction(j, done); j'.past == j.past && j'.within == j.within && j'.disk == j.disk
  {
  }

  lemma InstallingInMainKeeps(ch: Choices, j: Job, reinstall: bool, o: Origin, good: Disk -> bool)
    ensures var half := j.disk.(main := HalfInstalledMain(j.disk.main, ch.halfMain, o));
            var whole := j.disk.(main := InstalledMain(j.disk.main, ch.installMain, reinstall, o));
            Everywhere(InstallInMain(ch, j, reinstall, o), good) <==> Everywhere(j, good) && good(half) && good(whole)
  {
    var half := j.disk.(main := HalfInstalledMain(j.disk.main, ch.halfMain, o));
    InterruptingKeeps(j, [half], good);
    assert [half][0] == half;
    TouchingKeeps(Amid(j, [half]), j.disk.(main := InstalledMain(j.disk.main, ch.installMain, reinstall, o)), good);
  }

  lemma InstallingInClientKeeps(ch: Choices, j: Job, reinstall: bool, o: Origin, good: Disk -> bool)
    ensures var half := j.disk.(client := HalfInstalledClient(j.disk.client, ch.halfClient, o));
            var whole := j.disk.(client := InstalledClient(j.disk.client, ch.installClient, reinstall, o));
            Everywhere(InstallInClient(ch, j, reinstall, o), good) <==> Everywhere(j, good) && good(half) && good(whole)
  {
    var half := j.disk.(client := HalfInstalledClient(j.disk.client, ch.halfClient, o));
    InterruptingKeeps(j, [half], good);
    assert [half][0] == half;
    TouchingKeeps(Amid(j, [half]), j.disk.(client := InstalledClient(j.disk.client, ch.installClient, reinstall, o)), good);
  }

  lemma RemovingTheClientKeeps(j: Job, good: Disk -> bool)
    ensures Everywhere(RemoveClient(j), good) <==>
            Everywhere(j, good) && All(PartlyRemoved(j.disk), good) && good(j.disk.(client := NO_CLIENT))
  {
    InterruptingKeeps(j, PartlyRemoved(j.disk), good);
    TouchingKeeps(Amid(j, PartlyRemoved(j.disk)), j.disk.(client := NO_CLIENT), good);
  }

  // -- Each phase keeps the records true ----------------------------------------

  lemma RemovingTheClientKeepsRecordsTrue(j: Job)
    requires Everywhere(j, TRUE)
    ensures Everywhere(RemoveClient(j), TRUE)
  {
    RemovingTheClientKeeps(j, TRUE);
  }

  lemma ACheckoutKeepsRecordsTrue(ch: Choices, n: nat, j: Job)
    requires Everywhere(j, TRUE)
    ensures Everywhere(ClientFromCheckout(ch, n, j), TRUE)
  {
    var made := j.disk.client.(made := true);
    var j1 := TouchClient(j, made);
    TouchingKeeps(j, j1.disk, TRUE);
    var j2 := TouchClient(j1, made.(record := None));
    TouchingKeeps(j1, j2.disk, TRUE);
    var j3 := InstallInClient(ch, j2, true, Origin(Checkouts, n));
    InstallingInClientKeeps(ch, j2, true, Origin(Checkouts, n), TRUE);
    if ch.installClient.Delivers? {
      TouchingKeeps(j3.(clientBuilt := true), j3.disk.(client := j3.disk.client.(record := Some(Checkouts))), TRUE);
    }
  }

  lemma BuildingKeepsRecordsTrue(w: Wish, ch: Choices, n: nat, j: Job)
    requires Everywhere(j, TRUE)
    ensures Everywhere(BuildCheckouts(w, ch, n, j), TRUE)
  {
    var built := Attempt(AttemptInFunction(j, ch.readContract), ch.build);
    RemovingTheClientKeepsRecordsTrue(built);
    ACheckoutKeepsRecordsTrue(ch, n, Attempt(Attempt(AttemptInFunction(built, ch.readClient), ch.buildClient), ch.makeClient));
  }

  /** Both ends of the index's bracket: what it delivers may be recorded as the index's, and
      what it did not deliver and is still whole may be recorded as it was. */
  lemma TheIndexBracket(m: Main, i: Install, o: Origin)
    requires MainTrue(m) && o.route == Index
    ensures var m' := InstalledMain(m.(record := None), i, m.record != Some(Index), o);
            && (i.Delivers? ==> Importable(m') && MainTrue(m'.(record := Some(Index))))
            && (!i.Delivers? && Importable(m') ==> m' == m.(record := None))
  {
    if i.Wrecks? {
      assert i.lost == Contract || i.lost == Boundary || i.lost == ControlPlane;
    }
  }

  lemma InstallingFromCheckoutsKeepsRecordsTrue(ch: Choices, n: nat, j: Job)
    requires Everywhere(j, TRUE)
    ensures Everywhere(InstallFromCheckouts(ch, n, j), TRUE)
  {
    var j1 := TouchMain(j, j.disk.main.(record := None));
    TouchingKeeps(j, j1.disk, TRUE);
    var j2 := InstallInMain(ch, j1, true, Origin(Checkouts, n));
    InstallingInMainKeeps(ch, j1, true, Origin(Checkouts, n), TRUE);
    if ch.installMain.Delivers? {
      TouchingKeeps(j2, j2.disk.(main := j2.disk.main.(record := Some(Checkouts))), TRUE);
    }
  }

  lemma InstallingFromIndexKeepsRecordsTrue(ch: Choices, n: nat, j: Job)
    requires Everywhere(j, TRUE)
    ensures Everywhere(InstallFromIndex(ch, n, j), TRUE)
  {
    var m, o := j.disk.main, Origin(Index, n);
    var j1 := TouchMain(j, m.(record := None));
    TouchingKeeps(j, j1.disk, TRUE);
    var j2 := InstallInMain(ch, j1, m.record != Some(Index), o);
    InstallingInMainKeeps(ch, j1, m.record != Some(Index), o, TRUE);
    TheIndexBracket(m, ch.installMain, o);
    if ch.installMain.Delivers? {
      TouchingKeeps(j2, j2.disk.(main := j2.disk.main.(record := Some(Index))), TRUE);
    } else if m.record == Some(Checkouts) && Importable(j2.disk.main) {
      TouchingKeeps(j2, j2.disk.(main := j2.disk.main.(record := Some(Checkouts))), TRUE);
    }
  }

  lemma InstallMainKeepsRecordsTrue(ch: Choices, n: nat, j: Job)
    requires Everywhere(j, TRUE)
    ensures Everywhere(InstallMain(ch, n, j), TRUE)
  {
    var j' := Attempt(Attempt(j, ch.makeMain), ch.readPins);
    InstallingFromCheckoutsKeepsRecordsTrue(ch, n, j');
    InstallingFromIndexKeepsRecordsTrue(ch, n, j');
  }

  lemma ACommandKeepsRecordsTrue(ch: Choices, n: nat, j: Job)
    requires Everywhere(j, TRUE)
    ensures Everywhere(CommandFromIndex(ch, n, j), TRUE)
  {
    var cl, o := j.disk.client, Origin(Index, n);
    var j1 := TouchClient(j, cl.(record := None));
    TouchingKeeps(j, j1.disk, TRUE);
    var j2 := InstallInClient(ch, j1, cl.record != Some(Index), o);
    InstallingInClientKeeps(ch, j1, cl.record != Some(Index), o, TRUE);
    if ch.installClient.Delivers? {
      TouchingKeeps(j2.(clientBuilt := true), j2.disk.(client := j2.disk.client.(record := Some(Index))), TRUE);
    } else if cl.record == Some(Checkouts) && j2.disk.client.command.Some? {
      TouchingKeeps(j2, j2.disk.(client := j2.disk.client.(record := Some(Checkouts))), TRUE);
    } else {
      RemovingTheClientKeepsRecordsTrue(j2);
    }
  }

  /** The run as it stands when the index's bracket around the command opens. */
  function WithAClient(ch: Choices, j: Job): Job {
    var j := if j.disk.client.made then j else Attempt(j, ch.makeClient);
    if j.exit.Some? || j.disk.client.made then j else TouchClient(j, j.disk.client.(made := true))
  }

  lemma FindingTheCommand(ch: Choices, n: nat, j: Job)
    requires j.exit.None? && j.route == Some(Index) && ch.contractPinned
    ensures var j' := WithAClient(ch, j);
            ClientFromIndex(ch, n, j) == if j'.exit.Some? then j' else CommandFromIndex(ch, n, j')
  {
  }

  lemma MakingTheClientKeeps(ch: Choices, j: Job, good: Disk -> bool)
    requires Everywhere(j, good) && good(j.disk.(client := j.disk.client.(made := true)))
    ensures Everywhere(WithAClient(ch, j), good)
  {
    TouchingKeeps(Attempt(j, ch.makeClient), j.disk.(client := j.disk.client.(made := true)), good);
  }

  lemma ClientKeepsRecordsTrue(ch: Choices, n: nat, j: Job)
    requires Everywhere(j, TRUE)
    ensures Everywhere(ClientFromIndex(ch, n, j), TRUE)
  {
    if j.exit.None? && j.route == Some(Index) && ch.contractPinned {
      FindingTheCommand(ch, n, j);
      MakingTheClientKeeps(ch, j, TRUE);
      ACommandKeepsRecordsTrue(ch, n, WithAClient(ch, j));
    }
  }

  /** The run after one distribution more was removed. */
  function Without(j: Job, d: Dist): Job {
    TouchMain(j, j.disk.main.(held := j.disk.main.held - {d}))
  }

  lemma {:induction false} RemovingKeepsRecordsTrue(ch: Choices, ds: seq<Dist>, j: Job)
    requires Everywhere(j, TRUE)
    ensures Everywhere(Remove(ch, ds, j), TRUE)
    decreases |ds|
  {
    if ds != [] && j.exit.None? {
      if ds[0] !in j.disk.main.held {
        RemovingKeepsRecordsTrue(ch, ds[1..], j);
      } else if ch.uninstall(ds[0]).Ok? {
        TouchingKeeps(j, Without(j, ds[0]).disk, TRUE);
        RemovingKeepsRecordsTrue(ch, ds[1..], Without(j, ds[0]));
      }
    }
  }

  lemma ReducingKeepsRecordsTrue(ch: Choices, j: Job)
    requires Everywhere(j, TRUE)
    ensures Everywhere(Reduce(ch, j), TRUE)
  {
    RemovingKeepsRecordsTrue(ch, OPEN_DISTRIBUTIONS, j);
    var removed := Remove(ch, OPEN_DISTRIBUTIONS, j);
    var unrecorded := TouchMain(removed, removed.disk.main.(record := None));
    TouchingKeeps(removed, unrecorded.disk, TRUE);
    RemovingTheClientKeepsRecordsTrue(unrecorded);
  }

  lemma ConcludingTouchesNothing(w: Wish, ch: Choices, j: Job)
    ensures var j' := Conclude(w, ch, j); j'.past == j.past && j'.within == j.within && j'.disk == j.disk
  {
  }

  lemma ARunKeepsRecordsTrue(w: Wish, ch: Choices, n: nat, d: Disk)
    requires RecordsTrue(d)
    ensures Everywhere(Execute(w, ch, n, d), TRUE)
  {
    var j0 := Attempt(Decide(w, d), ch.prepare);
    BuildingKeepsRecordsTrue(w, ch, n, j0);
    var j1 := BuildCheckouts(w, ch, n, j0);
    InstallMainKeepsRecordsTrue(ch, n, j1);
    var j2 := InstallMain(ch, n, j1);
    AttemptingTouchesNothing(j2, ch.installDev);
    AttemptingTouchesNothing(Attempt(j2, ch.installDev), ch.installSelf);
    ClientKeepsRecordsTrue(ch, n, Attempt(Attempt(j2, ch.installDev), ch.installSelf));
    var j4 := BeforeReducing(w, ch, n, d);
    ReducingKeepsRecordsTrue(ch, j4);
    ConcludingTouchesNothing(w, ch, Reduce(ch, j4));
  }

  /** In every disk any sequence of runs can leave, each killed anywhere, both records are
      true. */
  lemma {:induction false} EveryRecordIsTrue(runs: seq<Attempted>)
    ensures RecordsTrue(DiskAfter(runs))
  {
    if runs != [] {
      var n := |runs| - 1;
      EveryRecordIsTrue(runs[..n]);
      ARunKeepsRecordsTrue(runs[n].wish, runs[n].choices, n, DiskAfter(runs[..n]));
      LeavingIsOneOfThem(Execute(runs[n].wish, runs[n].choices, n, DiskAfter(runs[..n])), runs[n].kill, TRUE);
    }
  }

  lemma LeavingIsOneOfThem(j: Job, kill: Kill, good: Disk -> bool)
    requires Everywhere(j, good)
    ensures good(Left(j, kill))
  {
  }

  /** What a run leaves when it is killed somewhere is every disk it visits, and no other. */
  lemma EveryDiskCanBeLeft(j: Job, good: Disk -> bool)
    ensures Everywhere(j, good) <==> forall kill :: good(Left(j, kill))
    ensures BetweenCommands(j, good) <==> good(Left(j, Never)) && forall k :: good(Left(j, After(k)))
  {
    if forall kill :: good(Left(j, kill)) {
      assert good(Left(j, Never));
      forall i | 0 <= i < |j.past| ensures good(j.past[i]) { assert good(Left(j, After(i))); }
      forall i | 0 <= i < |j.within| ensures good(j.within[i]) { assert good(Left(j, Inside(i))); }
    }
    if good(Left(j, Never)) && forall k :: good(Left(j, After(k))) {
      forall i | 0 <= i < |j.past| ensures good(j.past[i]) { assert good(Left(j, After(i))); }
    }
  }

  // -- A record of a whole environment ------------------------------------------

  /** What is recorded is also all there. */
  predicate RecordsWhole(d: Disk) {
    && (d.main.record.Some? ==> Importable(d.main))
    && (d.client.record.Some? ==> d.client.command.Some?)
  }

  const WHOLE := (d: Disk) => RecordsWhole(d)

  /** Nothing stops a run that named no checkout before it has installed what it needs. */
  predicate GetsToTheRemoval(w: Wish, ch: Choices) {
    && Refusal(w).None? && w.contract.Unnamed?
    && ch.prepare.Ok? && ch.makeMain.Ok? && ch.readPins.Ok? && ch.installDev.Ok? && ch.installSelf.Ok?
  }

  /** The index did not deliver, and what is there is not a whole environment a checkouts run
      built: the run goes on without. */
  predicate FallsBack(ch: Choices, d: Disk) {
    || ch.installMain.Wrecks?
    || (ch.installMain.TouchesNothing? && !(d.main.record == Some(Checkouts) && Importable(d.main)))
  }

  /** The distributions the removal finds. */
  function Found(w: Wish, ch: Choices, d: Disk): set<Dist> {
    if w.index.Yes? && ch.installMain.Wrecks?
    then d.main.held.Keys + ch.installMain.replaced - {ch.installMain.lost} else d.main.held.Keys
  }

  /** A run that refuses the index, reaches the removal with a record standing, and removes
      the first distribution before it removes the record. */
  predicate RemovesUnderARecord(w: Wish, ch: Choices, d: Disk) {
    GetsToTheRemoval(w, ch) && w.index.No? && d.main.record.Some? && ch.uninstall(OPEN_DISTRIBUTIONS[0]).Ok?
  }

  /** A run that removes the command's directory with its record in it: one that builds from
      checkouts and names none for the command, or one that is reduced and whose every
      uninstall succeeds. */
  predicate RemovesARecordedClient(w: Wish, ch: Choices, d: Disk) {
    && d.client.record.Some?
    && (|| UnbuildsTheClient(w, ch)
        || (&& GetsToTheRemoval(w, ch) && (w.index.No? || FallsBack(ch, d))
            && forall x :: x in Found(w, ch, d) ==> ch.uninstall(x).Ok?))
  }

  predicate UnbuildsTheClient(w: Wish, ch: Choices) {
    Refusal(w).None? && w.contract.Named? && w.client.Unnamed? && ch.prepare.Ok? && ch.readContract.Ok? && ch.build.Ok?
  }

  lemma RemovingTheClientKeepsRecordsWhole(j: Job)
    requires Everywhere(j, WHOLE)
    ensures Everywhere(RemoveClient(j), WHOLE) <==> j.disk.client.record.None?
  {
    RemovingTheClientKeeps(j, WHOLE);
    var ds := PartlyRemoved(j.disk);
    assert ds[0] == j.disk.(client := j.disk.client.(command := None));
    if j.disk.client.record.Some? {
      assert !WHOLE(ds[0]);
    } else {
      assert forall i :: 0 <= i < |ds| ==> ds[i].main == j.disk.main && ds[i].client.record.None?;
    }
  }

  lemma ACheckoutKeepsRecordsWhole(ch: Choices, n: nat, j: Job)
    requires Everywhere(j, WHOLE)
    ensures Everywhere(ClientFromCheckout(ch, n, j), WHOLE)
  {
    var made := j.disk.client.(made := true);
    var j1 := TouchClient(j, made);
    TouchingKeeps(j, j1.disk, WHOLE);
    var j2 := TouchClient(j1, made.(record := None));
    TouchingKeeps(j1, j2.disk, WHOLE);
    var j3 := InstallInClient(ch, j2, true, Origin(Checkouts, n));
    InstallingInClientKeeps(ch, j2, true, Origin(Checkouts, n), WHOLE);
    if ch.installClient.Delivers? {
      TouchingKeeps(j3.(clientBuilt := true), j3.disk.(client := j3.disk.client.(record := Some(Checkouts))), WHOLE);
    }
  }

  lemma BuildingKeepsRecordsWhole(w: Wish, ch: Choices, n: nat, d: Disk)
    requires RecordsWhole(d)
    ensures Everywhere(BuildCheckouts(w, ch, n, Attempt(Decide(w, d), ch.prepare)), WHOLE) <==>
            !(d.client.record.Some? && UnbuildsTheClient(w, ch))
  {
    var j := Attempt(Decide(w, d), ch.prepare);
    assert Everywhere(j, WHOLE);
    var built := Attempt(AttemptInFunction(j, ch.readContract), ch.build);
    assert Everywhere(built, WHOLE);
    RemovingTheClientKeepsRecordsWhole(built);
    var made := Attempt(Attempt(AttemptInFunction(built, ch.readClient), ch.buildClient), ch.makeClient);
    assert Everywhere(made, WHOLE);
    ACheckoutKeepsRecordsWhole(ch, n, made);
  }

  lemma CheckoutsKeepRecordsWhole(ch: Choices, n: nat, j: Job)
    requires Everywhere(j, WHOLE)
    ensures Everywhere(InstallFromCheckouts(ch, n, j), WHOLE)
  {
    var j1 := TouchMain(j, j.disk.main.(record := None));
    TouchingKeeps(j, j1.disk, WHOLE);
    var j2 := InstallInMain(ch, j1, true, Origin(Checkouts, n));
    InstallingInMainKeeps(ch, j1, true, Origin(Checkouts, n), WHOLE);
    if ch.installMain.Delivers? {
      TouchingKeeps(j2, j2.disk.(main := j2.disk.main.(record := Some(Checkouts))), WHOLE);
    }
  }

  lemma TheIndexKeepsRecordsWhole(ch: Choices, n: nat, j: Job)
    requires Everywhere(j, WHOLE)
    ensures Everywhere(InstallFromIndex(ch, n, j), WHOLE)
  {
    var m, o := j.disk.main, Origin(Index, n);
    var j1 := TouchMain(j, m.(record := None));
    TouchingKeeps(j, j1.disk, WHOLE);
    var j2 := InstallInMain(ch, j1, m.record != Some(Index), o);
    InstallingInMainKeeps(ch, j1, m.record != Some(Index), o, WHOLE);
    if ch.installMain.Delivers? {
      TouchingKeeps(j2, j2.disk.(main := j2.disk.main.(record := Some(Index))), WHOLE);
    } else if m.record == Some(Checkouts) && Importable(j2.disk.main) {
      TouchingKeeps(j2, j2.disk.(main := j2.disk.main.(record := Some(Checkouts))), WHOLE);
    }
  }

  lemma InstallingKeepsRecordsWhole(ch: Choices, n: nat, j: Job)
    requires Everywhere(j, WHOLE)
    ensures Everywhere(InstallMain(ch, n, j), WHOLE)
  {
    var j' := Attempt(Attempt(j, ch.makeMain), ch.readPins);
    CheckoutsKeepRecordsWhole(ch, n, j');
    TheIndexKeepsRecordsWhole(ch, n, j');
  }

  lemma ACommandKeepsRecordsWhole(ch: Choices, n: nat, j: Job)
    requires Everywhere(j, WHOLE)
    ensures Everywhere(CommandFromIndex(ch, n, j), WHOLE)
  {
    var cl, o := j.disk.client, Origin(Index, n);
    var j1 := TouchClient(j, cl.(record := None));
    TouchingKeeps(j, j1.disk, WHOLE);
    var j2 := InstallInClient(ch, j1, cl.record != Some(Index), o);
    InstallingInClientKeeps(ch, j1, cl.record != Some(Index), o, WHOLE);
    if ch.installClient.Delivers? {
      TouchingKeeps(j2.(clientBuilt := true), j2.disk.(client := j2.disk.client.(record := Some(Index))), WHOLE);
    } else if cl.record == Some(Checkouts) && j2.disk.client.command.Some? {
      TouchingKeeps(j2, j2.disk.(client := j2.disk.client.(record := Some(Checkouts))), WHOLE);
    } else {
      RemovingTheClientKeepsRecordsWhole(j2);
    }
  }

  lemma ClientKeepsRecordsWhole(ch: Choices, n: nat, j: Job)
    requires Everywhere(j, WHOLE)
    ensures Everywhere(ClientFromIndex(ch, n, j), WHOLE)
  {
    if j.exit.None? && j.route == Some(Index) && ch.contractPinned {
      FindingTheCommand(ch, n, j);
      MakingTheClientKeeps(ch, j, WHOLE);
      ACommandKeepsRecordsWhole(ch, n, WithAClient(ch, j));
    }
  }

  // -- Nothing that was visited is forgotten ------------------------------------

  ghost predicate Extends(j: Job, j': Job) {
    j.past <= j'.past && j.within <= j'.within && j.disk in Visited(j')
  }

  lemma BadStaysBad(j: Job, j': Job, good: Disk -> bool)
    requires Extends(j, j') && !Everywhere(j, good)
    ensures !Everywhere(j', good)
  {
    if !All(j.past, good) {
      var i :| 0 <= i < |j.past| && !good(j.past[i]);
      assert j'.past[i] == j.past[i];
    } else if !All(j.within, good) {
      var i :| 0 <= i < |j.within| && !good(j.within[i]);
      assert j'.within[i] == j.within[i];
    }
  }

  lemma ExtendingFurther(a: Job, b: Job, c: Job)
    requires Extends(a, b) && Extends(b, c)
    ensures Extends(a, c)
  {
    if a.disk in b.past {
      var i :| 0 <= i < |b.past| && b.past[i] == a.disk;
      assert c.past[i] == a.disk;
    }
  }

  lemma TouchingExtends(j: Job, d: Disk)
    ensures Extends(j, Touch(j, d))
  {
    assert Visited(Touch(j, d))[|j.past|] == j.disk;
  }

  lemma RemovingTheClientExtends(j: Job)
    ensures Extends(j, RemoveClient(j))
  {
    TouchingExtends(Amid(j, PartlyRemoved(j.disk)), j.disk.(client := NO_CLIENT));
  }

  lemma {:induction false} RemovingExtends(ch: Choices, ds: seq<Dist>, j: Job)
    ensures Extends(j, Remove(ch, ds, j))
    decreases |ds|
  {
    if ds != [] && j.exit.None? {
      if ds[0] !in j.disk.main.held {
        RemovingExtends(ch, ds[1..], j);
      } else if ch.uninstall(ds[0]).Ok? {
        var j' := Without(j, ds[0]);
        TouchingExtends(j, j'.disk);
        RemovingExtends(ch, ds[1..], j');
        ExtendingFurther(j, j', Remove(ch, ds[1..], j'));
      }
    }
  }

  lemma ReducingExtends(ch: Choices, j: Job)
    ensures Extends(Remove(ch, OPEN_DISTRIBUTIONS, j), Reduce(ch, j)) || Reduce(ch, j) == j
    ensures Extends(j, Reduce(ch, j))
  {
    var removed := Remove(ch, OPEN_DISTRIBUTIONS, j);
    RemovingExtends(ch, OPEN_DISTRIBUTIONS, j);
    if j.exit.None? && j.mode.Reduced? && removed.exit.None? {
      var unrecorded := TouchMain(removed, removed.disk.main.(record := None));
      TouchingExtends(removed, unrecorded.disk);
      RemovingTheClientExtends(unrecorded);
      ExtendingFurther(removed, unrecorded, RemoveClient(unrecorded));
      ExtendingFurther(j, removed, RemoveClient(unrecorded));
      assert Reduce(ch, j) == RemoveClient(unrecorded) || Reduce(ch, j) == Exit(RemoveClient(unrecorded), 1);
    }
  }

  lemma InstallingFromCheckoutsExtends(ch: Choices, n: nat, j: Job)
    ensures Extends(j, InstallFromCheckouts(ch, n, j))
  {
    var j1 := TouchMain(j, j.disk.main.(record := None));
    TouchingExtends(j, j1.disk);
    var j2 := InstallInMain(ch, j1, true, Origin(Checkouts, n));
    TouchingExtends(Amid(j1, [j1.disk.(main := HalfInstalledMain(j1.disk.main, ch.halfMain, Origin(Checkouts, n)))]), j2.disk);
    ExtendingFurther(j, j1, j2);
    var j3 := TouchMain(j2, j2.disk.main.(record := Some(Checkouts)));
    TouchingExtends(j2, j3.disk);
    ExtendingFurther(j, j2, j3);
  }

  // -- Exactly when a record outlives what it records ---------------------------

  lemma {:induction false} RemovingGoesThroughExactlyWhen(ch: Choices, ds: seq<Dist>, j: Job)
    requires j.exit.None?
    ensures var j' := Remove(ch, ds, j);
            && (j'.exit.None? <==> forall x :: x in ds && x in j.disk.main.held ==> ch.uninstall(x).Ok?)
            && j'.disk.client == j.disk.client && j'.disk.main.record == j.disk.main.record && j'.mode == j.mode
    decreases |ds|
  {
    if ds != [] {
      assert ds == [ds[0]] + ds[1..];
      if ds[0] !in j.disk.main.held {
        RemovingGoesThroughExactlyWhen(ch, ds[1..], j);
      } else if ch.uninstall(ds[0]).Ok? {
        RemovingGoesThroughExactlyWhen(ch, ds[1..], Without(j, ds[0]));
      }
    }
  }

  lemma {:induction false} RemovingKeepsUnrecordedWhole(ch: Choices, ds: seq<Dist>, j: Job)
    requires Everywhere(j, WHOLE) && j.disk.main.record.None?
    ensures Everywhere(Remove(ch, ds, j), WHOLE)
    decreases |ds|
  {
    if ds != [] && j.exit.None? {
      if ds[0] !in j.disk.main.held {
        RemovingKeepsUnrecordedWhole(ch, ds[1..], j);
      } else if ch.uninstall(ds[0]).Ok? {
        TouchingKeeps(j, Without(j, ds[0]).disk, WHOLE);
        RemovingKeepsUnrecordedWhole(ch, ds[1..], Without(j, ds[0]));
      }
    }
  }

  /** The loop visits a recorded environment that is not whole exactly when its first
      uninstall succeeds under a record. */
  lemma RemovingARecordedEnvironment(ch: Choices, j: Job)
    requires Everywhere(j, WHOLE) && j.exit.None? && j.disk.main.record.Some?
    ensures Everywhere(Remove(ch, OPEN_DISTRIBUTIONS, j), WHOLE) <==> !ch.uninstall(Contract).Ok?
  {
    if ch.uninstall(Contract).Ok? {
      var j' := Without(j, Contract);
      assert Remove(ch, OPEN_DISTRIBUTIONS, j) == Remove(ch, OPEN_DISTRIBUTIONS[1..], j');
      assert !WHOLE(j'.disk);
      RemovingExtends(ch, OPEN_DISTRIBUTIONS[1..], j');
      BadStaysBad(j', Remove(ch, OPEN_DISTRIBUTIONS[1..], j'), WHOLE);
    } else {
      assert Remove(ch, OPEN_DISTRIBUTIONS, j) == Exit(j, Trapped(ch.uninstall(Contract).status));
    }
  }

  lemma EveryDistributionIsOpen(x: Dist)
    ensures x in OPEN_DISTRIBUTIONS
  {
    assert OPEN_DISTRIBUTIONS[0] == Contract && OPEN_DISTRIBUTIONS[1] == Boundary && OPEN_DISTRIBUTIONS[2] == ControlPlane;
  }

  /** What is left to do once the loop is through. */
  function Unrecorded(ch: Choices, j: Job): Job {
    var removed := Remove(ch, OPEN_DISTRIBUTIONS, j);
    TouchMain(removed, removed.disk.main.(record := None))
  }

  lemma ReducingInTwoParts(ch: Choices, j: Job)
    requires j.mode.Reduced? && j.exit.None?
    ensures var j', removed := Reduce(ch, j), Remove(ch, OPEN_DISTRIBUTIONS, j);
            if removed.exit.Some? then j' == removed
            else j' == RemoveClient(Unrecorded(ch, j)).(exit := j'.exit)
  {
  }

  /** The end of a removal is at a disk that is not whole exactly when the command's
      directory holds a record. */
  lemma TheEndOfTheRemoval(ch: Choices, j: Job)
    requires Everywhere(Remove(ch, OPEN_DISTRIBUTIONS, j), WHOLE) && j.mode.Reduced? && j.exit.None?
    ensures Everywhere(Reduce(ch, j), WHOLE) <==>
            !(j.disk.client.record.Some? && forall x :: x in j.disk.main.held ==> ch.uninstall(x).Ok?)
  {
    var removed := Remove(ch, OPEN_DISTRIBUTIONS, j);
    RemovingGoesThroughExactlyWhen(ch, OPEN_DISTRIBUTIONS, j);
    ReducingInTwoParts(ch, j);
    forall x: Dist { EveryDistributionIsOpen(x); }
    if removed.exit.None? {
      TouchingKeeps(removed, Unrecorded(ch, j).disk, WHOLE);
      RemovingTheClientKeepsRecordsWhole(Unrecorded(ch, j));
      assert Everywhere(Reduce(ch, j), WHOLE) == Everywhere(RemoveClient(Unrecorded(ch, j)), WHOLE);
    }
  }

  lemma ReducingKeepsRecordsWholeExactlyWhen(ch: Choices, j: Job)
    requires Everywhere(j, WHOLE) && j.mode.Reduced? && j.exit.None?
    ensures Everywhere(Reduce(ch, j), WHOLE) <==>
            && !(j.disk.main.record.Some? && ch.uninstall(Contract).Ok?)
            && !(j.disk.client.record.Some? && forall x :: x in j.disk.main.held ==> ch.uninstall(x).Ok?)
  {
    var removed := Remove(ch, OPEN_DISTRIBUTIONS, j);
    if j.disk.main.record.Some? {
      RemovingARecordedEnvironment(ch, j);
    } else {
      RemovingKeepsUnrecordedWhole(ch, OPEN_DISTRIBUTIONS, j);
    }
    if Everywhere(removed, WHOLE) {
      TheEndOfTheRemoval(ch, j);
    } else {
      ReducingExtends(ch, j);
      BadStaysBad(removed, Reduce(ch, j), WHOLE);
    }
  }

  lemma ARunWithCheckoutsIsFull(w: Wish, ch: Choices, n: nat, d: Disk)
    requires w.contract.Named?
    ensures var j1 := BuildCheckouts(w, ch, n, Attempt(Decide(w, d), ch.prepare));
            j1.mode.Full? && j1.route == Some(Checkouts)
  {
  }

  lemma InstallingFromCheckoutsKeepsTheRoute(ch: Choices, n: nat, j: Job)
    requires j.mode.Full? && j.route == Some(Checkouts)
    ensures var j2 := InstallMain(ch, n, j); j2.mode.Full? && j2.route == Some(Checkouts) && Extends(j, j2)
  {
    InstallingFromCheckoutsExtends(ch, n, Attempt(Attempt(j, ch.makeMain), ch.readPins));
  }

  lemma AfterCheckouts(w: Wish, ch: Choices, n: nat, d: Disk)
    requires w.contract.Named?
    ensures var j1, j := BuildCheckouts(w, ch, n, Attempt(Decide(w, d), ch.prepare)), BeforeReducing(w, ch, n, d);
            j.mode.Full? && Extends(j1, j)
  {
    var j1 := BuildCheckouts(w, ch, n, Attempt(Decide(w, d), ch.prepare));
    ARunWithCheckoutsIsFull(w, ch, n, d);
    InstallingFromCheckoutsKeepsTheRoute(ch, n, j1);
    var j2 := InstallMain(ch, n, j1);
    var j3 := Attempt(Attempt(j2, ch.installDev), ch.installSelf);
    assert j3.route == Some(Checkouts) && j3.past == j2.past && j3.within == j2.within && j3.disk == j2.disk;
    assert BeforeReducing(w, ch, n, d) == j3;
  }

  lemma FallingBackExactlyWhen(ch: Choices, n: nat, j: Job)
    requires j.exit.None? && j.mode.Full? && j.route == Some(Index)
    ensures var j2 := InstallFromIndex(ch, n, j);
            && (j2.mode.Reduced? <==> FallsBack(ch, j.disk))
            && (j2.mode.Reduced? ==>
                  && j2.exit.None? && j2.route.None? && j2.disk.client == j.disk.client && j2.disk.main.record.None?
                  && j2.disk.main.held.Keys == if ch.installMain.Wrecks?
                       then j.disk.main.held.Keys + ch.installMain.replaced - {ch.installMain.lost} else j.disk.main.held.Keys)
            && (j2.mode.Full? ==> j2.route == Some(Index))
  {
    var m := j.disk.main;
    var m' := InstalledMain(m.(record := None), ch.installMain, m.record != Some(Index), Origin(Index, n));
    assert InstallFromIndex(ch, n, j).disk.main.held == m'.held;
    if ch.installMain.Wrecks? {
      var lost := ch.installMain.lost;
      assert lost !in m'.held && (lost == Contract || lost == Boundary || lost == ControlPlane);
      assert m'.held.Keys == m.held.Keys + ch.installMain.replaced - {ch.installMain.lost};
    }
  }

  /** Exactly which runs reach the removal, and what they find there: the command's
      environment as it was, and a record only if the index was refused. */
  lemma ReachingTheRemoval(w: Wish, ch: Choices, n: nat, d: Disk)
    ensures var j := BeforeReducing(w, ch, n, d);
            && (j.mode.Reduced? && j.exit.None? <==> GetsToTheRemoval(w, ch) && (w.index.No? || FallsBack(ch, d)))
            && (j.mode.Reduced? && j.exit.None? ==>
                  && j.disk.client == d.client && j.disk.main.held.Keys == Found(w, ch, d)
                  && j.disk.main.record == if w.index.No? then d.main.record else None)
  {
    var j0 := Attempt(Decide(w, d), ch.prepare);
    if w.contract.Named? {
      AfterCheckouts(w, ch, n, d);
    } else {
      assert BuildCheckouts(w, ch, n, j0) == j0;
      var j1 := Attempt(Attempt(j0, ch.makeMain), ch.readPins);
      if j1.route == Some(Index) && j1.exit.None? {
        assert InstallMain(ch, n, j0) == InstallFromIndex(ch, n, j1);
        FallingBackExactlyWhen(ch, n, j1);
        FindingKeepsTheMode(ch, n, Attempt(Attempt(InstallMain(ch, n, j0), ch.installDev), ch.installSelf));
      } else {
        assert InstallMain(ch, n, j0) == j1;
      }
    }
  }

  lemma FindingKeepsTheMode(ch: Choices, n: nat, j: Job)
    ensures ClientFromIndex(ch, n, j).mode == j.mode
    ensures j.route.None? ==> ClientFromIndex(ch, n, j) == j
  {
  }

  lemma BeforeReducingRecordsAreWhole(w: Wish, ch: Choices, n: nat, d: Disk)
    requires RecordsWhole(d)
    ensures Everywhere(BeforeReducing(w, ch, n, d), WHOLE) <==> !(d.client.record.Some? && UnbuildsTheClient(w, ch))
  {
    var j0 := Attempt(Decide(w, d), ch.prepare);
    BuildingKeepsRecordsWhole(w, ch, n, d);
    var j1 := BuildCheckouts(w, ch, n, j0);
    if Everywhere(j1, WHOLE) {
      InstallingKeepsRecordsWhole(ch, n, j1);
      var j2 := InstallMain(ch, n, j1);
      AttemptingTouchesNothing(j2, ch.installDev);
      AttemptingTouchesNothing(Attempt(j2, ch.installDev), ch.installSelf);
      ClientKeepsRecordsWhole(ch, n, Attempt(Attempt(j2, ch.installDev), ch.installSelf));
    } else {
      AfterCheckouts(w, ch, n, d);
      BadStaysBad(j1, BeforeReducing(w, ch, n, d), WHOLE);
    }
  }

  /** A record outlives what it records in exactly two ways: a run that refuses the index is
      removing the distributions, with the record still there; or a run removes the command's
      directory with its record in it. A kill in either stretch can leave an environment
      recorded and not whole, and a kill anywhere else cannot. */
  lemma RecordsAreWholeExactlyUnless(w: Wish, ch: Choices, n: nat, d: Disk)
    requires RecordsWhole(d)
    ensures Everywhere(Execute(w, ch, n, d), WHOLE) <==>
            !RemovesUnderARecord(w, ch, d) && !RemovesARecordedClient(w, ch, d)
  {
    var j := BeforeReducing(w, ch, n, d);
    BeforeReducingRecordsAreWhole(w, ch, n, d);
    ReachingTheRemoval(w, ch, n, d);
    ConcludingTouchesNothing(w, ch, Reduce(ch, j));
    if Everywhere(j, WHOLE) && j.mode.Reduced? && j.exit.None? {
      ReducingKeepsRecordsWholeExactlyWhen(ch, j);
      assert OPEN_DISTRIBUTIONS[0] == Contract;
    } else {
      ReducingExtends(ch, j);
      if !Everywhere(j, WHOLE) { BadStaysBad(j, Reduce(ch, j), WHOLE); }
    }
  }
}
