/**
 The gate (`scripts/gate.sh`): what one run does to the two environments on disk, command by
 command, and how it exits. A run is described by what it was asked, and by what every
 command in it that can fail did; a run killed somewhere leaves one of the disks it visited,
 between two commands or inside one.
 */
module Gate {
  import opened Options

  datatype Route = Checkouts | Index

  /** Who put a thing where it is: the route, and the run that took it. */
  datatype Origin = Origin(route: Route, run: nat)

  datatype Dist = Contract | Boundary | ControlPlane

  const OPEN_DISTRIBUTIONS: seq<Dist> := [Contract, Boundary, ControlPlane]

  /** `.venv`: the open distributions in it, and the route on record. */
  datatype Main = Main(held: map<Dist, Origin>, record: Option<Route>)

  /** `.venv-client`: whether it is there, the command in it, and the route on record. */
  datatype Client = Client(made: bool, command: Option<Origin>, record: Option<Route>)

  const NO_CLIENT := Client(false, None, None)

  datatype Disk = Disk(main: Main, client: Client)

  const NEW_DISK := Disk(Main(map[], None), NO_CLIENT)

  /** Absent if any one of them is: what `open_distributions_are_importable` measures. */
  predicate Importable(m: Main) {
    Contract in m.held && Boundary in m.held && ControlPlane in m.held
  }

  // -- What a run is asked ------------------------------------------------------

  datatype Argument = NoArgument | EnvironmentOnly | UnknownArgument | TwoArguments

  datatype Source = Unnamed | Named(isDirectory: bool)

  datatype IndexWish = Yes | No | Unreadable

  datatype Wish = Wish(argument: Argument, contract: Source, client: Source, index: IndexWish)

  // -- What its commands do -----------------------------------------------------

  type Failure = n: nat | n > 0 witness 1

  datatype Done = Ok | Failed(status: Failure)

  /** An install delivers, or touches nothing, or leaves what it was installing unusable: some
      of it replaced and at least one part of it lost. */
  datatype Install =
    | Delivers
    | TouchesNothing(status: Failure)
    | Wrecks(status: Failure, replaced: set<Dist>, lost: Dist)

  /** What a kill inside an install can leave: any of it replaced, any of it lost. */
  datatype HalfMain = HalfMain(replaced: set<Dist>, lost: set<Dist>)

  datatype HalfClient = Untouched | Lost | Replaced

  /** The test run's record of what it did not run: lines, lines naming a module, and how many
      test modules there are. */
  datatype Report = Report(checks: nat, modules: nat, present: nat)

  datatype Choices = Choices(
    prepare: Done, readContract: Done, build: Done,
    readClient: Done, buildClient: Done, makeClient: Done, installClient: Install, halfClient: HalfClient,
    makeMain: Done, readPins: Done, installMain: Install, halfMain: HalfMain, installDev: Done, installSelf: Done,
    contractPinned: bool, uninstall: Dist -> Done, rootFits: bool,
    format: Done, lint: Done, tests: Done, report: Option<Report>)

  // -- A run in progress --------------------------------------------------------

  datatype Mode = Full | Reduced

  const FULL_GREEN := 0
  const REDUCED_GREEN := 75

  /** `past` is every disk there was between two commands before the one there is; `within`
      every disk that only a kill inside a command leaves. */
  datatype Job = Job(
    past: seq<Disk>, within: seq<Disk>, disk: Disk,
    mode: Mode, route: Option<Route>, clientBuilt: bool, exit: Option<nat>)

  function Visited(j: Job): seq<Disk> {
    j.past + [j.disk]
  }

  function Amid(j: Job, ds: seq<Disk>): Job {
    j.(within := j.within + ds)
  }

  function Touch(j: Job, d: Disk): Job {
    j.(past := j.past + [j.disk], disk := d)
  }

  function TouchMain(j: Job, m: Main): Job { Touch(j, j.disk.(main := m)) }

  function TouchClient(j: Job, cl: Client): Job { Touch(j, j.disk.(client := cl)) }

  /** Whatever order a directory is removed in, a kill inside the removal leaves some of it. */
  function PartsOf(cl: Client): seq<Client> {
    [cl.(command := None), cl.(record := None), cl.(command := None, record := None),
     cl.(made := false), cl.(made := false, command := None), cl.(made := false, record := None)]
  }

  function PartlyRemoved(d: Disk): seq<Disk> {
    var parts := PartsOf(d.client);
    seq(|parts|, i requires 0 <= i < |parts| => d.(client := parts[i]))
  }

  function RemoveClient(j: Job): Job {
    TouchClient(Amid(j, PartlyRemoved(j.disk)), NO_CLIENT)
  }

  /** The ERR trap: a failing command's status is the run's, except the reserved one. */
  function Trapped(status: Failure): nat {
    if status == REDUCED_GREEN then 1 else status
  }

  function Exit(j: Job, status: nat): Job { j.(exit := Some(status)) }

  /** A command that touches neither environment. */
  function Attempt(j: Job, done: Done): Job {
    if j.exit.Some? || done.Ok? then j else Exit(j, Trapped(done.status))
  }

  /** The same inside a shell function: the trap does not see it, and its status is the run's. */
  function AttemptInFunction(j: Job, done: Done): Job {
    if j.exit.Some? || done.Ok? then j else Exit(j, done.status)
  }

  // -- The phases ---------------------------------------------------------------

  function Refusal(w: Wish): Option<nat> {
    if w.argument.UnknownArgument? || w.argument.TwoArguments? then Some(2)
    else if w.index.Unreadable? then Some(2)
    else if w.contract.Named? && !w.contract.isDirectory then Some(1)
    else if w.client.Named? && !w.client.isDirectory then Some(1)
    else if w.client.Named? && w.contract.Unnamed? then Some(1)
    else None
  }

  function Decide(w: Wish, d: Disk): Job {
    if w.contract.Named? then Job([], [], d, Full, Some(Checkouts), false, Refusal(w))
    else if w.index.Yes? then Job([], [], d, Full, Some(Index), false, Refusal(w))
    else Job([], [], d, Reduced, None, false, Refusal(w))
  }

  /** What an install leaves of the distributions. Without `reinstall`, what is there stays. */
  function InstalledMain(m: Main, i: Install, reinstall: bool, o: Origin): Main {
    match i
    case Delivers =>
      m.(held := map d: Dist | d in {Contract, Boundary, ControlPlane} :: if d in m.held && !reinstall then m.held[d] else o)
    case TouchesNothing(_) => m
    case Wrecks(_, replaced, lost) => m.(held := (m.held + map d | d in replaced :: o) - {lost})
  }

  function HalfInstalledMain(m: Main, half: HalfMain, o: Origin): Main {
    m.(held := (m.held + map d | d in half.replaced :: o) - half.lost)
  }

  function InstalledClient(cl: Client, i: Install, reinstall: bool, o: Origin): Client {
    match i
    case Delivers => cl.(command := if cl.command.Some? && !reinstall then cl.command else Some(o))
    case TouchesNothing(_) => cl
    case Wrecks(_, _, _) => cl.(command := None)
  }

  function HalfInstalledClient(cl: Client, half: HalfClient, o: Origin): Client {
    match half
    case Untouched => cl
    case Lost => cl.(command := None)
    case Replaced => cl.(command := Some(o))
  }

  /** The install of a bracket, with what a kill inside it leaves. */
  function InstallInMain(ch: Choices, j: Job, reinstall: bool, o: Origin): Job {
    TouchMain(Amid(j, [j.disk.(main := HalfInstalledMain(j.disk.main, ch.halfMain, o))]),
      InstalledMain(j.disk.main, ch.installMain, reinstall, o))
  }

  function InstallInClient(ch: Choices, j: Job, reinstall: bool, o: Origin): Job {
    TouchClient(Amid(j, [j.disk.(client := HalfInstalledClient(j.disk.client, ch.halfClient, o))]),
      InstalledClient(j.disk.client, ch.installClient, reinstall, o))
  }

  /** Lines 277-285, in the bracket: record removed, installed, record written. */
  function ClientFromCheckout(ch: Choices, n: nat, j0: Job): Job {
    var j := TouchClient(j0, j0.disk.client.(made := true));
    var j := TouchClient(j, j.disk.client.(record := None));
    var j := InstallInClient(ch, j, true, Origin(Checkouts, n));
    if !ch.installClient.Delivers? then Exit(j, Trapped(ch.installClient.status))
    else TouchClient(j.(clientBuilt := true), j.disk.client.(record := Some(Checkouts)))
  }

  /** Lines 262-293: the checkouts are built, and the command from its own. */
  function BuildCheckouts(w: Wish, ch: Choices, n: nat, j0: Job): Job {
    if j0.exit.Some? || j0.route != Some(Checkouts) then j0
    else
      var j := Attempt(AttemptInFunction(j0, ch.readContract), ch.build);
      if j.exit.Some? then j
      else if w.client.Unnamed? then RemoveClient(j)
      else
        var j := Attempt(Attempt(AttemptInFunction(j, ch.readClient), ch.buildClient), ch.makeClient);
        if j.exit.Some? then j else ClientFromCheckout(ch, n, j)
  }

  /** Lines 337-344, in the bracket: record removed, installed, record written. */
  function InstallFromCheckouts(ch: Choices, n: nat, j0: Job): Job {
    var j := TouchMain(j0, j0.disk.main.(record := None));
    var j := InstallInMain(ch, j, true, Origin(Checkouts, n));
    if !ch.installMain.Delivers? then Exit(j, Trapped(ch.installMain.status))
    else TouchMain(j, j.disk.main.(record := Some(Checkouts)))
  }

  /** Lines 345-380: the index's own bracket, its refusal, and falling back to a reduced run. */
  function InstallFromIndex(ch: Choices, n: nat, j0: Job): Job {
    var previously := j0.disk.main.record;
    var j := TouchMain(j0, j0.disk.main.(record := None));
    var j := InstallInMain(ch, j, previously != Some(Index), Origin(Index, n));
    if ch.installMain.Delivers? then TouchMain(j, j.disk.main.(record := Some(Index)))
    else if previously == Some(Checkouts) && Importable(j.disk.main)
    then Exit(TouchMain(j, j.disk.main.(record := Some(Checkouts))), 1)
    else j.(mode := Reduced, route := None)
  }

  function InstallMain(ch: Choices, n: nat, j0: Job): Job {
    var j := Attempt(Attempt(j0, ch.makeMain), ch.readPins);
    if j.exit.Some? then j
    else match j.route
      case Some(Checkouts) => InstallFromCheckouts(ch, n, j)
      case Some(Index) => InstallFromIndex(ch, n, j)
      case None => j
  }

  /** Lines 408-442: the index's bracket around the command, its refusal, and doing without. */
  function CommandFromIndex(ch: Choices, n: nat, j0: Job): Job {
    var previously := j0.disk.client.record;
    var j := TouchClient(j0, j0.disk.client.(record := None));
    var j := InstallInClient(ch, j, previously != Some(Index), Origin(Index, n));
    if ch.installClient.Delivers? then TouchClient(j.(clientBuilt := true), j.disk.client.(record := Some(Index)))
    else if previously == Some(Checkouts) && j.disk.client.command.Some?
    then Exit(TouchClient(j, j.disk.client.(record := Some(Checkouts))), 1)
    else RemoveClient(j)
  }

  /** Lines 385-443: the command a person answers with, from the index. */
  function ClientFromIndex(ch: Choices, n: nat, j0: Job): Job {
    if j0.exit.Some? || j0.route != Some(Index) then j0
    else if !ch.contractPinned then Exit(j0, 1)
    else
      var j := if j0.disk.client.made then j0 else Attempt(j0, ch.makeClient);
      if j.exit.Some? then j
      else CommandFromIndex(ch, n, if j.disk.client.made then j else TouchClient(j, j.disk.client.(made := true)))
  }

  /** Lines 451-456: one distribution after another, those that are there. */
  function Remove(ch: Choices, ds: seq<Dist>, j: Job): Job
    decreases |ds|
  {
    if ds == [] || j.exit.Some? then j
    else if ds[0] !in j.disk.main.held then Remove(ch, ds[1..], j)
    else
      (match ch.uninstall(ds[0])
       case Failed(status) => Exit(j, Trapped(status))
       case Ok => Remove(ch, ds[1..], TouchMain(j, j.disk.main.(held := j.disk.main.held - {ds[0]}))))
  }

  /** Lines 450-471: a reduced run is this environment without the open distributions. */
  function Reduce(ch: Choices, j0: Job): Job {
    if j0.exit.Some? || j0.mode.Full? then j0
    else
      var j := Remove(ch, OPEN_DISTRIBUTIONS, j0);
      if j.exit.Some? then j
      else
        var j := TouchMain(j, j.disk.main.(record := None));
        var j := RemoveClient(j);
        if Importable(j.disk.main) then Exit(j, 1) else j
  }

  /** Lines 473-618: stopping early, or the checks and what their record makes of them. */
  function Conclude(w: Wish, ch: Choices, j0: Job): Job {
    if j0.exit.Some? then j0
    else if w.argument.EnvironmentOnly? then Exit(j0, if j0.mode.Full? then FULL_GREEN else REDUCED_GREEN)
    else if j0.mode.Full? && !ch.rootFits then Exit(j0, 1)
    else
      var j := Attempt(Attempt(Attempt(j0, ch.format), ch.lint), ch.tests);
      if j.exit.Some? then j
      else
        match ch.report
        case None => Exit(j, 1)
        case Some(Report(checks, modules, present)) =>
          if j.mode.Full? && j.clientBuilt then Exit(j, if checks != 0 then 1 else FULL_GREEN)
          else if checks < 1 then Exit(j, 1)
          else if (present as int) - modules < 1 then Exit(j, 1)
          else Exit(j, REDUCED_GREEN)
  }

  /** The run as it stands when the removal is reached. */
  function BeforeReducing(w: Wish, ch: Choices, n: nat, d: Disk): Job {
    var j := BuildCheckouts(w, ch, n, Attempt(Decide(w, d), ch.prepare));
    var j := InstallMain(ch, n, j);
    ClientFromIndex(ch, n, Attempt(Attempt(j, ch.installDev), ch.installSelf))
  }

  /** Run number `n`, from disk `d`. */
  function Execute(w: Wish, ch: Choices, n: nat, d: Disk): Job {
    Conclude(w, ch, Reduce(ch, BeforeReducing(w, ch, n, d)))
  }

  // -- Any number of runs, each killed anywhere ---------------------------------

  /** Where a run was killed: after so many of the disks between its commands, or at one of
      those inside a command. */
  datatype Kill = Never | After(count: nat) | Inside(index: nat)

  datatype Attempted = Attempted(wish: Wish, choices: Choices, kill: Kill)

  function Left(j: Job, kill: Kill): Disk {
    match kill
    case After(k) => if k < |j.past| then j.past[k] else j.disk
    case Inside(k) => if k < |j.within| then j.within[k] else j.disk
    case Never => j.disk
  }

  function DiskAfter(runs: seq<Attempted>): Disk {
    if runs == [] then NEW_DISK
    else
      var n := |runs| - 1;
      Left(Execute(runs[n].wish, runs[n].choices, n, DiskAfter(runs[..n])), runs[n].kill)
  }
}
