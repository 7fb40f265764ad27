/** The gate as the script it is: variables reassigned, and two environments changed in place. */
module GateScript {
  import opened Options
  import opened Gate

  class Machine {
    var main: Main
    var client: Client
    var mode: Mode
    var route: Option<Route>
    var clientBuilt: bool
    var exit: Option<nat>
    ghost var past: seq<Disk>     // every disk there was before the one there is
    ghost var within: seq<Disk>   // every disk only a kill inside a command leaves

    constructor ()
      ensures Disk() == NEW_DISK
    {
      main, client := NEW_DISK.main, NEW_DISK.client;
      mode, route, clientBuilt, exit := Full, None, false, None;
      past, within := [], [];
    }

    function Disk(): Disk
      reads this
    {
      Gate.Disk(main, client)
    }

    ghost function Progress(): Job
      reads this
    {
      Job(past, within, Disk(), mode, route, clientBuilt, exit)
    }

    method SetMain(m: Main)
      modifies this
      ensures Progress() == TouchMain(old(Progress()), m)
    {
      past := past + [Disk()];
      main := m;
    }

    method SetClient(cl: Client)
      modifies this
      ensures Progress() == TouchClient(old(Progress()), cl)
    {
      past := past + [Disk()];
      client := cl;
    }

    /** The install of a bracket. */
    method InstallInMain(ch: Choices, reinstall: bool, o: Origin)
      modifies this
      ensures Progress() == Gate.InstallInMain(ch, old(Progress()), reinstall, o)
    {
      within := within + [Disk().(main := HalfInstalledMain(main, ch.halfMain, o))];
      SetMain(InstalledMain(main, ch.installMain, reinstall, o));
    }

    method InstallInClient(ch: Choices, reinstall: bool, o: Origin)
      modifies this
      ensures Progress() == Gate.InstallInClient(ch, old(Progress()), reinstall, o)
    {
      within := within + [Disk().(client := HalfInstalledClient(client, ch.halfClient, o))];
      SetClient(InstalledClient(client, ch.installClient, reinstall, o));
    }

    /** `rm -rf` of the command's environment. */
    method RemoveClient()
      modifies this
      ensures Progress() == Gate.RemoveClient(old(Progress()))
    {
      within := within + PartlyRemoved(Disk());
      SetClient(NO_CLIENT);
    }

    /** A command under `set -e`, with the ERR trap. */
    method Try(done: Done)
      modifies this
      ensures Progress() == Attempt(old(Progress()), done)
    {
      if exit.None? && done.Failed? { exit := Some(Trapped(done.status)); }
    }

    /** A command inside a shell function, which the trap does not see. */
    method TryInFunction(done: Done)
      modifies this
      ensures Progress() == AttemptInFunction(old(Progress()), done)
    {
      if exit.None? && done.Failed? { exit := Some(done.status); }
    }

    method ChooseRoute(w: Wish)
      modifies this
      ensures Progress() == Decide(w, old(Disk()))
    {
      past, within, clientBuilt, exit := [], [], false, Refusal(w);
      if w.contract.Named? { mode, route := Full, Some(Checkouts); }
      else if w.index.Yes? { mode, route := Full, Some(Index); }
      else { mode, route := Reduced, None; }
    }

    method BuildFromCheckouts(w: Wish, ch: Choices, n: nat)
      modifies this
      ensures Progress() == BuildCheckouts(w, ch, n, old(Progress()))
    {
      if exit.Some? || route != Some(Checkouts) { return; }
      TryInFunction(ch.readContract);
      Try(ch.build);
      if exit.Some? { return; }
      if w.client.Unnamed? { RemoveClient(); return; }
      TryInFunction(ch.readClient);
      Try(ch.buildClient);
      Try(ch.makeClient);
      if exit.Some? { return; }
      SetClient(client.(made := true));
      SetClient(client.(record := None));
      InstallInClient(ch, true, Origin(Checkouts, n));
      if !ch.installClient.Delivers? { exit := Some(Trapped(ch.installClient.status)); return; }
      clientBuilt := true;
      SetClient(client.(record := Some(Checkouts)));
    }

    method FillMain(ch: Choices, n: nat)
      modifies this
      ensures Progress() == InstallMain(ch, n, old(Progress()))
    {
      Try(ch.makeMain);
      Try(ch.readPins);
      if exit.Some? || route.None? { return; }
      var previously := main.record;
      SetMain(main.(record := None));
      if route == Some(Checkouts) {
        InstallInMain(ch, true, Origin(Checkouts, n));
        if !ch.installMain.Delivers? { exit := Some(Trapped(ch.installMain.status)); return; }
        SetMain(main.(record := Some(Checkouts)));
        return;
      }
      InstallInMain(ch, previously != Some(Index), Origin(Index, n));
      if ch.installMain.Delivers? {
        SetMain(main.(record := Some(Index)));
      } else if previously == Some(Checkouts) && Importable(main) {
        SetMain(main.(record := Some(Checkouts)));
        exit := Some(1);
      } else {
        mode, route := Reduced, None;
      }
    }

    method FillClient(ch: Choices, n: nat)
      modifies this
      ensures Progress() == ClientFromIndex(ch, n, old(Progress()))
    {
      if exit.Some? || route != Some(Index) { return; }
      if !ch.contractPinned { exit := Some(1); return; }
      var previously := client.record;
      if !client.made {
        Try(ch.makeClient);
        if exit.Some? { return; }
        SetClient(client.(made := true));
      }
      SetClient(client.(record := None));
      InstallInClient(ch, previously != Some(Index), Origin(Index, n));
      if ch.installClient.Delivers? {
        clientBuilt := true;
        SetClient(client.(record := Some(Index)));
      } else if previously == Some(Checkouts) && client.command.Some? {
        SetClient(client.(record := Some(Checkouts)));
        exit := Some(1);
      } else {
        RemoveClient();
      }
    }

    /** The loop of a reduced run, and the measurement after it. */
    method StripDown(ch: Choices)
      modifies this
      ensures Progress() == Reduce(ch, old(Progress()))
    {
      if exit.Some? || mode.Full? { return; }
      var ds := OPEN_DISTRIBUTIONS;
      var i := 0;
      while i < |ds|
        invariant 0 <= i <= |ds| && exit.None? && mode.Reduced?
        invariant Remove(ch, ds[i..], Progress()) == Remove(ch, ds, old(Progress()))
      {
        if ds[i] in main.held {
          if ch.uninstall(ds[i]).Failed? {
            exit := Some(Trapped(ch.uninstall(ds[i]).status));
            return;
          }
          SetMain(main.(held := main.held - {ds[i]}));
        }
        i := i + 1;
      }
      SetMain(main.(record := None));
      RemoveClient();
      if Importable(main) { exit := Some(1); }
    }

    method Check(w: Wish, ch: Choices)
      modifies this
      ensures Progress() == Conclude(w, ch, old(Progress()))
      ensures exit.Some?
    {
      if exit.Some? { return; }
      if w.argument.EnvironmentOnly? {
        exit := Some(if mode.Full? then FULL_GREEN else REDUCED_GREEN);
        return;
      }
      if mode.Full? && !ch.rootFits { exit := Some(1); return; }
      Try(ch.format);
      Try(ch.lint);
      Try(ch.tests);
      if exit.Some? { return; }
      if ch.report.None? { exit := Some(1); return; }
      var Report(checks, modules, present) := ch.report.value;
      var modulesRun := present as int - modules;
      var absent := mode.Reduced? || !clientBuilt;
      if !absent {
        exit := Some(if checks != 0 then 1 else FULL_GREEN);
      } else if checks < 1 || modulesRun < 1 {
        exit := Some(1);
      } else {
        exit := Some(REDUCED_GREEN);
      }
    }

    /** Everything before the removal. */
    method Prepare(w: Wish, ch: Choices, n: nat)
      modifies this
      ensures Progress() == BeforeReducing(w, ch, n, old(Disk()))
    {
      ChooseRoute(w);
      Try(ch.prepare);
      BuildFromCheckouts(w, ch, n);
      FillMain(ch, n);
      Try(ch.installDev);
      Try(ch.installSelf);
      FillClient(ch, n);
    }

    /** One run of the gate, from top to bottom. */
    method Run(w: Wish, ch: Choices, n: nat) returns (status: nat)
      modifies this
      ensures Progress() == Execute(w, ch, n, old(Disk()))
      ensures exit == Some(status)
    {
      Prepare(w, ch, n);
      StripDown(ch);
      Check(w, ch);
      status := exit.value;
    }
  }
}
