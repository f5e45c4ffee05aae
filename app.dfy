/**
 * The `App` struct of the terminal front-end as a class whose methods update
 * its fields in place, as the original does. Each method is proved to leave
 * the state that the function of the same name in module AppModel computes
 * from the state before the call, so every property proved about those
 * functions (module AppProperties) holds of the class.
 *
 * The three fixed lists of `App` (menu items, installation types, uninstall
 * types) never change and are the constants MENU_ACTIONS, INSTALLATION_TYPES
 * and UNINSTALL_KINDS of module AppModel. The ghost field `launches` records
 * every external program started, with its arguments.
 */
module AppMachine {
  import opened Wrappers
  import opened Text
  import opened AppModel

  class App {
    var menuSelected: Option<nat>
    var status: string
    var error: Option<string>
    var showError: bool
    var confirmation: Option<string>
    var confirmationFn: Option<Deferred>
    var showConfirmation: bool
    var packageList: seq<string>
    var packageSelected: Option<nat>
    var customPackageInput: string
    var viewState: ViewState
    var selectedPackages: seq<bool>
    var scriptOutput: seq<string>
    /** The receiving end of the command channel: the events sent and not yet received. */
    var scriptReceiver: Option<seq<CommandState>>
    var scriptLastViewState: ViewState
    var scriptProcess: Option<nat>
    var installationTypeSelected: Option<nat>
    var uninstallTypeSelected: Option<nat>
    var newVersion: Option<string>
    var scrollPosition: nat
    var infoMessage: Option<string>
    var showInfo: bool
    var terminalClear: bool
    ghost var launches: seq<Command>

    /** The fields as one value of the model. */
    ghost function State(): AppState
      reads this
    {
      AppState(menuSelected, status, error, showError, confirmation, confirmationFn, showConfirmation,
               packageList, packageSelected, customPackageInput, viewState, selectedPackages,
               scriptOutput, scriptReceiver, scriptLastViewState, scriptProcess,
               installationTypeSelected, uninstallTypeSelected, newVersion, scrollPosition,
               infoMessage, showInfo, terminalClear, launches)
    }

    /** The invariant the event loop keeps. */
    ghost predicate Valid()
      reads this
    {
      Inv(State())
    }

    /** `App::new`. */
    constructor ()
      ensures State() == Initial() && Valid()
    {
      menuSelected := Some(0);
      status := WELCOME_STATUS;
      error := None;
      showError := false;
      confirmation := None;
      confirmationFn := None;
      showConfirmation := false;
      packageList := [];
      packageSelected := None;
      customPackageInput := "";
      viewState := MainMenu;
      selectedPackages := [];
      scriptOutput := [];
      scriptReceiver := None;
      scriptLastViewState := MainMenu;
      scriptProcess := None;
      installationTypeSelected := None;
      uninstallTypeSelected := None;
      newVersion := None;
      scrollPosition := 0;
      infoMessage := None;
      showInfo := false;
      terminalClear := false;
      launches := [];
    }

    method Next()
      modifies this
      ensures State() == AppModel.Next(old(State()))
    {
      var i := match menuSelected
        case Some(i) => (i + 1) % MENU_ITEM_COUNT
        case None => 0;
      menuSelected := Some(i);
    }

    method Previous()
      modifies this
      ensures State() == AppModel.Previous(old(State()))
    {
      var i := match menuSelected
        case Some(i) => if i == 0 then MENU_ITEM_COUNT - 1 else i - 1
        case None => 0;
      menuSelected := Some(i);
    }

    method SetConfirmation(message: string, action: Deferred)
      modifies this
      ensures State() == AppModel.SetConfirmation(old(State()), message, action)
    {
      confirmation := Some(message);
      confirmationFn := Some(action);
      showConfirmation := true;
    }

    method HideConfirmation()
      modifies this
      ensures State() == AppModel.HideConfirmation(old(State()))
    {
      showConfirmation := false;
      confirmationFn := None;
      confirmation := None;
    }

    method SetError(message: string)
      modifies this
      ensures State() == AppModel.SetError(old(State()), message)
    {
      error := Some(message);
      showError := true;
    }

    method HideError()
      modifies this
      ensures State() == AppModel.HideError(old(State()))
    {
      showError := false;
      error := None;
    }

    method SetInfo(message: string)
      modifies this
      ensures State() == AppModel.SetInfo(old(State()), message)
    {
      infoMessage := Some(message);
      showInfo := true;
    }

    method HideInfo()
      modifies this
      ensures State() == AppModel.HideInfo(old(State()))
    {
      showInfo := false;
      infoMessage := None;
    }

    method SetViewState(v: ViewState)
      modifies this
      ensures State() == AppModel.SetViewState(old(State()), v)
    {
      viewState := v;
      terminalClear := true;
    }

    /** `run_command`: `spawn` is what starting `cmd` returned; `rx` is what its channel holds right away. */
    method RunCommand(cmd: Command, spawn: SpawnResult) returns (rx: seq<CommandState>)
      modifies this
      ensures (State(), rx) == AppModel.RunCommand(old(State()), cmd, spawn)
    {
      launches := launches + [cmd];
      match spawn {
        case Spawned(pid) =>
          scriptProcess := Some(pid);
          rx := [];
        case SpawnFailed(reason) =>
          rx := [StartError(reason)];
      }
    }

    /** `run_command_progress`: `result` is how the blocking run of `cmd` ended. */
    method RunCommandProgress(cmd: Command, result: RunResult)
      modifies this
      ensures State() == AppModel.RunCommandProgress(old(State()), cmd, result)
    {
      launches := launches + [cmd];
      match result {
        case Finished(code, stderr) =>
          if code.Some? {
            if code.value == 0 {
              SetInfo(MSG_COMMAND_SUCCESS);
            } else {
              SetError(ExitFailureText(code.value, stderr));
            }
          }
        case RunFailed(reason) =>
          SetError(MSG_START_ERROR + reason);
      }
      terminalClear := true;
    }

    /** `load_packages`: `catalog` is the catalog's lines, or None when it cannot be opened. */
    method LoadPackages(catalog: Option<seq<string>>)
      modifies this
      ensures State() == AppModel.LoadPackages(old(State()), catalog)
    {
      var packages := match catalog
        case Some(lines) => FilterCatalog(lines)
        case None => [];
      SetPackages([CUSTOM_PACKAGES_ENTRY] + packages);
      viewState := PackageList;
    }

    /** Replace the package list, with no entry ticked and the cursor on the first entry. */
    method SetPackages(list: seq<string>)
      modifies this
      ensures State() == old(State()).(packageList := list, selectedPackages := seq(|list|, _ => false),
                                       packageSelected := Some(0))
    {
      packageList := list;
      selectedPackages := seq(|list|, _ => false);
      packageSelected := Some(0);
    }

    method TogglePackage()
      requires packageSelected.Some? ==> packageSelected.value < |selectedPackages|
      modifies this
      ensures State() == AppModel.TogglePackage(old(State()))
    {
      if packageSelected.Some? {
        var selected := packageSelected.value;
        if selected == 0 {
          viewState := CustomPackageInput;
        } else {
          selectedPackages := selectedPackages[selected := !selectedPackages[selected]];
        }
      }
    }

    method InstallSelectedPackages(run: RunResult)
      modifies this
      ensures State() == AppModel.InstallSelectedPackages(old(State()), run)
    {
      var names := SelectedNames(packageList, selectedPackages);
      if names == [] {
        return;
      }
      RunCommandProgress(InstallerCommand(names), run);
    }

    method InstallCustomPackages(run: RunResult)
      modifies this
      ensures State() == AppModel.InstallCustomPackages(old(State()), run)
    {
      var packages := SplitWhitespace(customPackageInput);
      if packages == [] {
        status := MSG_NO_PACKAGES_SPECIFIED;
        return;
      }
      RunCommandProgress(InstallerCommand(packages), run);
      customPackageInput := "";
    }

    method StartPackageInstallation(run: RunResult)
      modifies this
      ensures State() == AppModel.StartPackageInstallation(old(State()), run)
    {
      var names := SelectedNames(packageList, selectedPackages);
      if names == [] {
        status := MSG_NO_PACKAGES_SELECTED;
        return;
      }
      RunCommandProgress(InstallerCommand(names), run);
    }

    /** The reader and waiter threads of the running command send `events`. */
    method Deliver(events: seq<CommandState>)
      modifies this
      ensures State() == AppModel.Deliver(old(State()), events)
    {
      if scriptReceiver.Some? {
        scriptReceiver := Some(scriptReceiver.value + events);
      }
    }

    /**
     * The receiving loop of `update_script_progress`: take the events of
     * `queue` one at a time, appending output lines to the output, recording
     * each failure as the error to show, and noting whether the session
     * ended. The results are what the output, the error and its flag become,
     * and whether the process is to be forgotten.
     */
    method ReceiveAll(queue: seq<CommandState>) returns (output: seq<string>, err: Option<string>, shown: bool, clearProcess: bool)
      ensures output == scriptOutput + OutputLines(queue)
      ensures err == (if LastError(queue).Some? then LastError(queue) else error)
      ensures shown == (showError || LastError(queue).Some?)
      ensures clearProcess == AnyTerminal(queue)
    {
      output, err, shown, clearProcess := scriptOutput, error, showError, false;
      var k := 0;
      while k < |queue|
        invariant 0 <= k <= |queue|
        invariant output == scriptOutput + OutputLines(queue[..k])
        invariant err == (if LastError(queue[..k]).Some? then LastError(queue[..k]) else error)
        invariant shown == (showError || LastError(queue[..k]).Some?)
        invariant clearProcess == AnyTerminal(queue[..k])
      {
        match queue[k] {
          case OutputLine(line) =>
            output := output + [line];
          case Completed =>
            clearProcess := true;
          case Exit =>
            err := Some(MSG_COMMAND_FAILED);
            shown := true;
            clearProcess := true;
          case StartError(reason) =>
            err := Some(MSG_START_ERROR + reason);
            shown := true;
            clearProcess := true;
          case WaitError(reason) =>
            err := Some(MSG_WAIT_ERROR + reason);
            shown := true;
            clearProcess := true;
        }
        assert queue[..k + 1][..k] == queue[..k];
        k := k + 1;
      }
      assert queue[..k] == queue;
    }

    /**
     * `update_script_progress`: empty the channel; if the session ended,
     * drop the channel and forget the process.
     */
    method UpdateScriptProgress()
      modifies this
      ensures State() == AppModel.UpdateScriptProgress(old(State()))
    {
      if scriptReceiver.None? {
        return;
      }
      var output, err, shown, clearProcess := ReceiveAll(scriptReceiver.value);
      KeepReceived(output, err, shown);
      scriptReceiver := Some([]);
      if clearProcess {
        EndSession();
      }
    }

    /** Store what the receiving loop produced. */
    method KeepReceived(output: seq<string>, err: Option<string>, shown: bool)
      modifies this
      ensures State() == old(State()).(scriptOutput := output, error := err, showError := shown)
    {
      scriptOutput := output;
      error := err;
      showError := shown;
    }

    /** The session is over: drop the channel and forget the process. */
    method EndSession()
      modifies this
      ensures State() == AppModel.EndSession(old(State()))
    {
      scriptReceiver := None;
      scriptProcess := None;
    }

    /** `handle_install`: `osName` is the name the host reports. */
    method HandleInstall(osName: Option<string>)
      modifies this
      ensures State() == AppModel.HandleInstall(old(State()), osName)
    {
      match osName {
        case Some(name) =>
          if Contains(name, OS_NAME) {
            SetError(MSG_ALREADY_INSTALLED);
          } else {
            SetViewState(InstallationType);
            installationTypeSelected := Some(0);
          }
        case None =>
          SetError(MSG_OS_NOT_DETECTED);
      }
    }

    method HandleInstallationType()
      requires CursorsInRange(State())
      modifies this
      ensures State() == AppModel.HandleInstallationType(old(State()))
    {
      if installationTypeSelected.Some? {
        var installType := INSTALLATION_TYPES[installationTypeSelected.value].0;
        SetConfirmation(InstallConfirmationText(installType), RerunSelectedAction);
      }
    }

    method CheckUpdates(spawn: SpawnResult)
      modifies this
      ensures State() == AppModel.CheckUpdates(old(State()), spawn)
    {
      ResetOutput();
      SetViewState(UpdateCheck);
      var rx := RunCommand(CHECK_UPDATE_COMMAND, spawn);
      scriptReceiver := Some(rx);
    }

    /** Clear the output pane and remember the view to return to. */
    method ResetOutput()
      modifies this
      ensures State() == AppModel.ResetOutput(old(State()))
    {
      scriptOutput := [];
      scriptLastViewState := viewState;
    }

    method HandleUpdate(osName: Option<string>, spawn: SpawnResult)
      modifies this
      ensures State() == AppModel.HandleUpdate(old(State()), osName, spawn)
    {
      match osName {
        case Some(name) =>
          if Contains(name, OS_NAME) {
            CheckUpdates(spawn);
          } else {
            SetError(MSG_UPDATE_UNSUPPORTED + name);
          }
        case None =>
          SetError(MSG_OS_NOT_DETECTED);
      }
    }

    method StartUpdate(run: RunResult)
      requires newVersion.Some?
      modifies this
      ensures State() == AppModel.StartUpdate(old(State()), run)
    {
      var version := newVersion.value;
      newVersion := None;
      RunCommandProgress(UpdateCommand(version), run);
    }

    method HandleUninstall(osName: Option<string>)
      modifies this
      ensures State() == AppModel.HandleUninstall(old(State()), osName)
    {
      match osName {
        case Some(name) =>
          if Contains(name, OS_NAME) {
            SetViewState(UninstallType);
            uninstallTypeSelected := Some(0);
          } else {
            SetError(MSG_UPDATE_UNSUPPORTED + name);
          }
        case None =>
          SetError(MSG_OS_NOT_DETECTED);
      }
    }

    method HandleUninstallType()
      requires CursorsInRange(State())
      modifies this
      ensures State() == AppModel.HandleUninstallType(old(State()))
    {
      if uninstallTypeSelected.Some? {
        var kind := UNINSTALL_KINDS[uninstallTypeSelected.value];
        SetConfirmation(UninstallConfirmationText(kind), RunUninstall(kind));
      }
    }

    method RunInstallationScript(run: RunResult)
      requires CursorsInRange(State())
      modifies this
      ensures State() == AppModel.RunInstallationScript(old(State()), run)
    {
      if installationTypeSelected.Some? {
        var installType := INSTALLATION_TYPES[installationTypeSelected.value].1;
        RunCommandProgress(InstallCommand(installType), run);
      }
    }

    method RunMenuItem(host: Host)
      requires CursorsInRange(State())
      modifies this
      ensures State() == AppModel.RunMenuItem(old(State()), host)
    {
      if menuSelected.Some? {
        var action := MENU_ACTIONS[menuSelected.value];
        if action == "install" {
          HandleInstall(host.osName);
        } else if action == "update" {
          HandleUpdate(host.osName, host.spawn);
        } else if action == "uninstall" {
          HandleUninstall(host.osName);
        } else if action == "install_package" {
          LoadPackages(host.catalog);
        }
      }
    }

    /** `run_selected_action`. */
    method RunSelectedAction(host: Host)
      requires CursorsInRange(State())
      requires viewState == UpdateCheck ==> newVersion.Some?
      modifies this
      ensures State() == AppModel.RunSelectedAction(old(State()), host)
    {
      match viewState {
        case MainMenu =>
          RunMenuItem(host);
        case PackageList =>
          InstallSelectedPackages(host.run);
        case CustomPackageInput =>
          InstallCustomPackages(host.run);
        case ScriptProgress =>
          UpdateScriptProgress();
        case InstallationType =>
          if !showConfirmation {
            HandleInstallationType();
          } else {
            RunInstallationScript(host.run);
          }
        case UpdateCheck =>
          viewState := scriptLastViewState;
          StartUpdate(host.run);
        case UninstallType =>
          if !showConfirmation {
            HandleUninstallType();
          }
      }
    }

    /** Calling the boxed closure of an accepted confirmation. */
    method RunDeferred(action: Deferred, host: Host)
      requires CursorsInRange(State())
      requires action == RerunSelectedAction && viewState == UpdateCheck ==> newVersion.Some?
      modifies this
      ensures State() == AppModel.RunDeferred(old(State()), action, host)
    {
      match action {
        case RerunSelectedAction =>
          RunSelectedAction(host);
        case RunUninstall(kind) =>
          RunCommandProgress(UninstallCommand(kind), host.run);
        case UpdateTo(version) =>
          SetViewState(UpdateCheck);
          newVersion := Some(version);
          RunSelectedAction(host);
        case BackToMainMenu =>
          SetViewState(MainMenu);
      }
    }

    /** The update-check screen's decision once the check is over; `osVersion` is the version the host reports. */
    method UpdateCheckDecision(osVersion: Option<string>)
      modifies this
      ensures State() == AppModel.UpdateCheckDecision(old(State()), osVersion)
    {
      if scriptReceiver.None? {
        if !showError {
          var (message, action) := UpdateOffer(scriptOutput, osVersion);
          SetConfirmation(message, action);
        }
        SetViewState(scriptLastViewState);
      }
    }

    /** Take the process id (the process itself is killed through the host) and report the cancellation. */
    method CancelProcess()
      modifies this
      ensures State() == AppModel.CancelProcess(old(State()))
    {
      if scriptProcess.Some? {
        scriptProcess := None;
        status := MSG_TASK_CANCELLED;
      }
    }

    method ConfirmationKey(key: Key, host: Host)
      requires Valid()
      modifies this
      ensures State() == AppModel.ConfirmationKey(old(State()), key, host)
    {
      match key {
        case Enter =>
          if confirmationFn.Some? {
            var action := confirmationFn.value;
            confirmationFn := None;
            RunDeferred(action, host);
          }
          HideConfirmation();
        case Esc =>
          HideConfirmation();
        case _ =>
      }
    }

    method MainMenuKey(key: Key, host: Host) returns (quit: bool)
      requires Valid() && !showConfirmation && viewState == MainMenu
      modifies this
      ensures (State(), quit) == AppModel.MainMenuKey(old(State()), key, host)
    {
      quit := false;
      match key {
        case Char(c) => quit := c == 'q';
        case Up => Previous();
        case Down => Next();
        case Enter => RunSelectedAction(host);
        case _ =>
      }
    }

    method PackageListKey(key: Key, host: Host) returns (quit: bool)
      requires Valid() && !showConfirmation && viewState == PackageList
      modifies this
      ensures (State(), quit) == AppModel.PackageListKey(old(State()), key, host)
    {
      quit := false;
      match key {
        case Char(c) =>
          if c == 'q' {
            quit := true;
          } else if c == ' ' {
            TogglePackage();
          }
        case Up =>
          var i := match packageSelected
            case Some(i) => if i == 0 then |packageList| - 1 else i - 1
            case None => 0;
          packageSelected := Some(i);
        case Down =>
          var i := match packageSelected
            case Some(i) => (i + 1) % |packageList|
            case None => 0;
          packageSelected := Some(i);
        case Enter =>
          if AnySelected(selectedPackages) {
            StartPackageInstallation(host.run);
          } else {
            TogglePackage();
          }
        case Esc =>
          SetViewState(MainMenu);
        case _ =>
      }
    }

    method CustomPackageInputKey(key: Key, host: Host) returns (quit: bool)
      requires Valid() && !showConfirmation && viewState == CustomPackageInput
      modifies this
      ensures (State(), quit) == AppModel.CustomPackageInputKey(old(State()), key, host)
    {
      quit := false;
      match key {
        case Char(c) =>
          if c == 'q' {
            quit := true;
          } else {
            customPackageInput := customPackageInput + [c];
          }
        case Backspace =>
          if customPackageInput != [] {
            customPackageInput := customPackageInput[..|customPackageInput| - 1];
          }
        case Enter =>
          RunSelectedAction(host);
        case Esc =>
          SetViewState(PackageList);
        case _ =>
      }
    }

    method ScriptProgressKey(key: Key)
      requires Valid() && !showConfirmation && viewState == ScriptProgress
      modifies this
      ensures State() == AppModel.ScriptProgressKey(old(State()), key)
    {
      match key {
        case Enter =>
          if scriptProcess.None? {
            SetViewState(scriptLastViewState);
          }
        case Esc =>
          CancelProcess();
          SetViewState(scriptLastViewState);
        case Up =>
          scrollPosition := SaturatingSub(scrollPosition, 1);
        case Down =>
          scrollPosition := SaturatingAdd(scrollPosition, 1);
        case PageUp =>
          scrollPosition := SaturatingSub(scrollPosition, 10);
        case PageDown =>
          scrollPosition := SaturatingAdd(scrollPosition, 10);
        case _ =>
      }
    }

    method InstallationTypeKey(key: Key, host: Host) returns (quit: bool)
      requires Valid() && !showConfirmation && viewState == InstallationType
      modifies this
      ensures (State(), quit) == AppModel.InstallationTypeKey(old(State()), key, host)
    {
      quit := false;
      match key {
        case Char(c) => quit := c == 'q';
        case Up =>
          var i := match installationTypeSelected
            case Some(i) => if i == 0 then INSTALLATION_TYPE_COUNT - 1 else i - 1
            case None => 0;
          installationTypeSelected := Some(i);
        case Down =>
          var i := match installationTypeSelected
            case Some(i) => (i + 1) % INSTALLATION_TYPE_COUNT
            case None => 0;
          installationTypeSelected := Some(i);
        case Enter =>
          RunSelectedAction(host);
        case Esc =>
          SetViewState(MainMenu);
        case _ =>
      }
    }

    method UpdateCheckKey(key: Key)
      requires Valid() && !showConfirmation && viewState == UpdateCheck
      modifies this
      ensures State() == AppModel.UpdateCheckKey(old(State()), key)
    {
      if key == Esc {
        CancelProcess();
        SetViewState(MainMenu);
      }
    }

    method UninstallTypeKey(key: Key, host: Host) returns (quit: bool)
      requires Valid() && !showConfirmation && viewState == UninstallType
      modifies this
      ensures (State(), quit) == AppModel.UninstallTypeKey(old(State()), key, host)
    {
      quit := false;
      match key {
        case Char(c) => quit := c == 'q';
        case Up =>
          var i := match uninstallTypeSelected
            case Some(i) => if i == 0 then UNINSTALL_TYPE_COUNT - 1 else i - 1
            case None => 0;
          uninstallTypeSelected := Some(i);
        case Down =>
          var i := match uninstallTypeSelected
            case Some(i) => (i + 1) % UNINSTALL_TYPE_COUNT
            case None => 0;
          uninstallTypeSelected := Some(i);
        case Enter =>
          RunSelectedAction(host);
        case Esc =>
          SetViewState(MainMenu);
        case _ =>
      }
    }

    method ViewKey(key: Key, host: Host) returns (quit: bool)
      requires Valid() && !showConfirmation
      modifies this
      ensures (State(), quit) == AppModel.ViewKey(old(State()), key, host)
    {
      quit := false;
      match viewState {
        case MainMenu => quit := MainMenuKey(key, host);
        case PackageList => quit := PackageListKey(key, host);
        case CustomPackageInput => quit := CustomPackageInputKey(key, host);
        case ScriptProgress => ScriptProgressKey(key);
        case InstallationType => quit := InstallationTypeKey(key, host);
        case UpdateCheck => UpdateCheckKey(key);
        case UninstallType => quit := UninstallTypeKey(key, host);
      }
    }

    /** One key press, routed to the topmost dialog or else to the view. */
    method HandleKey(key: Key, host: Host) returns (quit: bool)
      requires Valid()
      modifies this
      ensures (State(), quit) == AppModel.HandleKey(old(State()), key, host)
      ensures Valid()
    {
      quit := false;
      if showError {
        if key == Enter || key == Esc {
          HideError();
        }
      } else if showConfirmation {
        ConfirmationKey(key, host);
      } else if showInfo {
        if key == Enter || key == Esc {
          HideInfo();
        }
      } else {
        quit := ViewKey(key, host);
      }
    }

    /** A pending request to clear the terminal is served (the clearing itself is output). */
    method ClearTerminal()
      modifies this
      ensures State() == old(State()).(terminalClear := false)
    {
      if terminalClear {
        terminalClear := false;
      }
    }

    /** One pass of the event loop of `run_tui`. */
    method Tick(key: Option<Key>, host: Host) returns (quit: bool)
      requires Valid()
      modifies this
      ensures (State(), quit) == AppModel.Tick(old(State()), key, host)
      ensures Valid()
    {
      Deliver(host.sent);
      assert Valid();
      UpdateScriptProgress();
      ClearTerminal();
      assert Valid();
      if viewState == UpdateCheck {
        UpdateCheckDecision(host.osVersion);
      }
      assert Valid();
      quit := false;
      if key.Some? {
        quit := HandleKey(key.value, host);
      }
    }

    /** The event loop of `run_tui`: one pass per entry, until a pass asks to quit. */
    method RunTui(keys: seq<Option<Key>>, hosts: seq<Host>) returns (quit: bool)
      requires Valid() && |keys| == |hosts|
      modifies this
      ensures (State(), quit) == AppModel.Run(old(State()), keys, hosts)
      ensures Valid()
    {
      quit := false;
      var k := 0;
      while k < |keys| && !quit
        invariant 0 <= k <= |keys|
        invariant Valid()
        invariant quit ==> (State(), true) == AppModel.Run(old(State()), keys, hosts)
        invariant !quit ==> AppModel.Run(State(), keys[k..], hosts[k..]) == AppModel.Run(old(State()), keys, hosts)
      {
        assert keys[k..][1..] == keys[k + 1..] && hosts[k..][1..] == hosts[k + 1..];
        quit := Tick(keys[k], hosts[k]);
        k := k + 1;
      }
    }
  }
}
