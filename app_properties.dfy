/**
 * Properties of the application state machine in module AppModel: what
 * the list cursors, the package catalog and selection, the command channel,
 * the modal dialogs and the update check guarantee, over all inputs.
 */
module AppProperties {
  import opened Wrappers
  import opened Text
  import opened AppModel
  import Localization

  // ---------------------------------------------------------------------
  // Cursors
  // ---------------------------------------------------------------------

  lemma MulAtLeast(d: int, n: int)
    requires d >= 1 && n >= 0
    ensures d * n >= n
  {
    assert d * n == (d - 1) * n + n;
  }

  /** Euclidean remainder is determined by any decomposition `a == q * n + m` with `0 <= m < n`. */
  lemma ModUnique(a: int, n: int, q: int, m: int)
    requires 0 <= m < n && a == q * n + m
    ensures a % n == m
  {
    var q', m' := a / n, a % n;
    assert a == q' * n + m';
    assert (q - q') * n == m' - m;
    if q - q' >= 1 {
      MulAtLeast(q - q', n);
    } else if q' - q >= 1 {
      MulAtLeast(q' - q, n);
    }
  }

  /** One step down from entry `i`: the next entry, or the first after the last. */
  lemma NextIndexStep(i: nat, len: nat)
    requires i < len
    ensures NextIndex(Some(i), len) == if i + 1 < len then i + 1 else 0
  {
    if i + 1 < len {
      ModUnique(i + 1, len, 0, i + 1);
    } else {
      ModUnique(i + 1, len, 1, 0);
    }
  }

  /** Up undoes Down and Down undoes Up on every entry of a non-empty list. */
  lemma NextPreviousInverse(i: nat, len: nat)
    requires i < len
    ensures PreviousIndex(Some(NextIndex(Some(i), len)), len) == i
    ensures NextIndex(Some(PreviousIndex(Some(i), len)), len) == i
  {
    NextIndexStep(i, len);
    NextIndexStep(PreviousIndex(Some(i), len), len);
  }

  /** The position after `k` presses of Down, starting from entry `i`. */
  function DownPresses(i: nat, len: nat, k: nat): (r: nat)
    requires i < len
    ensures r < len
  {
    if k == 0 then i else NextIndex(Some(DownPresses(i, len, k - 1)), len)
  }

  /** `k` presses of Down move the cursor `k` entries on, modulo the length: `len` presses come back. */
  lemma {:induction false} DownPressesWrap(i: nat, len: nat, k: nat)
    requires i < len
    ensures DownPresses(i, len, k) == (i + k) % len
  {
    if k == 0 {
      ModUnique(i, len, 0, i);
    } else {
      DownPressesWrap(i, len, k - 1);
      var m := (i + k - 1) % len;
      var q := (i + k - 1) / len;
      assert i + k - 1 == q * len + m;
      NextIndexStep(m, len);
      if m + 1 < len {
        ModUnique(i + k, len, q, m + 1);
      } else {
        assert i + k == (q + 1) * len;
        ModUnique(i + k, len, q + 1, 0);
      }
    }
  }

  // ---------------------------------------------------------------------
  // Package catalog
  // ---------------------------------------------------------------------

  /** A catalog line is kept exactly when it has a non-whitespace character and does not start with `#`. */
  lemma PackageLineIff(line: string)
    ensures IsPackageLine(line) <==> !AllWhitespace(line) && !(|line| > 0 && line[0] == '#')
  {
    TrimEmptyIff(line);
  }

  /** The list holds exactly the package lines of the catalog. */
  lemma {:induction false} FilterCatalogMembers(lines: seq<string>, x: string)
    ensures x in FilterCatalog(lines) <==> x in lines && IsPackageLine(x)
  {
    if lines != [] {
      FilterCatalogMembers(lines[1..], x);
      assert lines == [lines[0]] + lines[1..];
    }
  }

  /** Filtering keeps file order: the catalog can be filtered piecewise. */
  lemma {:induction false} FilterCatalogAppend(a: seq<string>, b: seq<string>)
    ensures FilterCatalog(a + b) == FilterCatalog(a) + FilterCatalog(b)
  {
    if a == [] {
      assert a + b == b;
    } else {
      var head := if IsPackageLine(a[0]) then [a[0]] else [];
      assert (a + b)[0] == a[0] && (a + b)[1..] == a[1..] + b;
      assert FilterCatalog(a + b) == head + FilterCatalog(a[1..] + b);
      FilterCatalogAppend(a[1..], b);
    }
  }

  /** Opening the package list: the custom entry first, then the catalog's packages, nothing selected. */
  lemma LoadPackagesShape(s: AppState, catalog: Option<seq<string>>)
    ensures var r := LoadPackages(s, catalog);
      && r.packageList[0] == CUSTOM_PACKAGES_ENTRY
      && r.packageList[1..] == (if catalog.Some? then FilterCatalog(catalog.value) else [])
      && |r.selectedPackages| == |r.packageList|
      && !AnySelected(r.selectedPackages)
      && r.packageSelected == Some(0)
      && r.viewState == PackageList
      && r.launches == s.launches
  {
    var r := LoadPackages(s, catalog);
    assert r.packageList[1..] == (if catalog.Some? then FilterCatalog(catalog.value) else []);
  }

  // ---------------------------------------------------------------------
  // Package selection
  // ---------------------------------------------------------------------

  /** A name is picked exactly when it stands at a set flag. */
  lemma {:induction false} PickSelectedMembers(names: seq<string>, flags: seq<bool>, x: string)
    requires |names| == |flags|
    ensures x in PickSelected(names, flags) <==> exists i :: 0 <= i < |names| && flags[i] && names[i] == x
  {
    if names != [] {
      PickSelectedMembers(names[1..], flags[1..], x);
      if x in PickSelected(names[1..], flags[1..]) {
        var j :| 0 <= j < |names[1..]| && flags[1..][j] && names[1..][j] == x;
        assert flags[j + 1] && names[j + 1] == x;
      }
      if exists i :: 0 <= i < |names| && flags[i] && names[i] == x {
        var i :| 0 <= i < |names| && flags[i] && names[i] == x;
        if i > 0 {
          assert flags[1..][i - 1] && names[1..][i - 1] == x;
        }
      }
    }
  }

  /** Nothing is picked exactly when no flag is set. */
  lemma {:induction false} PickSelectedEmptyIff(names: seq<string>, flags: seq<bool>)
    requires |names| == |flags|
    ensures PickSelected(names, flags) == [] <==> !AnySelected(flags)
  {
    if names != [] {
      PickSelectedEmptyIff(names[1..], flags[1..]);
      if AnySelected(flags[1..]) {
        var j :| 0 <= j < |flags[1..]| && flags[1..][j];
        assert flags[j + 1];
      }
      if AnySelected(flags) && !flags[0] {
        var i :| 0 <= i < |flags| && flags[i];
        assert flags[1..][i - 1];
      }
    }
  }

  /**
   * With the custom entry never flagged, the selection to install is empty
   * exactly when no flag is set: Enter on the list installs exactly when
   * something is selected.
   */
  lemma SelectedNamesEmptyIff(s: AppState)
    requires Indexed(s)
    ensures SelectedNames(s.packageList, s.selectedPackages) == [] <==> !AnySelected(s.selectedPackages)
  {
    if s.packageList != [] {
      PickSelectedEmptyIff(s.packageList[1..], s.selectedPackages[1..]);
      if AnySelected(s.selectedPackages) {
        var i :| 0 <= i < |s.selectedPackages| && s.selectedPackages[i];
        assert s.selectedPackages[1..][i - 1];
      }
      if AnySelected(s.selectedPackages[1..]) {
        var j :| 0 <= j < |s.selectedPackages[1..]| && s.selectedPackages[1..][j];
        assert s.selectedPackages[j + 1];
      }
    }
  }

  /** Picking keeps list order: a list can be picked piecewise. */
  lemma {:induction false} PickSelectedAppend(a: seq<string>, f: seq<bool>, b: seq<string>, g: seq<bool>)
    requires |a| == |f|
    ensures PickSelected(a + b, f + g) == PickSelected(a, f) + PickSelected(b, g)
  {
    if a == [] {
      assert a + b == b && f + g == g;
    } else {
      assert (a + b)[1..] == a[1..] + b && (f + g)[1..] == f[1..] + g;
      PickSelectedAppend(a[1..], f[1..], b, g);
    }
  }

  /** Ticking the first and third packages of three installs exactly those two, in list order. */
  lemma SelectedNamesExample()
    ensures SelectedNames([CUSTOM_PACKAGES_ENTRY, "A", "B", "C"], [false, true, false, true]) == ["A", "C"]
  {
    assert [CUSTOM_PACKAGES_ENTRY, "A", "B", "C"][1..] == ["A", "B", "C"];
    assert [false, true, false, true][1..] == [true, false, true];
    assert PickSelected(["C"], [true]) == ["C"] by {
      assert PickSelected(["C"][1..], [true][1..]) == [];
    }
    assert PickSelected(["B", "C"], [false, true]) == ["C"] by {
      assert ["B", "C"][1..] == ["C"] && [false, true][1..] == [true];
    }
    assert ["A", "B", "C"][1..] == ["B", "C"] && [true, false, true][1..] == [false, true];
  }

  /**
   * Enter on the package list with something ticked runs the package manager
   * once, with `-S --noconfirm` followed by the ticked names; with nothing
   * ticked it only says so in the status line.
   */
  lemma StartPackageInstallationOutcome(s: AppState, run: RunResult)
    requires Indexed(s)
    ensures var r := StartPackageInstallation(s, run);
      var names := SelectedNames(s.packageList, s.selectedPackages);
      if AnySelected(s.selectedPackages) then
        && names != []
        && r.launches == s.launches + [Command(PACKAGE_MANAGER, ["-S", "--noconfirm"] + names)]
        && r.viewState == s.viewState && r.selectedPackages == s.selectedPackages
      else
        r == s.(status := MSG_NO_PACKAGES_SELECTED)
  {
    SelectedNamesEmptyIff(s);
  }

  /** `install_selected_packages` does the same, but returns without a word when nothing is ticked. */
  lemma InstallSelectedPackagesOutcome(s: AppState, run: RunResult)
    requires Indexed(s)
    ensures var r := InstallSelectedPackages(s, run);
      var names := SelectedNames(s.packageList, s.selectedPackages);
      if AnySelected(s.selectedPackages) then
        && names != []
        && r.launches == s.launches + [Command(PACKAGE_MANAGER, ["-S", "--noconfirm"] + names)]
        && r.viewState == s.viewState && r.selectedPackages == s.selectedPackages
      else
        r == s
  {
    SelectedNamesEmptyIff(s);
  }

  /** Enter on the package list installs the ticked packages, or, with none ticked, acts as the space bar. */
  lemma PackageListEnter(s: AppState, host: Host)
    requires Inv(s) && s.viewState == PackageList
    requires !s.showError && !s.showConfirmation && !s.showInfo
    ensures var (r, quit) := HandleKey(s, Enter, host);
      && !quit
      && (AnySelected(s.selectedPackages) ==>
            r.launches == s.launches + [InstallerCommand(SelectedNames(s.packageList, s.selectedPackages))])
      && (!AnySelected(s.selectedPackages) ==> r == TogglePackage(s))
  {
    if AnySelected(s.selectedPackages) {
      StartPackageInstallationOutcome(s, host.run);
    }
  }

  /** Toggling the same package twice restores the state. */
  lemma TogglePackageInvolution(s: AppState)
    requires Indexed(s) && s.packageSelected.Some? && s.packageSelected.value > 0
    ensures TogglePackage(TogglePackage(s)) == s
  {
    var i := s.packageSelected.value;
    assert TogglePackage(TogglePackage(s)).selectedPackages == s.selectedPackages;
  }

  /** Toggling flips the flag under the cursor and no other; the custom entry opens the text input instead. */
  lemma TogglePackageEffect(s: AppState)
    requires Indexed(s) && s.packageSelected.Some?
    ensures var r := TogglePackage(s); var i := s.packageSelected.value;
      && |r.selectedPackages| == |s.selectedPackages|
      && (i == 0 ==> r.viewState == CustomPackageInput && r.selectedPackages == s.selectedPackages)
      && (i > 0 ==> r.viewState == s.viewState && r.selectedPackages[i] == !s.selectedPackages[i])
      && (forall j :: 0 <= j < |s.selectedPackages| && j != i ==> r.selectedPackages[j] == s.selectedPackages[j])
      && r.launches == s.launches
  {
  }

  // ---------------------------------------------------------------------
  // Custom packages
  // ---------------------------------------------------------------------

  /** The text input installs its whitespace-separated words and is cleared, or, holding none, only says so. */
  lemma InstallCustomPackagesOutcome(s: AppState, run: RunResult)
    ensures var r := InstallCustomPackages(s, run);
      if AllWhitespace(s.customPackageInput) then
        r == s.(status := MSG_NO_PACKAGES_SPECIFIED)
      else
        && r.launches == s.launches + [InstallerCommand(SplitWhitespace(s.customPackageInput))]
        && r.customPackageInput == []
  {
    SplitWhitespaceEmptyIff(s.customPackageInput);
  }

  /** In the text input `q` quits; any other character is appended, and Backspace takes it back. */
  lemma TypeThenBackspace(s: AppState, c: char, host: Host)
    requires Inv(s) && s.viewState == CustomPackageInput
    requires !s.showError && !s.showConfirmation && !s.showInfo
    ensures c == 'q' ==> HandleKey(s, Char(c), host) == (s, true)
    ensures c != 'q' ==>
      var typed := HandleKey(s, Char(c), host);
      && typed.0.customPackageInput == s.customPackageInput + [c] && !typed.1
      && HandleKey(typed.0, Backspace, host) == (s, false)
  {
    assert (s.customPackageInput + [c])[..|s.customPackageInput|] == s.customPackageInput;
  }

  // ---------------------------------------------------------------------
  // Blocking runs
  // ---------------------------------------------------------------------

  /**
   * How a blocking run is reported: exit code 0 as the success info, another
   * exit code as an error naming it and the program's stderr, a failure to
   * start as the start error; a run without exit code (ended by a signal)
   * opens no dialog. The terminal is redrawn in every case.
   */
  lemma ReportOutcome(s: AppState, cmd: Command, result: RunResult)
    ensures var r := RunCommandProgress(s, cmd, result);
      && r.launches == s.launches + [cmd]
      && r.terminalClear
      && (result.Finished? && result.code == Some(0) ==>
            r.showInfo && r.infoMessage == Some(MSG_COMMAND_SUCCESS)
            && r.showError == s.showError && r.error == s.error)
      && (result.Finished? && result.code.Some? && result.code.value != 0 ==>
            r.showError && r.error == Some(ExitFailureText(result.code.value, result.stderr))
            && r.showInfo == s.showInfo && r.infoMessage == s.infoMessage)
      && (result.RunFailed? ==>
            r.showError && r.error == Some(MSG_START_ERROR + result.reason)
            && r.showInfo == s.showInfo && r.infoMessage == s.infoMessage)
      && (result.Finished? && result.code.None? ==>
            r.showError == s.showError && r.error == s.error
            && r.showInfo == s.showInfo && r.infoMessage == s.infoMessage)
  {
  }

  // ---------------------------------------------------------------------
  // The command channel
  // ---------------------------------------------------------------------

  lemma {:induction false} OutputLinesAppend(a: seq<CommandState>, b: seq<CommandState>)
    ensures OutputLines(a + b) == OutputLines(a) + OutputLines(b)
  {
    if b == [] {
      assert a + b == a;
    } else {
      assert (a + b)[..|a + b| - 1] == a + b[..|b| - 1];
      OutputLinesAppend(a, b[..|b| - 1]);
    }
  }

  lemma {:induction false} AnyTerminalAppend(a: seq<CommandState>, b: seq<CommandState>)
    ensures AnyTerminal(a + b) <==> AnyTerminal(a) || AnyTerminal(b)
  {
    if b == [] {
      assert a + b == a;
    } else {
      assert (a + b)[..|a + b| - 1] == a + b[..|b| - 1];
      AnyTerminalAppend(a, b[..|b| - 1]);
    }
  }

  lemma {:induction false} LastErrorAppend(a: seq<CommandState>, b: seq<CommandState>)
    ensures LastError(a + b) == if LastError(b).Some? then LastError(b) else LastError(a)
  {
    if b == [] {
      assert a + b == a;
    } else {
      assert (a + b)[..|a + b| - 1] == a + b[..|b| - 1];
      LastErrorAppend(a, b[..|b| - 1]);
    }
  }

  /** A session ends exactly when some event in it is `Completed`, `Exit` or an error. */
  lemma {:induction false} AnyTerminalIff(events: seq<CommandState>)
    ensures AnyTerminal(events) <==> exists i :: 0 <= i < |events| && IsTerminal(events[i])
  {
    if events != [] {
      var init := events[..|events| - 1];
      AnyTerminalIff(init);
      if exists i :: 0 <= i < |init| && IsTerminal(init[i]) {
        var i :| 0 <= i < |init| && IsTerminal(init[i]);
        assert IsTerminal(events[i]);
      }
      if exists i :: 0 <= i < |events| && IsTerminal(events[i]) {
        var i :| 0 <= i < |events| && IsTerminal(events[i]);
        if i < |init| {
          assert IsTerminal(init[i]);
        }
      }
    }
  }

  /** The error shown is the one of the last event reporting an error; none is shown when no event reports one. */
  lemma {:induction false} LastErrorIsLast(events: seq<CommandState>)
    ensures LastError(events).None? <==> forall i :: 0 <= i < |events| ==> ErrorText(events[i]).None?
    ensures LastError(events).Some? ==>
      exists i :: 0 <= i < |events| && ErrorText(events[i]) == LastError(events)
        && forall j :: i < j < |events| ==> ErrorText(events[j]).None?
  {
    if events != [] {
      var init := events[..|events| - 1];
      LastErrorIsLast(init);
      if ErrorText(events[|events| - 1]).None? {
        assert forall i :: 0 <= i < |init| ==> init[i] == events[i];
        if LastError(init).Some? {
          var i :| 0 <= i < |init| && ErrorText(init[i]) == LastError(init)
            && forall j :: i < j < |init| ==> ErrorText(init[j]).None?;
          assert ErrorText(events[i]) == LastError(events);
        }
      }
    }
  }

  /** Draining a session that so far sent `events`, from a state whose queue was empty. */
  lemma DrainDelivered(s: AppState, events: seq<CommandState>)
    requires s.scriptReceiver == Some([])
    ensures var r := UpdateScriptProgress(Deliver(s, events));
      && r.scriptOutput == s.scriptOutput + OutputLines(events)
      && r.error == (if LastError(events).Some? then LastError(events) else s.error)
      && r.showError == (s.showError || LastError(events).Some?)
      && r.scriptReceiver == (if AnyTerminal(events) then None else Some([]))
      && r.scriptProcess == (if AnyTerminal(events) then None else s.scriptProcess)
  {
    assert [] + events == events;
  }

  /** Draining changes nothing but the output, the error, its flag and the session. */
  lemma DrainDeliveredFrame(s: AppState, events: seq<CommandState>)
    requires s.scriptReceiver == Some([])
    ensures var r := UpdateScriptProgress(Deliver(s, events));
      r == s.(scriptOutput := r.scriptOutput, error := r.error, showError := r.showError,
              scriptReceiver := r.scriptReceiver, scriptProcess := r.scriptProcess)
  {
    assert [] + events == events;
  }

  /**
   * Draining in two batches, the first without a terminal event, leaves what
   * DrainDelivered says draining both at once leaves: the same output, error
   * and session.
   */
  lemma DrainInBatches(s: AppState, a: seq<CommandState>, b: seq<CommandState>)
    requires s.scriptReceiver == Some([]) && !AnyTerminal(a)
    ensures var twice := UpdateScriptProgress(Deliver(UpdateScriptProgress(Deliver(s, a)), b));
      && twice.scriptOutput == s.scriptOutput + OutputLines(a + b)
      && twice.error == (if LastError(a + b).Some? then LastError(a + b) else s.error)
      && twice.showError == (s.showError || LastError(a + b).Some?)
      && twice.scriptReceiver == (if AnyTerminal(a + b) then None else Some([]))
      && twice.scriptProcess == (if AnyTerminal(a + b) then None else s.scriptProcess)
  {
    var first := UpdateScriptProgress(Deliver(s, a));
    DrainDelivered(s, a);
    assert first.scriptReceiver == Some([]) && first.scriptProcess == s.scriptProcess;
    var twice := UpdateScriptProgress(Deliver(first, b));
    DrainDelivered(first, b);
    assert twice.scriptOutput == s.scriptOutput + OutputLines(a + b) by {
      OutputLinesAppend(a, b);
      assert s.scriptOutput + OutputLines(a) + OutputLines(b) == s.scriptOutput + OutputLines(a + b);
    }
    LastErrorAppend(a, b);
    AnyTerminalAppend(a, b);
  }

  /** Events sent after the session was dropped are lost. */
  lemma DeliverAfterEnd(s: AppState, events: seq<CommandState>)
    requires s.scriptReceiver.None?
    ensures Deliver(s, events) == s && UpdateScriptProgress(s) == s
  {
  }

  // ---------------------------------------------------------------------
  // Dialogs and quitting
  // ---------------------------------------------------------------------

  /** While the error dialog is open no key starts a program, changes the view or quits; Enter and Esc close it. */
  lemma ErrorDialogFirst(s: AppState, key: Key, host: Host)
    requires Inv(s) && s.showError
    ensures var (r, quit) := HandleKey(s, key, host);
      && !quit
      && r.launches == s.launches
      && r.viewState == s.viewState
      && r.showConfirmation == s.showConfirmation && r.confirmationFn == s.confirmationFn
      && (!r.showError <==> key == Enter || key == Esc)
  {
  }

  /** The info dialog, below the error and confirmation dialogs, behaves the same way. */
  lemma InfoDialog(s: AppState, key: Key, host: Host)
    requires Inv(s) && !s.showError && !s.showConfirmation && s.showInfo
    ensures var (r, quit) := HandleKey(s, key, host);
      && !quit
      && r.launches == s.launches
      && r.viewState == s.viewState
      && (!r.showInfo <==> key == Enter || key == Esc)
  {
  }

  /** Esc on a confirmation discards its action without running it. */
  lemma ConfirmationEsc(s: AppState, host: Host)
    requires Inv(s) && !s.showError && s.showConfirmation
    ensures var (r, quit) := HandleKey(s, Esc, host);
      && !quit
      && r.launches == s.launches
      && r.viewState == s.viewState
      && !r.showConfirmation && r.confirmationFn.None? && r.confirmation.None?
  {
  }

  /** A main-menu entry starts at most the update check. */
  lemma MenuItemLaunchesAtMostOne(s: AppState, host: Host)
    requires CursorsInRange(s)
    ensures var r := RunMenuItem(s, host);
      r.launches == s.launches || r.launches == s.launches + [CHECK_UPDATE_COMMAND]
  {
    if s.menuSelected.Some? {
      var action := MENU_ACTIONS[s.menuSelected.value];
      if action == "install" {
        assert HandleInstall(s, host.osName).launches == s.launches;
      } else if action == "update" {
        UpdateGate(s, host.osName, host.spawn);
      } else if action == "uninstall" {
        UninstallGate(s, host.osName);
      } else if action == "install_package" {
        LoadPackagesShape(s, host.catalog);
      }
    }
  }

  /** Running the selected action starts at most one external program. */
  lemma RunSelectedActionLaunchesAtMostOne(s: AppState, host: Host)
    requires CursorsInRange(s) && (s.viewState == UpdateCheck ==> s.newVersion.Some?)
    ensures var r := RunSelectedAction(s, host);
      r.launches == s.launches || exists c :: r.launches == s.launches + [c]
  {
    var r := RunSelectedAction(s, host);
    match s.viewState {
      case MainMenu =>
        MenuItemLaunchesAtMostOne(s, host);
        if r.launches != s.launches {
          assert r.launches == s.launches + [CHECK_UPDATE_COMMAND];
        }
      case PackageList =>
        var names := SelectedNames(s.packageList, s.selectedPackages);
        if names != [] {
          assert r.launches == s.launches + [InstallerCommand(names)];
        }
      case CustomPackageInput =>
        var words := SplitWhitespace(s.customPackageInput);
        if words != [] {
          assert r.launches == s.launches + [InstallerCommand(words)];
        }
      case ScriptProgress =>
      case InstallationType =>
        if s.showConfirmation && s.installationTypeSelected.Some? {
          assert r.launches == s.launches + [InstallCommand(INSTALLATION_TYPES[s.installationTypeSelected.value].1)];
        }
      case UpdateCheck =>
        assert r.launches == s.launches + [UpdateCommand(s.newVersion.value)];
      case UninstallType =>
    }
  }

  /** Enter on a confirmation runs its action once: at most one program starts, and the dialog and its action are gone. */
  lemma ConfirmationEnter(s: AppState, host: Host)
    requires Inv(s) && !s.showError && s.showConfirmation
    ensures var (r, quit) := HandleKey(s, Enter, host);
      && !quit
      && !r.showConfirmation && r.confirmationFn.None? && r.confirmation.None?
      && (r.launches == s.launches || exists c :: r.launches == s.launches + [c])
  {
    var cleared := s.(confirmationFn := None);
    match s.confirmationFn {
      case Some(action) =>
        match action {
          case RerunSelectedAction =>
            RunSelectedActionLaunchesAtMostOne(cleared, host);
          case RunUninstall(kind) =>
            assert RunDeferred(cleared, action, host).launches == s.launches + [UninstallCommand(kind)];
          case UpdateTo(version) =>
            var checking := SetViewState(cleared, UpdateCheck).(newVersion := Some(version));
            RunSelectedActionLaunchesAtMostOne(checking, host);
          case BackToMainMenu =>
        }
      case None =>
    }
  }

  /**
   * Esc on the update check cancels it: the process is forgotten (and killed),
   * the status says so only if there was a process, and the main menu is
   * shown. The channel stays, so what the killed process still sends is
   * drained later.
   */
  lemma UpdateCheckEsc(s: AppState, host: Host)
    requires Inv(s) && s.viewState == UpdateCheck
    requires !s.showError && !s.showConfirmation && !s.showInfo
    ensures var (r, quit) := HandleKey(s, Esc, host);
      && !quit
      && r.scriptProcess.None?
      && r.viewState == MainMenu
      && (s.scriptProcess.Some? ==> r.status == MSG_TASK_CANCELLED)
      && (s.scriptProcess.None? ==> r.status == s.status)
      && r.scriptReceiver == s.scriptReceiver
      && r.launches == s.launches
  {
  }

  /** Esc on the progress view cancels the same way and returns to the view it was opened from. */
  lemma ScriptProgressEsc(s: AppState, host: Host)
    requires Inv(s) && s.viewState == ScriptProgress
    requires !s.showError && !s.showConfirmation && !s.showInfo
    ensures var (r, quit) := HandleKey(s, Esc, host);
      && !quit
      && r.scriptProcess.None?
      && r.viewState == s.scriptLastViewState
      && (s.scriptProcess.Some? ==> r.status == MSG_TASK_CANCELLED)
      && (s.scriptProcess.None? ==> r.status == s.status)
      && r.scriptReceiver == s.scriptReceiver
      && r.launches == s.launches
  {
  }

  /** The program quits exactly on `q` with no dialog open, in a view other than the update check and the progress view. */
  lemma QuitIff(s: AppState, key: Key, host: Host)
    requires Inv(s)
    ensures HandleKey(s, key, host).1 <==>
      && key == Char('q')
      && !s.showError && !s.showConfirmation && !s.showInfo
      && s.viewState != UpdateCheck && s.viewState != ScriptProgress
  {
  }

  // ---------------------------------------------------------------------
  // Operating-system gates
  // ---------------------------------------------------------------------

  /** Installing is offered only on a detected system that is not already the target system. */
  lemma InstallGate(s: AppState, osName: Option<string>)
    requires s.viewState == MainMenu
    ensures var r := HandleInstall(s, osName);
      && r.launches == s.launches
      && (r.viewState == InstallationType <==> osName.Some? && !Contains(osName.value, OS_NAME))
      && (r.viewState == InstallationType ==> r.installationTypeSelected == Some(0) && r.showError == s.showError)
      && (r.viewState != InstallationType ==>
            r.showError && r.error == Some(if osName.None? then MSG_OS_NOT_DETECTED else MSG_ALREADY_INSTALLED))
  {
  }

  /** Updating starts the check script only on the target system; elsewhere it reports why not. */
  lemma UpdateGate(s: AppState, osName: Option<string>, spawn: SpawnResult)
    ensures var r := HandleUpdate(s, osName, spawn);
      && (osName.Some? && Contains(osName.value, OS_NAME) ==>
            r.launches == s.launches + [CHECK_UPDATE_COMMAND]
            && r.viewState == UpdateCheck && r.scriptLastViewState == s.viewState
            && r.scriptOutput == [] && r.scriptReceiver.Some?)
      && (osName.None? ==> r.launches == s.launches && r.showError && r.error == Some(MSG_OS_NOT_DETECTED))
      && (osName.Some? && !Contains(osName.value, OS_NAME) ==>
            r.launches == s.launches && r.showError && r.error == Some(MSG_UPDATE_UNSUPPORTED + osName.value))
  {
  }

  /** Uninstalling is offered only on the target system. */
  lemma UninstallGate(s: AppState, osName: Option<string>)
    ensures var r := HandleUninstall(s, osName);
      && r.launches == s.launches
      && (osName.Some? && Contains(osName.value, OS_NAME) ==>
            r.viewState == UninstallType && r.uninstallTypeSelected == Some(0))
      && (osName.None? ==> r.viewState == s.viewState && r.showError && r.error == Some(MSG_OS_NOT_DETECTED))
      && (osName.Some? && !Contains(osName.value, OS_NAME) ==>
            r.viewState == s.viewState && r.showError && r.error == Some(MSG_UPDATE_UNSUPPORTED + osName.value))
  {
  }

  // ---------------------------------------------------------------------
  // The update check
  // ---------------------------------------------------------------------

  /** The check printed no version exactly when every output line is blank. */
  lemma {:induction false} CandidateVersionEmptyIff(lines: seq<string>)
    ensures CandidateVersion(lines) == [] <==> forall i :: 0 <= i < |lines| ==> AllWhitespace(lines[i])
  {
    if lines != [] {
      CandidateVersionEmptyIff(lines[1..]);
      TrimEmptyIff(lines[0]);
      assert forall i :: 1 <= i < |lines| ==> lines[i] == lines[1..][i - 1];
    }
  }

  /** The decision spelled out: the offer names the printed version, the alternative is the up-to-date notice. */
  lemma UpdateOfferCases(lines: seq<string>, osVersion: Option<string>)
    ensures var (message, action) := UpdateOffer(lines, osVersion);
      && (action.UpdateTo? <==> CandidateVersion(lines) != [] && CandidateVersion(lines) != InstalledVersion(osVersion))
      && (action.UpdateTo? ==> action.version == CandidateVersion(lines) && message == NewVersionText(action.version))
      && (!action.UpdateTo? ==> action == BackToMainMenu && message == MSG_UP_TO_DATE)
  {
  }

  /** An update is offered exactly when the check printed a non-blank line and its version differs from the installed one. */
  lemma UpdateOfferIff(lines: seq<string>, osVersion: Option<string>)
    ensures UpdateOffer(lines, osVersion).1.UpdateTo? <==>
      (exists i :: 0 <= i < |lines| && !AllWhitespace(lines[i]))
      && CandidateVersion(lines) != InstalledVersion(osVersion)
  {
    CandidateVersionEmptyIff(lines);
    UpdateOfferCases(lines, osVersion);
  }

  /** A check that printed one line yields that line, trimmed. */
  lemma CandidateVersionSingle(line: string)
    ensures CandidateVersion([line]) == Trim(line)
  {
    assert [line][1..] == [];
  }

  /** A version printed without surrounding blanks is the candidate as printed. */
  lemma CandidateVersionPlain(line: string)
    requires line != [] && !IsWhitespace(line[0]) && !IsWhitespace(line[|line| - 1])
    ensures CandidateVersion([line]) == line
  {
    CandidateVersionSingle(line);
    TrimUnchanged(line);
  }

  /** A newer version printed by the check is offered. */
  lemma UpdateOfferNewer()
    ensures UpdateOffer(["1.2.0"], Some("1.1.0")) == (NewVersionText("1.2.0"), UpdateTo("1.2.0"))
  {
    CandidateVersionPlain("1.2.0");
    assert "1.2.0"[2] != "1.1.0"[2];
    UpdateOfferCases(["1.2.0"], Some("1.1.0"));
  }

  /** The installed version printed by the check is not offered. */
  lemma UpdateOfferSame()
    ensures UpdateOffer(["1.1.0"], Some("1.1.0")) == (MSG_UP_TO_DATE, BackToMainMenu)
  {
    CandidateVersionPlain("1.1.0");
  }

  /** Once the check is over, the next pass of the loop opens the decision as a confirmation and returns to the view the check started from. */
  lemma OfferAfterCheck(s: AppState, host: Host)
    requires Inv(s) && s.viewState == UpdateCheck && s.scriptReceiver.None? && !s.showError
    ensures var (r, quit) := Tick(s, None, host);
      var (message, action) := UpdateOffer(s.scriptOutput, host.osVersion);
      && !quit
      && r.showConfirmation && r.confirmation == Some(message) && r.confirmationFn == Some(action)
      && r.viewState == s.scriptLastViewState && r.scriptLastViewState == s.scriptLastViewState
      && r.launches == s.launches && !r.showError
  {
  }

  /** Accepting an offered update runs the update script for exactly that version and closes the dialog. */
  lemma AcceptUpdate(s: AppState, host: Host, version: string)
    requires Inv(s) && !s.showError && s.showConfirmation && s.confirmationFn == Some(UpdateTo(version))
    ensures var (r, quit) := HandleKey(s, Enter, host);
      && !quit
      && r.launches == s.launches + [UpdateCommand(version)]
      && r.newVersion.None?
      && r.viewState == s.scriptLastViewState
      && !r.showConfirmation
  {
    AcceptedUpdateRuns(s.(confirmationFn := None), host, version);
  }

  /** The deferred part of AcceptUpdate: the update runs for that version, against the remembered view. */
  lemma AcceptedUpdateRuns(s: AppState, host: Host, version: string)
    requires CursorsInRange(s)
    ensures var r := RunDeferred(s, UpdateTo(version), host);
      && r.launches == s.launches + [UpdateCommand(version)]
      && r.newVersion.None?
      && r.viewState == s.scriptLastViewState
  {
    var checking := SetViewState(s, UpdateCheck).(newVersion := Some(version));
    assert RunSelectedAction(checking, host) == StartUpdate(ReturnToLastView(checking), host.run);
  }

  /**
   * A newer version found by the check is offered on the next pass of the
   * loop, and Enter then runs the update script for exactly that version.
   */
  lemma AcceptOfferedUpdate(s: AppState, host: Host)
    requires Inv(s) && s.viewState == UpdateCheck && s.scriptReceiver.None? && !s.showError
    requires CandidateVersion(s.scriptOutput) != []
    requires CandidateVersion(s.scriptOutput) != InstalledVersion(host.osVersion)
    ensures var (offered, _) := Tick(s, None, host);
      && offered.confirmation == Some(NewVersionText(CandidateVersion(s.scriptOutput)))
      && HandleKey(offered, Enter, host).0.launches == s.launches + [UpdateCommand(CandidateVersion(s.scriptOutput))]
  {
    OfferAfterCheck(s, host);
    var offered := Tick(s, None, host).0;
    AcceptUpdate(offered, host, CandidateVersion(s.scriptOutput));
  }

  /** When the check found nothing newer, the dialog says so and accepting it returns to the main menu, starting nothing. */
  lemma UpToDateReturnsToMenu(s: AppState, host: Host)
    requires Inv(s) && s.viewState == UpdateCheck && s.scriptReceiver.None? && !s.showError
    requires CandidateVersion(s.scriptOutput) == [] || CandidateVersion(s.scriptOutput) == InstalledVersion(host.osVersion)
    ensures var (offered, _) := Tick(s, None, host);
      && offered.showConfirmation
      && offered.confirmation == Some(MSG_UP_TO_DATE)
      && var (r, quit) := HandleKey(offered, Enter, host);
         && !quit && r.launches == s.launches && r.viewState == MainMenu && !r.showConfirmation
  {
  }

  /**
   * If the check script cannot be started, the next pass shows the start error
   * and leaves the check without offering anything. No thread was started, so
   * none sends anything.
   */
  lemma CheckSpawnFailure(s: AppState, host: Host, reason: string)
    requires Inv(s) && s.viewState == MainMenu && !s.showError && !s.showConfirmation && !s.showInfo
    requires s.menuSelected == Some(1)
    requires host.osName.Some? && Contains(host.osName.value, OS_NAME)
    requires host.spawn == SpawnFailed(reason) && host.sent == []
    ensures var (started, _) := HandleKey(s, Enter, host);
      && started.launches == s.launches + [CHECK_UPDATE_COMMAND]
      && started.viewState == UpdateCheck
      && var (r, _) := Tick(started, None, host);
         && r.showError && r.error == Some(MSG_START_ERROR + reason)
         && r.viewState == MainMenu
         && r.confirmation == s.confirmation && r.showConfirmation == s.showConfirmation
         && r.scriptReceiver.None?
  {
    var started := HandleKey(s, Enter, host).0;
    assert started == CheckUpdates(s, host.spawn);
    assert started.scriptReceiver == Some([StartError(reason)]);
  }

  /** The events the reader thread sends for the lines a program prints. */
  function PrintedLines(lines: seq<string>): (events: seq<CommandState>)
    ensures |events| == |lines|
  {
    if lines == [] then [] else PrintedLines(lines[..|lines| - 1]) + [OutputLine(lines[|lines| - 1])]
  }

  /** Printed lines reach the output as printed, report no error and do not end the session. */
  lemma {:induction false} PrintedLinesReceived(lines: seq<string>)
    ensures OutputLines(PrintedLines(lines)) == lines
    ensures LastError(PrintedLines(lines)).None? && !AnyTerminal(PrintedLines(lines))
  {
    if lines != [] {
      var init := lines[..|lines| - 1];
      PrintedLinesReceived(init);
      var events := PrintedLines(lines);
      assert events[..|events| - 1] == PrintedLines(init);
      assert lines == init + [lines[|lines| - 1]];
    }
  }

  /** A check that printed `lines` and completed: the draining pass leaves its output and no session. */
  lemma CheckCompleted(s: AppState, lines: seq<string>)
    requires s.scriptReceiver == Some([]) && s.scriptOutput == []
    ensures var r := UpdateScriptProgress(Deliver(s, PrintedLines(lines) + [Completed]));
      && r.scriptOutput == lines
      && r.scriptReceiver.None? && r.scriptProcess.None?
      && r.showError == s.showError && r.error == s.error
      && r == s.(scriptOutput := lines, scriptReceiver := None, scriptProcess := None)
  {
    var events := PrintedLines(lines) + [Completed];
    PrintedLinesReceived(lines);
    DrainDelivered(s, events);
    DrainDeliveredFrame(s, events);
    assert events[..|events| - 1] == PrintedLines(lines);
    assert OutputLines(events) == lines;
  }

  /** The pass on which Enter is pressed on "update" of the main menu, on the target system: the check starts. */
  lemma CheckStartPass(s: AppState, h: Host)
    requires Inv(s) && s.viewState == MainMenu && s.menuSelected == Some(1)
    requires !s.showError && !s.showConfirmation && !s.showInfo && s.scriptReceiver.None?
    requires h.osName.Some? && Contains(h.osName.value, OS_NAME) && h.spawn.Spawned?
    ensures var (r, quit) := Tick(s, Some(Enter), h);
      && !quit
      && r.viewState == UpdateCheck && r.scriptLastViewState == MainMenu
      && r.scriptReceiver == Some([]) && r.scriptOutput == []
      && !r.showError && !r.showConfirmation && !r.showInfo
      && r.launches == s.launches + [CHECK_UPDATE_COMMAND]
  {
    var cleared := s.(terminalClear := false);
    assert Refresh(Deliver(s, h.sent), h.osVersion) == cleared;
    assert HandleKey(cleared, Enter, h).0 == CheckUpdates(cleared, h.spawn);
  }

  /** The pass that receives the check's printed lines and its completion opens the offer. */
  lemma CheckOfferPass(s: AppState, lines: seq<string>, h: Host)
    requires Inv(s) && s.viewState == UpdateCheck && s.scriptLastViewState == MainMenu
    requires s.scriptReceiver == Some([]) && s.scriptOutput == [] && !s.showError
    requires h.sent == PrintedLines(lines) + [Completed]
    ensures var (r, quit) := Tick(s, None, h);
      var (message, action) := UpdateOffer(lines, h.osVersion);
      && !quit
      && r.showConfirmation && r.confirmation == Some(message) && r.confirmationFn == Some(action)
      && r.viewState == MainMenu && !r.showError && r.scriptReceiver.None?
      && r.launches == s.launches
  {
    CheckCompleted(s, lines);
    var drained := UpdateScriptProgress(Deliver(s, h.sent)).(terminalClear := false);
    assert Refresh(Deliver(s, h.sent), h.osVersion) == UpdateCheckDecision(drained, h.osVersion);
    OfferAfterCheck(drained, h);
  }

  /** The pass on which Enter accepts an offered update: the update script runs for that version. */
  lemma UpdateAcceptPass(s: AppState, version: string, h: Host)
    requires Inv(s) && s.viewState == MainMenu && s.scriptReceiver.None?
    requires !s.showError && s.showConfirmation && s.confirmationFn == Some(UpdateTo(version))
    ensures var (r, quit) := Tick(s, Some(Enter), h);
      && !quit && r.launches == s.launches + [UpdateCommand(version)] && !r.showConfirmation
  {
    var cleared := s.(terminalClear := false);
    assert Refresh(Deliver(s, h.sent), h.osVersion) == cleared;
    AcceptUpdate(cleared, h, version);
  }

  /**
   * The whole update from the main menu, over three passes of the loop: Enter
   * on "update" starts the check; on the pass that receives the check's
   * printed version and its completion the update is offered; Enter then runs
   * the update script for exactly that version.
   */
  lemma CheckThenUpdate(s: AppState, lines: seq<string>, h1: Host, h2: Host, h3: Host)
    requires Inv(s) && s.viewState == MainMenu && s.menuSelected == Some(1)
    requires !s.showError && !s.showConfirmation && !s.showInfo && s.scriptReceiver.None?
    requires h1.osName.Some? && Contains(h1.osName.value, OS_NAME) && h1.spawn.Spawned?
    requires h2.sent == PrintedLines(lines) + [Completed]
    requires CandidateVersion(lines) != [] && CandidateVersion(lines) != InstalledVersion(h2.osVersion)
    ensures var checking := Tick(s, Some(Enter), h1).0;
      var offered := Tick(checking, None, h2).0;
      Tick(offered, Some(Enter), h3).0.launches == s.launches + [CHECK_UPDATE_COMMAND, UpdateCommand(CandidateVersion(lines))]
  {
    var version := CandidateVersion(lines);
    CheckStartPass(s, h1);
    var checking := Tick(s, Some(Enter), h1).0;
    CheckOfferPass(checking, lines, h2);
    UpdateOfferCases(lines, h2.osVersion);
    var offered := Tick(checking, None, h2).0;
    UpdateAcceptPass(offered, version, h3);
  }

  // ---------------------------------------------------------------------
  // Installing and uninstalling through a confirmation
  // ---------------------------------------------------------------------

  /**
   * Enter on an installation type asks to confirm wiping the disk, naming the
   * type; accepting runs the install script for that type exactly once.
   */
  lemma InstallTypeConfirmed(s: AppState, host: Host)
    requires Inv(s) && s.viewState == InstallationType
    requires !s.showError && !s.showConfirmation && !s.showInfo
    requires s.installationTypeSelected.Some?
    ensures var i := s.installationTypeSelected.value;
      var (asked, _) := HandleKey(s, Enter, host);
      && asked.showConfirmation
      && asked.confirmation == Some(InstallConfirmationText(INSTALLATION_TYPES[i].0))
      && asked.launches == s.launches
      && var (done, _) := HandleKey(asked, Enter, host);
         && done.launches == s.launches + [InstallCommand(INSTALLATION_TYPES[i].1)]
         && !done.showConfirmation && done.viewState == InstallationType
  {
    var asked := HandleKey(s, Enter, host).0;
    assert asked == HandleInstallationType(s);
    assert asked.confirmationFn == Some(RerunSelectedAction);
    var cleared := asked.(confirmationFn := None);
    assert RunSelectedAction(cleared, host) == RunInstallationScript(cleared, host.run);
  }

  /** Enter on an uninstall kind asks to confirm it; accepting runs the uninstall script for that kind exactly once. */
  lemma UninstallTypeConfirmed(s: AppState, host: Host)
    requires Inv(s) && s.viewState == UninstallType
    requires !s.showError && !s.showConfirmation && !s.showInfo
    requires s.uninstallTypeSelected.Some?
    ensures var kind := UNINSTALL_KINDS[s.uninstallTypeSelected.value];
      var (asked, _) := HandleKey(s, Enter, host);
      && asked.showConfirmation
      && asked.confirmation == Some(UninstallConfirmationText(kind))
      && asked.launches == s.launches
      && var (done, _) := HandleKey(asked, Enter, host);
         && done.launches == s.launches + [UninstallCommand(kind)]
         && !done.showConfirmation && done.viewState == UninstallType
  {
    var asked := HandleKey(s, Enter, host).0;
    assert asked == HandleUninstallType(s);
  }

  /** Each uninstall kind of the list has its own warning. */
  lemma UninstallWarnings()
    ensures UninstallConfirmationText(UNINSTALL_KINDS[0]) == "Вы уверены, что хотите удалить все пользовательские настройки?"
    ensures UninstallConfirmationText(UNINSTALL_KINDS[1]) == "Вы уверены, что хотите удалить все установленные программы?"
    ensures UninstallConfirmationText(UNINSTALL_KINDS[2])
         == "ВНИМАНИЕ! Вы уверены, что хотите полностью удалить систему?\nВсе данные будут безвозвратно удалены!"
  {
    assert UNINSTALL_KINDS[1] != "config" by { assert UNINSTALL_KINDS[1][0] != "config"[0]; }
    assert UNINSTALL_KINDS[2] != "config" by { assert UNINSTALL_KINDS[2][0] != "config"[0]; }
    assert UNINSTALL_KINDS[2] != "apps" by { assert UNINSTALL_KINDS[2][0] != "apps"[0]; }
  }

  /** A kind outside the list gets the generic warning. */
  lemma UninstallWarningUnknown(kind: string)
    requires kind !in UNINSTALL_KINDS
    ensures UninstallConfirmationText(kind) == "Подтвердите удаление"
  {
    assert kind != UNINSTALL_KINDS[0] && kind != UNINSTALL_KINDS[1] && kind != UNINSTALL_KINDS[2];
  }

  // ---------------------------------------------------------------------
  // The progress view
  // ---------------------------------------------------------------------

  lemma MenuItemKeepsProgressUnused(s: AppState, host: Host)
    requires CursorsInRange(s) && s.viewState == MainMenu && ProgressUnused(s)
    ensures ProgressUnused(RunMenuItem(s, host))
  {
  }

  lemma SelectedActionKeepsProgressUnused(s: AppState, host: Host)
    requires CursorsInRange(s) && (s.viewState == UpdateCheck ==> s.newVersion.Some?) && ProgressUnused(s)
    ensures ProgressUnused(RunSelectedAction(s, host))
  {
    if s.viewState == MainMenu {
      MenuItemKeepsProgressUnused(s, host);
    }
  }

  lemma ConfirmationKeepsProgressUnused(s: AppState, key: Key, host: Host)
    requires Inv(s) && ProgressUnused(s)
    ensures ProgressUnused(ConfirmationKey(s, key, host))
  {
    if key == Enter && s.confirmationFn.Some? {
      var cleared := s.(confirmationFn := None);
      match s.confirmationFn.value {
        case RerunSelectedAction =>
          SelectedActionKeepsProgressUnused(cleared, host);
        case RunUninstall(kind) =>
        case UpdateTo(version) =>
          SelectedActionKeepsProgressUnused(SetViewState(cleared, UpdateCheck).(newVersion := Some(version)), host);
        case BackToMainMenu =>
      }
    }
  }

  // One lemma per view: no key handled there enters the progress view.

  lemma MainMenuKeyKeepsProgressUnused(s: AppState, key: Key, host: Host)
    requires Inv(s) && !s.showConfirmation && s.viewState == MainMenu && ProgressUnused(s)
    ensures ProgressUnused(MainMenuKey(s, key, host).0)
  {
    if key == Enter { SelectedActionKeepsProgressUnused(s, host); }
  }

  lemma PackageListKeyKeepsProgressUnused(s: AppState, key: Key, host: Host)
    requires Inv(s) && !s.showConfirmation && s.viewState == PackageList && ProgressUnused(s)
    ensures ProgressUnused(PackageListKey(s, key, host).0)
  {
  }

  lemma CustomPackageInputKeyKeepsProgressUnused(s: AppState, key: Key, host: Host)
    requires Inv(s) && !s.showConfirmation && s.viewState == CustomPackageInput && ProgressUnused(s)
    ensures ProgressUnused(CustomPackageInputKey(s, key, host).0)
  {
    if key == Enter { SelectedActionKeepsProgressUnused(s, host); }
  }

  lemma InstallationTypeKeyKeepsProgressUnused(s: AppState, key: Key, host: Host)
    requires Inv(s) && !s.showConfirmation && s.viewState == InstallationType && ProgressUnused(s)
    ensures ProgressUnused(InstallationTypeKey(s, key, host).0)
  {
    if key == Enter { SelectedActionKeepsProgressUnused(s, host); }
  }

  lemma UninstallTypeKeyKeepsProgressUnused(s: AppState, key: Key, host: Host)
    requires Inv(s) && !s.showConfirmation && s.viewState == UninstallType && ProgressUnused(s)
    ensures ProgressUnused(UninstallTypeKey(s, key, host).0)
  {
    if key == Enter { SelectedActionKeepsProgressUnused(s, host); }
  }

  /** No key handled by a view enters the progress view. */
  lemma ViewKeyKeepsProgressUnused(s: AppState, key: Key, host: Host)
    requires Inv(s) && !s.showConfirmation && ProgressUnused(s)
    ensures ProgressUnused(ViewKey(s, key, host).0)
  {
    match s.viewState {
      case MainMenu => MainMenuKeyKeepsProgressUnused(s, key, host);
      case PackageList => PackageListKeyKeepsProgressUnused(s, key, host);
      case CustomPackageInput => CustomPackageInputKeyKeepsProgressUnused(s, key, host);
      case InstallationType => InstallationTypeKeyKeepsProgressUnused(s, key, host);
      case UninstallType => UninstallTypeKeyKeepsProgressUnused(s, key, host);
      case UpdateCheck =>
      case ScriptProgress =>
    }
  }

  /** The progress view has a handler but is never entered: no pass of the loop leads to it. */
  lemma ProgressNeverEntered(s: AppState, key: Option<Key>, host: Host)
    requires Inv(s) && ProgressUnused(s)
    ensures ProgressUnused(Tick(s, key, host).0)
  {
    if key.Some? {
      HandleKeyKeepsProgressUnused(Refresh(Deliver(s, host.sent), host.osVersion), key.value, host);
    }
  }

  /** No key press enters the progress view. */
  lemma HandleKeyKeepsProgressUnused(s: AppState, key: Key, host: Host)
    requires Inv(s) && ProgressUnused(s)
    ensures ProgressUnused(HandleKey(s, key, host).0)
  {
    if !s.showError {
      if s.showConfirmation {
        ConfirmationKeepsProgressUnused(s, key, host);
      } else if !s.showInfo {
        ViewKeyKeepsProgressUnused(s, key, host);
      }
    }
  }

  /** Nor in any number of passes. */
  lemma {:induction false} ProgressNeverEnteredInRun(s: AppState, keys: seq<Option<Key>>, hosts: seq<Host>)
    requires Inv(s) && ProgressUnused(s) && |keys| == |hosts|
    ensures ProgressUnused(Run(s, keys, hosts).0)
    decreases |keys|
  {
    if keys != [] {
      ProgressNeverEntered(s, keys[0], hosts[0]);
      var (next, quit) := Tick(s, keys[0], hosts[0]);
      if !quit {
        ProgressNeverEnteredInRun(next, keys[1..], hosts[1..]);
      }
    }
  }

  /** Starting from the initial state, the progress view is never shown. */
  lemma ProgressNeverShown(keys: seq<Option<Key>>, hosts: seq<Host>)
    requires |keys| == |hosts|
    ensures Run(Initial(), keys, hosts).0.viewState != ScriptProgress
  {
    ProgressNeverEnteredInRun(Initial(), keys, hosts);
  }

  // ---------------------------------------------------------------------
  // Texts
  // ---------------------------------------------------------------------

  /** The texts the application hard-codes are the Russian entries of the localization table under their keys. */
  lemma TextsMatchLocalization()
    ensures MSG_TASK_CANCELLED == Localization.New().Get("task_cancelled", Localization.Russian)
    ensures forall reason ::
      MSG_START_ERROR + reason == Localization.New().GetFmt("command_error_start", Localization.Russian, reason)
  {
    Localization.NewTaskCancelled();
    forall reason
      ensures MSG_START_ERROR + reason == Localization.New().GetFmt("command_error_start", Localization.Russian, reason)
    {
      Localization.NewCommandErrorStart(reason);
    }
  }
}
