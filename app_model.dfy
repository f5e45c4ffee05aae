/**
 * The application state machine of the terminal front-end: the fields of its
 * `App` struct as one record, and one function per operation of `App` and of
 * its event loop, giving the record after the operation. The class `App` in
 * module AppMachine updates the same fields in place and is proved to agree
 * with these functions.
 *
 * The world outside the process enters as a `Host` value: the operating
 * system's name and version, the lines of the package catalog (or that it
 * could not be opened), what spawning the update check returned, and how a
 * blocking run of an external program ended. Every external program the
 * application starts is recorded, with its arguments, in `launches`.
 */
module AppModel {
  import opened Wrappers
  import opened Text

  // ---------------------------------------------------------------------
  // Constants
  // ---------------------------------------------------------------------

  /** The system name that gates installing, updating and uninstalling. */
  const OS_NAME := "Kite Linux"
  /** The version assumed when the host reports none. */
  const DEFAULT_VERSION := "0.0.0"

  const PACKAGE_MANAGER := "yay"
  const SUDO := "sudo"
  const INSTALL_SCRIPT := "/usr/src/kite-tools/install.sh"
  const UPDATE_SCRIPT := "/usr/src/kite-tools/update.sh"
  const CHECK_UPDATE_SCRIPT := "/usr/src/kite-tools/check_update.sh"
  const UNINSTALL_SCRIPT := "/usr/src/kite-tools/uninstall.sh"

  /** Entry 0 of the package list: opens the free-text package input. */
  const CUSTOM_PACKAGES_ENTRY := "[ Установить свои пакеты ]"

  const WELCOME_STATUS := "Добро пожаловать в инструменты управления Коршун"
  const MSG_TASK_CANCELLED := "Задача отменена"
  const MSG_NO_PACKAGES_SPECIFIED := "Не указаны пакеты для установки"
  const MSG_NO_PACKAGES_SELECTED := "Не выбраны пакеты для установки"
  const MSG_ALREADY_INSTALLED := "Система уже установлена"
  const MSG_OS_NOT_DETECTED := "Не удалось определить операционную систему"
  const MSG_UPDATE_UNSUPPORTED := "Обновление не поддерживается для данной операционной системы: "
  const MSG_COMMAND_SUCCESS := "Программа завершилась успешно"
  const MSG_COMMAND_FAILED := "Программа завершилась с ошибкой"
  const MSG_START_ERROR := "Ошибка запуска: "
  const MSG_WAIT_ERROR := "Ошибка выполнения: "
  const MSG_UP_TO_DATE := "Версия системы актуальна"

  /** `usize::MAX` on a 64-bit host: the ceiling of the saturating scroll position. */
  const USIZE_MAX: nat := 0xFFFF_FFFF_FFFF_FFFF

  /** The main menu's action names, in menu order. */
  const MENU_ACTIONS: seq<string> := ["install", "update", "uninstall", "install_package"]
  /** The main menu's labels, drawn beside the actions of the same index. */
  const MENU_LABELS: seq<string> := [
    "Установка системы",
    "Обновление системы",
    "Очистка системы",
    "Установка дополнительных пакетов"
  ]

  /** The installation types: label and argument of the install script. */
  const INSTALLATION_TYPES: seq<(string, string)> := [
    ("Stable", "stable"),
    ("Development", "developer"),
    ("Experimental", "experimental")
  ]
  /** The descriptions drawn under the installation types. */
  const INSTALLATION_DESCRIPTIONS: seq<string> := [
    "Стабильная сборка системы, рекомендуется для повседневного использования",
    "Система с предустановленным инструментарием разработчика, включает дополнительные инструменты для разработки",
    "Экспериментальная версия с новейшими изменениями, может содержать нестабильные компоненты"
  ]

  /** The uninstall kinds: the argument of the uninstall script. */
  const UNINSTALL_KINDS: seq<string> := ["config", "apps", "full"]
  /** The labels and descriptions drawn for the uninstall kinds. */
  const UNINSTALL_LABELS: seq<(string, string)> := [
    ("Очистка конфигураций", "Удаление пользовательских настроек и конфигурационных файлов"),
    ("Очистка программ", "Удаление установленных программ, сохраняя пользовательские данные"),
    ("Полная очистка системы", "Полное удаление системы, включая все данные и настройки")
  ]

  /**
   * The lengths of the menu, the installation types and the uninstall kinds.
   * Cursors are bounded by these numbers; ListSizes shows that they are the
   * lengths of the lists above.
   */
  const MENU_ITEM_COUNT: nat := 4
  const INSTALLATION_TYPE_COUNT: nat := 3
  const UNINSTALL_TYPE_COUNT: nat := 3

  lemma ListSizes()
    ensures |MENU_ACTIONS| == |MENU_LABELS| == MENU_ITEM_COUNT
    ensures |INSTALLATION_TYPES| == |INSTALLATION_DESCRIPTIONS| == INSTALLATION_TYPE_COUNT
    ensures |UNINSTALL_KINDS| == |UNINSTALL_LABELS| == UNINSTALL_TYPE_COUNT
  {
  }

  // ---------------------------------------------------------------------
  // Data model
  // ---------------------------------------------------------------------

  /** The screens. `ScriptProgress` is defined and handled but never entered. */
  datatype ViewState =
    | MainMenu
    | PackageList
    | CustomPackageInput
    | ScriptProgress
    | InstallationType
    | UpdateCheck
    | UninstallType

  /** The views that show the package list and so need it non-empty. */
  predicate ShowsPackages(v: ViewState) {
    v == PackageList || v == CustomPackageInput
  }

  /** An event sent by a running command's reader and waiter threads. */
  datatype CommandState =
    | OutputLine(line: string)
    | Completed
    | Exit
    | StartError(reason: string)
    | WaitError(reason: string)

  /** A program started with an explicit argument vector. */
  datatype Command = Command(program: string, args: seq<string>)

  /**
   * The one-shot action a confirmation runs when accepted:
   * `RerunSelectedAction` dispatches on the current view again (the
   * installation-type confirmation), `RunUninstall` runs the uninstall script,
   * `UpdateTo` runs the update script for a version, `BackToMainMenu` returns
   * to the menu.
   */
  datatype Deferred =
    | RerunSelectedAction
    | RunUninstall(kind: string)
    | UpdateTo(version: string)
    | BackToMainMenu

  /** The key codes the event loop distinguishes. */
  datatype Key = Up | Down | PageUp | PageDown | Enter | Esc | Backspace | Char(c: char) | OtherKey

  /** What spawning a piped child returned: its process id, or the spawn error. */
  datatype SpawnResult = Spawned(pid: nat) | SpawnFailed(reason: string)

  /** How a blocking run ended: an exit code (absent when killed by a signal) and its stderr, or the spawn error. */
  datatype RunResult = Finished(code: Option<int>, stderr: string) | RunFailed(reason: string)

  /**
   * What the host answers during one tick of the event loop, and `sent`: the
   * events the running command's reader and waiter threads sent on the channel
   * since the previous tick.
   */
  datatype Host = Host(
    osName: Option<string>,
    osVersion: Option<string>,
    catalog: Option<seq<string>>,
    spawn: SpawnResult,
    run: RunResult,
    sent: seq<CommandState>)

  /** The fields of `App` that change, plus the record of started programs. */
  datatype AppState = AppState(
    menuSelected: Option<nat>,
    status: string,
    error: Option<string>,
    showError: bool,
    confirmation: Option<string>,
    confirmationFn: Option<Deferred>,
    showConfirmation: bool,
    packageList: seq<string>,
    packageSelected: Option<nat>,
    customPackageInput: string,
    viewState: ViewState,
    selectedPackages: seq<bool>,
    scriptOutput: seq<string>,
    scriptReceiver: Option<seq<CommandState>>,
    scriptLastViewState: ViewState,
    scriptProcess: Option<nat>,
    installationTypeSelected: Option<nat>,
    uninstallTypeSelected: Option<nat>,
    newVersion: Option<string>,
    scrollPosition: nat,
    infoMessage: Option<string>,
    showInfo: bool,
    terminalClear: bool,
    launches: seq<Command>)

  /** The cursors of the fixed lists point inside them. */
  predicate CursorsInRange(s: AppState) {
    && (s.menuSelected.Some? ==> s.menuSelected.value < MENU_ITEM_COUNT)
    && (s.installationTypeSelected.Some? ==> s.installationTypeSelected.value < INSTALLATION_TYPE_COUNT)
    && (s.uninstallTypeSelected.Some? ==> s.uninstallTypeSelected.value < UNINSTALL_TYPE_COUNT)
  }

  /** No index the application uses can go out of bounds. */
  predicate Indexed(s: AppState) {
    && CursorsInRange(s)
    && |s.selectedPackages| == |s.packageList|
    && (s.packageSelected.Some? ==> s.packageSelected.value < |s.packageList|)
    && (ShowsPackages(s.viewState) ==> |s.packageList| > 0)
    && (ShowsPackages(s.scriptLastViewState) ==> |s.packageList| > 0)
    && (|s.selectedPackages| > 0 ==> !s.selectedPackages[0])
  }

  /**
   * The state invariant kept by the event loop: indices in bounds, and a
   * pending installation confirmation belongs to the installation-type view
   * (so that re-running the selected action reaches the install script).
   */
  predicate Inv(s: AppState) {
    && Indexed(s)
    && (s.confirmationFn == Some(RerunSelectedAction) ==>
          s.viewState == InstallationType && s.showConfirmation)
  }

  /** Neither the current view nor the remembered one is the progress view. */
  predicate ProgressUnused(s: AppState) {
    s.viewState != ScriptProgress && s.scriptLastViewState != ScriptProgress
  }

  // ---------------------------------------------------------------------
  // Cursor movement (the same wrap-around for every list)
  // ---------------------------------------------------------------------

  /** One step down: the entry after the selected one, wrapping to the first; nothing selected selects the first. */
  function NextIndex(selected: Option<nat>, len: nat): (r: nat)
    requires selected.Some? ==> len > 0
    ensures len > 0 ==> r < len
  {
    match selected
    case Some(i) => (i + 1) % len
    case None => 0
  }

  /** One step up: the entry before the selected one, wrapping to the last; nothing selected selects the first. */
  function PreviousIndex(selected: Option<nat>, len: nat): (r: nat)
    requires selected == Some(0) ==> len > 0
    ensures (selected.Some? ==> selected.value < len) && len > 0 ==> r < len
  {
    match selected
    case Some(i) => if i == 0 then len - 1 else i - 1
    case None => 0
  }

  // ---------------------------------------------------------------------
  // Package catalog and argument vectors
  // ---------------------------------------------------------------------

  /** A catalog line names a package unless it is blank after trimming or starts with `#`. */
  predicate IsPackageLine(line: string) {
    Trim(line) != [] && !(|line| > 0 && line[0] == '#')
  }

  /** The package lines of the catalog, in file order. */
  function FilterCatalog(lines: seq<string>): (r: seq<string>)
    ensures |r| <= |lines|
    ensures forall i :: 0 <= i < |r| ==> IsPackageLine(r[i])
  {
    if lines == [] then []
    else (if IsPackageLine(lines[0]) then [lines[0]] else []) + FilterCatalog(lines[1..])
  }

  /** The names whose flag is set, walking names and flags side by side until either ends. */
  function PickSelected(names: seq<string>, flags: seq<bool>): (r: seq<string>)
    ensures |r| <= |names| && |r| <= |flags|
    ensures forall x :: x in r ==> x in names
  {
    if names == [] || flags == [] then []
    else (if flags[0] then [names[0]] else []) + PickSelected(names[1..], flags[1..])
  }

  /** The selected package names, skipping entry 0 (the custom-packages entry). */
  function SelectedNames(packageList: seq<string>, flags: seq<bool>): seq<string> {
    if packageList == [] || flags == [] then []
    else PickSelected(packageList[1..], flags[1..])
  }

  /** Some flag of the list is set (`iter().any`). */
  predicate AnySelected(flags: seq<bool>) {
    exists i :: 0 <= i < |flags| && flags[i]
  }

  /** The package manager installing `packages` without prompting. */
  function InstallerCommand(packages: seq<string>): Command {
    Command(PACKAGE_MANAGER, ["-S", "--noconfirm"] + packages)
  }

  function InstallCommand(installType: string): Command {
    Command(SUDO, [INSTALL_SCRIPT, installType, "--no-confirm"])
  }

  function UninstallCommand(kind: string): Command {
    Command(SUDO, [UNINSTALL_SCRIPT, kind, "--no-confirm"])
  }

  function UpdateCommand(version: string): Command {
    Command(SUDO, [UPDATE_SCRIPT, "--no-confirm", "-v", version])
  }

  const CHECK_UPDATE_COMMAND := Command(SUDO, [CHECK_UPDATE_SCRIPT, "--no-info"])

  // ---------------------------------------------------------------------
  // Texts of the confirmations and errors
  // ---------------------------------------------------------------------

  function InstallConfirmationText(typeLabel: string): string {
    "Вы уверены, что хотите установить версию " + typeLabel + "?\nВсе данные на диске будут удалены!"
  }

  function UninstallConfirmationText(kind: string): string {
    if kind == "config" then "Вы уверены, что хотите удалить все пользовательские настройки?"
    else if kind == "apps" then "Вы уверены, что хотите удалить все установленные программы?"
    else if kind == "full" then
      "ВНИМАНИЕ! Вы уверены, что хотите полностью удалить систему?\nВсе данные будут безвозвратно удалены!"
    else "Подтвердите удаление"
  }

  function NewVersionText(version: string): string {
    "Найдена новая версия " + version + "!\nВы действительно хотите обновить систему?"
  }

  function ExitFailureText(code: int, stderr: string): string {
    MSG_COMMAND_FAILED + ": " + IntToString(code) + ": " + stderr
  }

  // ---------------------------------------------------------------------
  // The update-check decision
  // ---------------------------------------------------------------------

  /** The version the check printed: every output line trimmed, concatenated. */
  function CandidateVersion(lines: seq<string>): string {
    if lines == [] then [] else Trim(lines[0]) + CandidateVersion(lines[1..])
  }

  /** The installed version reported by the host, or the default. */
  function InstalledVersion(osVersion: Option<string>): string {
    osVersion.UnwrapOr(DEFAULT_VERSION)
  }

  /** The confirmation the finished check opens: its text and the action accepting it runs. */
  function UpdateOffer(lines: seq<string>, osVersion: Option<string>): (string, Deferred) {
    var version := CandidateVersion(lines);
    if version != [] && InstalledVersion(osVersion) != version then
      (NewVersionText(version), UpdateTo(version))
    else
      (MSG_UP_TO_DATE, BackToMainMenu)
  }

  // ---------------------------------------------------------------------
  // The events of a command session
  // ---------------------------------------------------------------------

  /** An event after which the session is over. */
  predicate IsTerminal(e: CommandState) {
    !e.OutputLine?
  }

  /** The error an event reports, if it reports one. */
  function ErrorText(e: CommandState): Option<string> {
    match e
    case Exit => Some(MSG_COMMAND_FAILED)
    case StartError(reason) => Some(MSG_START_ERROR + reason)
    case WaitError(reason) => Some(MSG_WAIT_ERROR + reason)
    case _ => None
  }

  /** The output lines carried by the events, in queue order. */
  function OutputLines(events: seq<CommandState>): (r: seq<string>)
    ensures |r| <= |events|
  {
    if events == [] then []
    else
      var last := events[|events| - 1];
      OutputLines(events[..|events| - 1]) + (if last.OutputLine? then [last.line] else [])
  }

  /** Some event ends the session. */
  predicate AnyTerminal(events: seq<CommandState>) {
    events != [] && (AnyTerminal(events[..|events| - 1]) || IsTerminal(events[|events| - 1]))
  }

  /** The error of the last event that reports one. */
  function LastError(events: seq<CommandState>): Option<string> {
    if events == [] then None
    else if ErrorText(events[|events| - 1]).Some? then ErrorText(events[|events| - 1])
    else LastError(events[..|events| - 1])
  }

  // ---------------------------------------------------------------------
  // Operations of App
  // ---------------------------------------------------------------------

  /** `App::new`. */
  function Initial(): (r: AppState)
    ensures Inv(r) && r.viewState == MainMenu && r.launches == []
  {
    AppState(
      menuSelected := Some(0),
      status := WELCOME_STATUS,
      error := None,
      showError := false,
      confirmation := None,
      confirmationFn := None,
      showConfirmation := false,
      packageList := [],
      packageSelected := None,
      customPackageInput := "",
      viewState := MainMenu,
      selectedPackages := [],
      scriptOutput := [],
      scriptReceiver := None,
      scriptLastViewState := MainMenu,
      scriptProcess := None,
      installationTypeSelected := None,
      uninstallTypeSelected := None,
      newVersion := None,
      scrollPosition := 0,
      infoMessage := None,
      showInfo := false,
      terminalClear := false,
      launches := [])
  }

  function Next(s: AppState): AppState {
    s.(menuSelected := Some(NextIndex(s.menuSelected, MENU_ITEM_COUNT)))
  }

  function Previous(s: AppState): AppState {
    s.(menuSelected := Some(PreviousIndex(s.menuSelected, MENU_ITEM_COUNT)))
  }

  function SetConfirmation(s: AppState, message: string, action: Deferred): AppState {
    s.(confirmation := Some(message), confirmationFn := Some(action), showConfirmation := true)
  }

  function HideConfirmation(s: AppState): AppState {
    s.(showConfirmation := false, confirmationFn := None, confirmation := None)
  }

  function SetError(s: AppState, message: string): AppState {
    s.(error := Some(message), showError := true)
  }

  function HideError(s: AppState): AppState {
    s.(showError := false, error := None)
  }

  function SetInfo(s: AppState, message: string): AppState {
    s.(infoMessage := Some(message), showInfo := true)
  }

  function HideInfo(s: AppState): AppState {
    s.(showInfo := false, infoMessage := None)
  }

  function SetViewState(s: AppState, v: ViewState): (r: AppState)
    ensures Indexed(s) && (ShowsPackages(v) ==> |s.packageList| > 0) ==> Indexed(r)
  {
    s.(viewState := v, terminalClear := true)
  }

  /** `run_command`: start `cmd` with piped output; the result is what its channel holds right away. */
  function RunCommand(s: AppState, cmd: Command, spawn: SpawnResult): (r: (AppState, seq<CommandState>))
    ensures Indexed(s) ==> Indexed(r.0)
    ensures Inv(s) ==> Inv(r.0)
    ensures r.0.launches == s.launches + [cmd]
    ensures r.0.viewState == s.viewState && r.0.showError == s.showError
  {
    var started := s.(launches := s.launches + [cmd]);
    match spawn
    case Spawned(pid) => (started.(scriptProcess := Some(pid)), [])
    case SpawnFailed(reason) => (started, [StartError(reason)])
  }

  /** `run_command_progress`: run `cmd` to its end, then report success as info and failure as error. */
  function RunCommandProgress(s: AppState, cmd: Command, result: RunResult): (r: AppState)
    ensures Inv(s) ==> Inv(r)
    ensures r.launches == s.launches + [cmd]
    ensures r.viewState == s.viewState && r.confirmationFn == s.confirmationFn && r.showConfirmation == s.showConfirmation
    ensures ProgressUnused(s) ==> ProgressUnused(r)
  {
    var reported := Report(s.(launches := s.launches + [cmd]), result);
    reported.(terminalClear := true)
  }

  /** The message `run_command_progress` shows for the outcome of a command. */
  function Report(s: AppState, result: RunResult): (r: AppState)
    ensures Inv(s) ==> Inv(r)
    ensures r.launches == s.launches && r.viewState == s.viewState && r.scriptLastViewState == s.scriptLastViewState
    ensures r.confirmationFn == s.confirmationFn && r.showConfirmation == s.showConfirmation
  {
    match result
    case Finished(Some(code), stderr) =>
      if code == 0 then SetInfo(s, MSG_COMMAND_SUCCESS)
      else SetError(s, ExitFailureText(code, stderr))
    case Finished(None, _) => s
    case RunFailed(reason) => SetError(s, MSG_START_ERROR + reason)
  }

  /** `load_packages`: the custom-packages entry, then the catalog's package lines, none selected. */
  function LoadPackages(s: AppState, catalog: Option<seq<string>>): (r: AppState)
    ensures CursorsInRange(s) ==> Indexed(r)
    ensures Inv(s) && s.viewState == MainMenu ==> Inv(r)
    ensures ProgressUnused(s) ==> ProgressUnused(r)
  {
    var packages := match catalog
      case Some(lines) => FilterCatalog(lines)
      case None => [];
    var list := [CUSTOM_PACKAGES_ENTRY] + packages;
    s.(packageList := list,
       selectedPackages := seq(|list|, _ => false),
       packageSelected := Some(0),
       viewState := PackageList)
  }

  /** `toggle_package`: entry 0 opens the text input, any other entry flips its flag. */
  function TogglePackage(s: AppState): (r: AppState)
    requires s.packageSelected.Some? ==> s.packageSelected.value < |s.selectedPackages|
    ensures Indexed(s) ==> Indexed(r)
    ensures ProgressUnused(s) ==> ProgressUnused(r)
  {
    match s.packageSelected
    case Some(i) =>
      if i == 0 then s.(viewState := CustomPackageInput)
      else s.(selectedPackages := s.selectedPackages[i := !s.selectedPackages[i]])
    case None => s
  }

  /** `install_selected_packages`: install the selected packages, or do nothing when none is. */
  function InstallSelectedPackages(s: AppState, run: RunResult): (r: AppState)
    ensures Inv(s) ==> Inv(r)
    ensures ProgressUnused(s) ==> ProgressUnused(r)
  {
    var names := SelectedNames(s.packageList, s.selectedPackages);
    if names == [] then s else RunCommandProgress(s, InstallerCommand(names), run)
  }

  /** `start_package_installation`: as above, but say so in the status when nothing is selected. */
  function StartPackageInstallation(s: AppState, run: RunResult): (r: AppState)
    ensures Inv(s) ==> Inv(r)
    ensures ProgressUnused(s) ==> ProgressUnused(r)
  {
    var names := SelectedNames(s.packageList, s.selectedPackages);
    if names == [] then s.(status := MSG_NO_PACKAGES_SELECTED)
    else RunCommandProgress(s, InstallerCommand(names), run)
  }

  /** `install_custom_packages`: install the typed words, then clear the input. */
  function InstallCustomPackages(s: AppState, run: RunResult): (r: AppState)
    ensures Inv(s) ==> Inv(r)
    ensures ProgressUnused(s) ==> ProgressUnused(r)
  {
    var packages := SplitWhitespace(s.customPackageInput);
    if packages == [] then s.(status := MSG_NO_PACKAGES_SPECIFIED)
    else RunCommandProgress(s, InstallerCommand(packages), run).(customPackageInput := "")
  }

  /** The reader and waiter threads send `events`; a dropped receiver loses them. */
  function Deliver(s: AppState, events: seq<CommandState>): (r: AppState)
    ensures Inv(s) ==> Inv(r)
    ensures ProgressUnused(s) ==> ProgressUnused(r)
    ensures s.scriptReceiver.Some? ==> r.scriptReceiver == Some(s.scriptReceiver.value + events)
    ensures s.scriptReceiver.None? ==> r == s
    ensures r == s.(scriptReceiver := r.scriptReceiver)
  {
    match s.scriptReceiver
    case Some(queue) => s.(scriptReceiver := Some(queue + events))
    case None => s
  }

  /**
   * `update_script_progress`: drain the channel; keep every output line, show
   * the last reported error, and drop the session when some event ends it.
   */
  function UpdateScriptProgress(s: AppState): (r: AppState)
    ensures Inv(s) ==> Inv(r)
    ensures ProgressUnused(s) ==> ProgressUnused(r)
  {
    match s.scriptReceiver
    case None => s
    case Some(queue) =>
      var drained := Received(s, queue);
      if AnyTerminal(queue) then EndSession(drained) else drained
  }

  /** The state once the events of `queue` are taken from the channel. */
  function Received(s: AppState, queue: seq<CommandState>): (r: AppState)
    ensures Inv(s) ==> Inv(r)
    ensures ProgressUnused(s) ==> ProgressUnused(r)
  {
    var err := LastError(queue);
    s.(scriptOutput := s.scriptOutput + OutputLines(queue),
       error := if err.Some? then err else s.error,
       showError := s.showError || err.Some?,
       scriptReceiver := Some([]))
  }

  /** The session is over: the channel is dropped and the process forgotten. */
  function EndSession(s: AppState): (r: AppState)
    ensures Inv(s) ==> Inv(r)
    ensures ProgressUnused(s) ==> ProgressUnused(r)
  {
    s.(scriptReceiver := None, scriptProcess := None)
  }

  /** `handle_install`: only a system that is not yet the target system may be installed. */
  function HandleInstall(s: AppState, osName: Option<string>): (r: AppState)
    ensures Indexed(s) ==> Indexed(r)
    ensures Inv(s) && s.viewState == MainMenu ==> Inv(r)
    ensures ProgressUnused(s) ==> ProgressUnused(r)
  {
    match osName
    case Some(name) =>
      if Contains(name, OS_NAME) then SetError(s, MSG_ALREADY_INSTALLED)
      else SetViewState(s, InstallationType).(installationTypeSelected := Some(0))
    case None => SetError(s, MSG_OS_NOT_DETECTED)
  }

  /** `handle_installation_type`: ask to confirm wiping the disk for the selected type. */
  function HandleInstallationType(s: AppState): (r: AppState)
    requires CursorsInRange(s)
    ensures Indexed(s) ==> Indexed(r)
    ensures ProgressUnused(s) ==> ProgressUnused(r)
  {
    match s.installationTypeSelected
    case Some(i) =>
      SetConfirmation(s, InstallConfirmationText(INSTALLATION_TYPES[i].0), RerunSelectedAction)
    case None => s
  }

  /** `check_updates`: remember the view, show the check, start the check script with piped output. */
  function CheckUpdates(s: AppState, spawn: SpawnResult): (r: AppState)
    ensures Indexed(s) ==> Indexed(r)
    ensures ProgressUnused(s) ==> ProgressUnused(r)
  {
    var shown := SetViewState(ResetOutput(s), UpdateCheck);
    var started := RunCommand(shown, CHECK_UPDATE_COMMAND, spawn);
    Listen(started.0, started.1)
  }

  /** Clear the output pane and remember the view to return to. */
  function ResetOutput(s: AppState): (r: AppState)
    ensures Indexed(s) ==> Indexed(r)
    ensures ProgressUnused(s) ==> ProgressUnused(r)
    ensures r.viewState == s.viewState && r.scriptLastViewState == s.viewState && r.scriptOutput == []
  {
    s.(scriptOutput := [], scriptLastViewState := s.viewState)
  }

  /** Keep the channel of a started command. */
  function Listen(s: AppState, rx: seq<CommandState>): (r: AppState)
    ensures Indexed(s) ==> Indexed(r)
    ensures ProgressUnused(s) ==> ProgressUnused(r)
    ensures r.scriptReceiver == Some(rx)
  {
    s.(scriptReceiver := Some(rx))
  }

  /** `handle_update`: only the target system may be updated. */
  function HandleUpdate(s: AppState, osName: Option<string>, spawn: SpawnResult): (r: AppState)
    ensures Indexed(s) ==> Indexed(r)
    ensures Inv(s) && s.viewState == MainMenu ==> Inv(r)
    ensures ProgressUnused(s) ==> ProgressUnused(r)
  {
    match osName
    case Some(name) =>
      if Contains(name, OS_NAME) then CheckUpdates(s, spawn)
      else SetError(s, MSG_UPDATE_UNSUPPORTED + name)
    case None => SetError(s, MSG_OS_NOT_DETECTED)
  }

  /** `start_update`: take the found version and run the update script for it. */
  function StartUpdate(s: AppState, run: RunResult): (r: AppState)
    requires s.newVersion.Some?
    ensures Inv(s) ==> Inv(r)
    ensures ProgressUnused(s) ==> ProgressUnused(r)
    ensures r.launches == s.launches + [UpdateCommand(s.newVersion.value)] && r.newVersion.None?
    ensures r.viewState == s.viewState && r.showConfirmation == s.showConfirmation
  {
    RunCommandProgress(s.(newVersion := None), UpdateCommand(s.newVersion.value), run)
  }

  /** `handle_uninstall`: only the target system may be uninstalled. */
  function HandleUninstall(s: AppState, osName: Option<string>): (r: AppState)
    ensures Indexed(s) ==> Indexed(r)
    ensures Inv(s) && s.viewState == MainMenu ==> Inv(r)
    ensures ProgressUnused(s) ==> ProgressUnused(r)
  {
    match osName
    case Some(name) =>
      if Contains(name, OS_NAME) then SetViewState(s, UninstallType).(uninstallTypeSelected := Some(0))
      else SetError(s, MSG_UPDATE_UNSUPPORTED + name)
    case None => SetError(s, MSG_OS_NOT_DETECTED)
  }

  /** `handle_uninstall_type`: ask to confirm the selected kind of uninstall. */
  function HandleUninstallType(s: AppState): (r: AppState)
    requires CursorsInRange(s)
    ensures Indexed(s) ==> Indexed(r)
    ensures ProgressUnused(s) ==> ProgressUnused(r)
  {
    match s.uninstallTypeSelected
    case Some(i) =>
      var kind := UNINSTALL_KINDS[i];
      SetConfirmation(s, UninstallConfirmationText(kind), RunUninstall(kind))
    case None => s
  }

  /** `run_installation_script`: run the install script for the selected type. */
  function RunInstallationScript(s: AppState, run: RunResult): (r: AppState)
    requires CursorsInRange(s)
    ensures Inv(s) ==> Inv(r)
    ensures ProgressUnused(s) ==> ProgressUnused(r)
  {
    match s.installationTypeSelected
    case Some(i) => RunCommandProgress(s, InstallCommand(INSTALLATION_TYPES[i].1), run)
    case None => s
  }

  /** Enter on the main menu: dispatch on the action name of the selected item. */
  function RunMenuItem(s: AppState, host: Host): (r: AppState)
    requires CursorsInRange(s)
    ensures Inv(s) && s.viewState == MainMenu ==> Inv(r)
  {
    match s.menuSelected
    case Some(i) =>
      var action := MENU_ACTIONS[i];
      if action == "install" then HandleInstall(s, host.osName)
      else if action == "update" then HandleUpdate(s, host.osName, host.spawn)
      else if action == "uninstall" then HandleUninstall(s, host.osName)
      else if action == "install_package" then LoadPackages(s, host.catalog)
      else s
    case None => s
  }

  /** `run_selected_action`: what Enter does in the current view. */
  function RunSelectedAction(s: AppState, host: Host): (r: AppState)
    requires CursorsInRange(s)
    requires s.viewState == UpdateCheck ==> s.newVersion.Some?
    ensures Inv(s) ==> Inv(r)
  {
    match s.viewState
    case MainMenu => RunMenuItem(s, host)
    case PackageList => InstallSelectedPackages(s, host.run)
    case CustomPackageInput => InstallCustomPackages(s, host.run)
    case ScriptProgress => UpdateScriptProgress(s)
    case InstallationType =>
      if !s.showConfirmation then HandleInstallationType(s) else RunInstallationScript(s, host.run)
    case UpdateCheck => StartUpdate(ReturnToLastView(s), host.run)
    case UninstallType =>
      if !s.showConfirmation then HandleUninstallType(s) else s
  }

  /** Back to the view that was shown before the output pane. */
  function ReturnToLastView(s: AppState): (r: AppState)
    ensures Inv(s) && s.confirmationFn != Some(RerunSelectedAction) ==> Inv(r)
    ensures r.viewState == s.scriptLastViewState && r.newVersion == s.newVersion
  {
    s.(viewState := s.scriptLastViewState)
  }

  /** Running the action an accepted confirmation carried. */
  function RunDeferred(s: AppState, action: Deferred, host: Host): (r: AppState)
    requires CursorsInRange(s)
    requires action == RerunSelectedAction && s.viewState == UpdateCheck ==> s.newVersion.Some?
    ensures Inv(s) && s.confirmationFn.None? ==> Inv(r)
  {
    match action
    case RerunSelectedAction => RunSelectedAction(s, host)
    case RunUninstall(kind) => RunCommandProgress(s, UninstallCommand(kind), host.run)
    case UpdateTo(version) =>
      RunSelectedAction(SetViewState(s, UpdateCheck).(newVersion := Some(version)), host)
    case BackToMainMenu => SetViewState(s, MainMenu)
  }

  /**
   * The decision the update-check screen takes once the check is over: unless
   * an error is shown, offer the update or say the system is up to date; in
   * both cases go back to the view the check started from.
   */
  function UpdateCheckDecision(s: AppState, osVersion: Option<string>): (r: AppState)
    ensures Indexed(s) ==> Indexed(r)
    ensures Inv(s) && s.viewState == UpdateCheck ==> Inv(r)
  {
    if s.scriptReceiver.Some? then s
    else
      var offered :=
        if !s.showError then
          var (message, action) := UpdateOffer(s.scriptOutput, osVersion);
          SetConfirmation(s, message, action)
        else s;
      SetViewState(offered, offered.scriptLastViewState)
  }

  /** Forget the running process (it is killed by id) and say the task was cancelled. */
  function CancelProcess(s: AppState): (r: AppState)
    ensures Inv(s) ==> Inv(r)
  {
    if s.scriptProcess.Some? then s.(scriptProcess := None, status := MSG_TASK_CANCELLED) else s
  }

  /** `usize::saturating_sub`: the difference, or zero where it would fall below zero. */
  function SaturatingSub(a: nat, b: nat): (r: nat)
    ensures r <= a
    ensures b <= a ==> r + b == a
    ensures a < b ==> r == 0
  {
    if a < b then 0 else a - b
  }

  /** `usize::saturating_add`: the sum, or `usize::MAX` where it would exceed it. */
  function SaturatingAdd(a: nat, b: nat): (r: nat)
    ensures a <= USIZE_MAX ==> a <= r <= USIZE_MAX
    ensures a + b <= USIZE_MAX ==> r == a + b
    ensures a + b > USIZE_MAX ==> r == USIZE_MAX
  {
    if a + b > USIZE_MAX then USIZE_MAX else a + b
  }

  // ---------------------------------------------------------------------
  // Key routing of the event loop: the result is the new state and whether to quit
  // ---------------------------------------------------------------------

  /** Keys on the confirmation: Enter runs the action once and closes, Esc closes. */
  function ConfirmationKey(s: AppState, key: Key, host: Host): (r: AppState)
    requires Inv(s)
    ensures Inv(r)
  {
    match key
    case Enter =>
      var ran := match s.confirmationFn
        case Some(action) => RunDeferred(s.(confirmationFn := None), action, host)
        case None => s;
      HideConfirmation(ran)
    case Esc => HideConfirmation(s)
    case _ => s
  }

  function MainMenuKey(s: AppState, key: Key, host: Host): (r: (AppState, bool))
    requires Inv(s) && !s.showConfirmation && s.viewState == MainMenu
    ensures Inv(r.0)
  {
    match key
    case Char(c) => (s, c == 'q')
    case Up => (Previous(s), false)
    case Down => (Next(s), false)
    case Enter => (RunSelectedAction(s, host), false)
    case _ => (s, false)
  }

  function PackageListKey(s: AppState, key: Key, host: Host): (r: (AppState, bool))
    requires Inv(s) && !s.showConfirmation && s.viewState == PackageList
    ensures Inv(r.0)
  {
    match key
    case Char(c) =>
      if c == 'q' then (s, true)
      else if c == ' ' then (TogglePackage(s), false)
      else (s, false)
    case Up => (s.(packageSelected := Some(PreviousIndex(s.packageSelected, |s.packageList|))), false)
    case Down => (s.(packageSelected := Some(NextIndex(s.packageSelected, |s.packageList|))), false)
    case Enter =>
      if AnySelected(s.selectedPackages) then (StartPackageInstallation(s, host.run), false)
      else (TogglePackage(s), false)
    case Esc => (SetViewState(s, MainMenu), false)
    case _ => (s, false)
  }

  /** The text input: `q` quits before any other character is typed into the buffer. */
  function CustomPackageInputKey(s: AppState, key: Key, host: Host): (r: (AppState, bool))
    requires Inv(s) && !s.showConfirmation && s.viewState == CustomPackageInput
    ensures Inv(r.0)
  {
    match key
    case Char(c) =>
      if c == 'q' then (s, true)
      else (s.(customPackageInput := s.customPackageInput + [c]), false)
    case Backspace =>
      var input := s.customPackageInput;
      (s.(customPackageInput := if input == [] then [] else input[..|input| - 1]), false)
    case Enter => (RunSelectedAction(s, host), false)
    case Esc => (SetViewState(s, PackageList), false)
    case _ => (s, false)
  }

  function ScriptProgressKey(s: AppState, key: Key): (r: AppState)
    requires Inv(s) && !s.showConfirmation && s.viewState == ScriptProgress
    ensures Inv(r)
  {
    match key
    case Enter =>
      if s.scriptProcess.None? then SetViewState(s, s.scriptLastViewState) else s
    case Esc =>
      var cancelled := CancelProcess(s);
      SetViewState(cancelled, cancelled.scriptLastViewState)
    case Up => s.(scrollPosition := SaturatingSub(s.scrollPosition, 1))
    case Down => s.(scrollPosition := SaturatingAdd(s.scrollPosition, 1))
    case PageUp => s.(scrollPosition := SaturatingSub(s.scrollPosition, 10))
    case PageDown => s.(scrollPosition := SaturatingAdd(s.scrollPosition, 10))
    case _ => s
  }

  function InstallationTypeKey(s: AppState, key: Key, host: Host): (r: (AppState, bool))
    requires Inv(s) && !s.showConfirmation && s.viewState == InstallationType
    ensures Inv(r.0)
  {
    match key
    case Char(c) => (s, c == 'q')
    case Up =>
      (s.(installationTypeSelected := Some(PreviousIndex(s.installationTypeSelected, INSTALLATION_TYPE_COUNT))), false)
    case Down =>
      (s.(installationTypeSelected := Some(NextIndex(s.installationTypeSelected, INSTALLATION_TYPE_COUNT))), false)
    case Enter => (RunSelectedAction(s, host), false)
    case Esc => (SetViewState(s, MainMenu), false)
    case _ => (s, false)
  }

  function UpdateCheckKey(s: AppState, key: Key): (r: AppState)
    requires Inv(s) && !s.showConfirmation && s.viewState == UpdateCheck
    ensures Inv(r)
  {
    match key
    case Esc => SetViewState(CancelProcess(s), MainMenu)
    case _ => s
  }

  function UninstallTypeKey(s: AppState, key: Key, host: Host): (r: (AppState, bool))
    requires Inv(s) && !s.showConfirmation && s.viewState == UninstallType
    ensures Inv(r.0)
  {
    match key
    case Char(c) => (s, c == 'q')
    case Up =>
      (s.(uninstallTypeSelected := Some(PreviousIndex(s.uninstallTypeSelected, UNINSTALL_TYPE_COUNT))), false)
    case Down =>
      (s.(uninstallTypeSelected := Some(NextIndex(s.uninstallTypeSelected, UNINSTALL_TYPE_COUNT))), false)
    case Enter => (RunSelectedAction(s, host), false)
    case Esc => (SetViewState(s, MainMenu), false)
    case _ => (s, false)
  }

  /** A key when no modal is open: handled by the current view. */
  function ViewKey(s: AppState, key: Key, host: Host): (r: (AppState, bool))
    requires Inv(s) && !s.showConfirmation
    ensures Inv(r.0)
  {
    match s.viewState
    case MainMenu => MainMenuKey(s, key, host)
    case PackageList => PackageListKey(s, key, host)
    case CustomPackageInput => CustomPackageInputKey(s, key, host)
    case ScriptProgress => (ScriptProgressKey(s, key), false)
    case InstallationType => InstallationTypeKey(s, key, host)
    case UpdateCheck => (UpdateCheckKey(s, key), false)
    case UninstallType => UninstallTypeKey(s, key, host)
  }

  /** One key press: the error modal first, then the confirmation, then the info modal, then the view. */
  function HandleKey(s: AppState, key: Key, host: Host): (r: (AppState, bool))
    requires Inv(s)
    ensures Inv(r.0)
  {
    if s.showError then
      (if key == Enter || key == Esc then HideError(s) else s, false)
    else if s.showConfirmation then
      (ConfirmationKey(s, key, host), false)
    else if s.showInfo then
      (if key == Enter || key == Esc then HideInfo(s) else s, false)
    else
      ViewKey(s, key, host)
  }

  /**
   * One pass of the event loop: the events the command's threads sent since
   * the last pass reach the channel; then the pass drains it, clears the
   * terminal if asked, takes the update-check decision when on that screen, and
   * handles the key pressed during the poll, if any.
   */
  function Tick(s: AppState, key: Option<Key>, host: Host): (r: (AppState, bool))
    requires Inv(s)
    ensures Inv(r.0)
  {
    var drawn := Refresh(Deliver(s, host.sent), host.osVersion);
    match key
    case Some(k) => HandleKey(drawn, k, host)
    case None => (drawn, false)
  }

  /** The part of a pass before the key: drain the channel, clear the terminal, decide on the update check. */
  function Refresh(s: AppState, osVersion: Option<string>): (r: AppState)
    ensures Inv(s) ==> Inv(r)
    ensures ProgressUnused(s) ==> ProgressUnused(r)
  {
    var drained := UpdateScriptProgress(s).(terminalClear := false);
    if drained.viewState == UpdateCheck then UpdateCheckDecision(drained, osVersion) else drained
  }

  /**
   * The event loop from state `s`: one pass per entry of `keys` (the key read
   * during that pass, if any) and `hosts` (what the host answers during it),
   * stopping after the pass that asks to quit. The result is the final state
   * and whether the loop quit.
   */
  function Run(s: AppState, keys: seq<Option<Key>>, hosts: seq<Host>): (r: (AppState, bool))
    requires Inv(s) && |keys| == |hosts|
    ensures Inv(r.0)
    decreases |keys|
  {
    if keys == [] then (s, false)
    else
      var (next, quit) := Tick(s, keys[0], hosts[0]);
      if quit then (next, true) else Run(next, keys[1..], hosts[1..])
  }
}
