# kite-tools: the management TUI as a verified state machine

kite-tools is a terminal front-end for installing, updating and cleaning a
Kite Linux ("Коршун") system and for installing extra packages with `yay`.
Its core is the `App` struct of `src/main.rs`. It holds:

- the current view (main menu, package list, custom package input, script
  progress, installation type, update check, uninstall type);
- the list cursors and the package catalog with its selection flags;
- three modal dialogs: error, confirmation with a deferred action, and info;
- the output and channel of a running command.

`run_tui` drives it. On each pass it drains the channel, clears the terminal
if asked, draws the frame (where the update-check decision is taken), and
hands the key read during the poll to the dialogs or the current view.
`src/localization.rs` holds a table of Russian and English texts with
`get` and `get_fmt`.

This project models that core in Dafny:

- `wrappers.dfy`, module `Wrappers`: `Option`.
- `text.dfy`, module `Text`: the string operations the code relies on. They
  follow Rust's `trim`, `split_whitespace`, `contains` and `replace`, and
  decimal formatting of an exit code.
- `localization.dfy`, module `Localization`: the translation table, built
  insert by insert as `HashMap::insert` does (a later insert overwrites),
  with `get` and `get_fmt`.
- `app_model.dfy`, module `AppModel`:
  - the constants: scripts, commands and the hard-coded texts;
  - the menu, installation-type and uninstall-kind lists;
  - the state record `AppState`;
  - one pure transition function per `App` method and per key handler
    of `run_tui`;
  - `Tick`, one pass of the loop, and `Run`, the loop over a sequence of
    passes;
  - the invariant `Inv`: every cursor and list index in bounds, the
    custom-packages entry never flagged, and a pending "re-run the selected
    action" confirmation only on the installation-type view. Every key
    handler and every pass of the loop keeps `Inv`; the operations a key
    reaches (choosing an installation type or uninstall kind, checking
    for updates, switching views, flagging a package) keep `Indexed`, the
    bounds part of `Inv`.
- `app_properties.dfy`, module `AppProperties`: the properties of the state
  machine, proved over all inputs.
- `app.dfy`, module `AppMachine`: the class `App`, whose fields are the
  struct's. Each method updates them in place, as the Rust methods do. Each
  is proved to leave `State()` equal to the corresponding `AppModel`
  function of the old state. The draining loop of `update_script_progress`
  and the `run_tui` loop are `while` loops with invariants.

External effects are parameters. The `Host` record carries:

- what `get_os_name` and `get_os_version` answer;
- the catalog file's lines, or `None` when it cannot be opened;
- whether `run_command` could spawn its process;
- how the blocking `run_command_progress` ended;
- the events the running command's threads sent since the previous pass.

The ghost field `launches` records every command the application starts.
That is how "runs the update script for exactly that version" and "starts
at most one program" are stated. The reader and waiter threads of
`run_command` are `Deliver`, which appends events to the channel while the
receiver exists. Each pass of the loop first delivers what the threads sent
since the previous pass, then drains the channel, so a started check can
complete and be answered within `Run`.

Behaviour of the code worth noting:

- "System is up to date" is a confirmation whose action returns to the main
  menu, not an info dialog (`src/main.rs:930-935`).
- Nothing prevents starting a second command while one runs. Launching the
  check script again replaces the receiver.
- "No packages selected" and "no packages specified" only set the status
  line; they open no error dialog (`src/main.rs:404`, `src/main.rs:424`).
- `q` quits from the custom package input before it reaches the text buffer,
  so no package name with a `q` can be typed (`src/main.rs:1098-1099`).
- Cancelling the update check kills the process but keeps the channel
  (`src/main.rs:1173-1183`). The waiter thread's `Exit` for the killed
  process is drained on a later pass and opens the "finished with an error"
  dialog (`UpdateCheckEsc`, `DrainDelivered`).
- `handle_uninstall` on a foreign system reuses the "update not supported"
  text (`src/main.rs:576-592`).
- `main.rs` does not use the localization table; it hard-codes the Russian
  texts. `AppProperties.TextsMatchLocalization` shows that two of them are
  the table's Russian entries.

## Model

| member | source | states |
|---|---|---|
| Text.TrimStart | src/main.rs:916 | the result is a suffix of the input, what was dropped is whitespace, and the result starts with a non-whitespace character or is empty |
| Text.TrimEnd | src/main.rs:916 | the result is a prefix of the input, what was dropped is whitespace, and the result ends with a non-whitespace character or is empty |
| Text.TrimEmptyIff | src/main.rs:359 | `Trim` (`TrimStart` after `TrimEnd`) of a line is empty exactly when every character of it is whitespace |
| Text.TrimUnchanged | src/main.rs:916 | a string without whitespace at either end is its own trim |
| Text.WordLength | src/main.rs:399 | the first word is a whitespace-free prefix, followed by whitespace or the end |
| Text.SplitWhitespace | src/main.rs:397-403 | every word is non-empty and contains no whitespace |
| Text.SplitWhitespaceEmptyIff | src/main.rs:397-405 | splitting yields no word exactly when the input is all whitespace |
| Text.SplitJoinRoundTrip | src/main.rs:397-403 | splitting words joined by single spaces gives back the same words |
| Text.ContainsIff | src/main.rs:513 | `Contains` holds exactly when the pattern occurs at some index |
| Text.ReplaceAbsent | src/localization.rs:172-174 | `Replace` of a pattern that does not occur leaves the string unchanged |
| Text.ReplaceBySelf | src/localization.rs:172-174 | replacing a pattern by itself leaves the string unchanged |
| Text.ReplaceAfterPrefix | src/localization.rs:172-174 | a prefix not starting the pattern passes through replacement untouched |
| Text.ReplaceTrailing | src/localization.rs:172-174 | a text whose only placeholder ends it gets the argument in that place |
| Text.NotContainsWithoutFirst | src/localization.rs:172-174 | a text without the pattern's first character does not contain the pattern |
| Text.ReplaceOne | src/localization.rs:172-174 | a text with one occurrence of the pattern, after a prefix that cannot start it, becomes prefix, replacement, suffix |
| Text.NatToString | src/main.rs:333 | the decimal form of the exit code is non-empty, made of digits, and starts with `0` exactly for zero (no leading zeros) |
| Text.NatToStringValue | src/main.rs:333 | the digits denote the number they were made from |
| Text.IntToStringValue | src/main.rs:333 | the exit code's text has a minus sign exactly for a negative code, and its digits read back as the code |
| Localization.GetPresent | src/localization.rs:166-170 | `Get` of a present key yields its translation in the requested language |
| Localization.GetAbsent | src/localization.rs:166-170 | `Get` of a missing key yields the key itself |
| Localization.GetFmtWithoutPlaceholder | src/localization.rs:172-174 | `GetFmt` returns a text without `{}` unchanged |
| Localization.GetFmtTrailing | src/localization.rs:172-174 | `GetFmt` of a text ending in its only `{}` is its prefix followed by the argument |
| Localization.GetFmtSingle | src/localization.rs:172-174 | `GetFmt` of a text with one `{}` anywhere is the text before it, the argument, and the text after it |
| Localization.GetFmtLeading | src/localization.rs:172-174 | `GetFmt` of a text starting with its only `{}` is the argument followed by the rest |
| Localization.UninstallConfirmationFormats | src/localization.rs:146-148 | a table holding the inserted `uninstall_confirmation` texts formats them as the argument followed by the key help, in both languages |
| Localization.NewUninstallConfirmation | src/localization.rs:146-148 | `uninstall_confirmation` formats to the argument followed by "Enter - Подтвердить / Esc - Отменить" (Russian) or "Enter - Confirm / Esc - Cancel" (English) |
| Localization.BuildKeys | src/localization.rs:14-164 | the keys of the table `Build` makes from the inserts are exactly the inserted keys |
| Localization.BuildLastInsertWins | src/localization.rs:14-164 | in `Build`, a key not inserted again later keeps the translations of its insert |
| Localization.NewKeys | src/localization.rs:14-164 | the keys of `New` (`Localization::new`) are exactly those of its inserts |
| Localization.NewTaskCancelled | src/localization.rs:161 | `task_cancelled` reads "Задача отменена" in Russian and "Task Cancelled" in English |
| Localization.NewCommandErrorStart | src/localization.rs:111 | `command_error_start` formats to "Ошибка запуска: " followed by the argument, in Russian |
| AppModel.ListSizes | src/main.rs:93-169 | the menu, installation-type and uninstall lists have 4, 3 and 3 entries, labels matching actions |
| AppModel.NextIndex | src/main.rs:171-177 | moving down in a non-empty list stays in bounds |
| AppModel.PreviousIndex | src/main.rs:179-191 | moving up in a non-empty list stays in bounds |
| AppModel.FilterCatalog | src/main.rs:348-367 | the kept lines are no more than the catalog's and each is a package line |
| AppModel.PickSelected | src/main.rs:379-395 | the picked names come from the list, no more of them than names or flags; `PickSelectedAppend` gives their order |
| AppModel.OutputLines | src/main.rs:434-467 | the output lines gained are no more than the events received |
| AppModel.Initial | src/main.rs:93-169 | the initial state satisfies the invariant, shows the main menu and has started nothing |
| AppModel.SetViewState | src/main.rs:504-509 | switching view keeps indices in bounds when the target view, if a package view, has packages |
| AppModel.RunCommand | src/main.rs:234-296 | starting a command records exactly that command, keeps the invariant, view and error flag |
| AppModel.RunCommandProgress | src/main.rs:298-346 | running a command records exactly that command and keeps the invariant, the view and the confirmation |
| AppModel.Report | src/main.rs:330-343 | reporting a run's outcome keeps the invariant, the launches, the view and the confirmation; what it shows is in `ReportOutcome` |
| AppModel.LoadPackages | src/main.rs:348-367 | opening the package list from the main menu keeps the invariant |
| AppModel.TogglePackage | src/main.rs:369-377 | toggling keeps indices in bounds and never enters the progress view |
| AppModel.InstallSelectedPackages | src/main.rs:379-395 | installing the selection keeps the invariant; its launch is stated by `InstallSelectedPackagesOutcome` |
| AppModel.StartPackageInstallation | src/main.rs:415-432 | starting the installation keeps the invariant; its launch is stated by `StartPackageInstallationOutcome` |
| AppModel.InstallCustomPackages | src/main.rs:397-413 | installing typed packages keeps the invariant |
| AppModel.Deliver | src/main.rs:251-292 | the threads' events are appended to the channel while the receiver exists and lost once it is dropped; nothing else changes, so the invariant is kept |
| AppModel.UpdateScriptProgress | src/main.rs:434-467 | draining the channel keeps the invariant and never enters the progress view |
| AppModel.HandleInstall | src/main.rs:511-524 | the install entry keeps the invariant |
| AppModel.HandleInstallationType | src/main.rs:526-539 | asking to confirm an installation type keeps indices in bounds |
| AppModel.CheckUpdates | src/main.rs:558-567 | starting the update check keeps indices in bounds |
| AppModel.HandleUpdate | src/main.rs:541-556 | the update entry keeps the invariant |
| AppModel.StartUpdate | src/main.rs:569-574 | the update script runs for the found version, which is then cleared; the invariant, view and confirmation flag are kept |
| AppModel.HandleUninstall | src/main.rs:576-592 | the uninstall entry keeps the invariant |
| AppModel.HandleUninstallType | src/main.rs:594-613 | asking to confirm an uninstall kind keeps indices in bounds |
| AppModel.RunInstallationScript | src/main.rs:615-622 | running the install script keeps the invariant |
| AppModel.RunMenuItem | src/main.rs:193-203 | a main-menu action keeps the invariant |
| AppModel.RunSelectedAction | src/main.rs:193-232 | Enter's action in any view keeps the invariant |
| AppModel.RunDeferred | src/main.rs:1035-1040 | running the action a confirmation carried keeps the invariant |
| AppModel.UpdateCheckDecision | src/main.rs:913-939 | the update-check decision keeps the invariant |
| AppModel.CancelProcess | src/main.rs:1115-1122 | cancelling the running command keeps the invariant; its effect is stated by `UpdateCheckEsc` and `ScriptProgressEsc` |
| AppModel.SaturatingSub | src/main.rs:1125 | scrolling up never goes below zero and is exact when it does not underflow |
| AppModel.SaturatingAdd | src/main.rs:1129 | scrolling down never passes `usize::MAX`, is exact when it does not overflow, and is `usize::MAX` when it would |
| AppModel.ConfirmationKey | src/main.rs:1035-1044 | a key on the confirmation dialog keeps the invariant |
| AppModel.MainMenuKey | src/main.rs:1051-1060 | a key on the main menu keeps the invariant |
| AppModel.PackageListKey | src/main.rs:1061-1095 | a key on the package list keeps the invariant |
| AppModel.CustomPackageInputKey | src/main.rs:1096-1105 | a key in the text input keeps the invariant |
| AppModel.ScriptProgressKey | src/main.rs:1106-1142 | a key on the progress view keeps the invariant |
| AppModel.InstallationTypeKey | src/main.rs:1143-1170 | a key on the installation-type list keeps the invariant |
| AppModel.UpdateCheckKey | src/main.rs:1171-1186 | a key during the update check keeps the invariant |
| AppModel.UninstallTypeKey | src/main.rs:1187-1214 | a key on the uninstall list keeps the invariant |
| AppModel.ViewKey | src/main.rs:1050-1214 | a key handled by the current view keeps the invariant |
| AppModel.HandleKey | src/main.rs:1029-1214 | any key keeps the invariant |
| AppModel.Refresh | src/main.rs:680-688 | draining, clearing and the update decision keep the invariant and never enter the progress view |
| AppModel.Tick | src/main.rs:678-1216 | one pass of the loop (delivery of what the threads sent, drain, clear, update decision, key) keeps the invariant |
| AppModel.Run | src/main.rs:678-1216 | any number of passes, whatever the threads send between them, keeps the invariant |
| AppProperties.NextIndexStep | src/main.rs:171-177 | Down moves to the next entry, or wraps from the last entry to the first |
| AppProperties.NextPreviousInverse | src/main.rs:171-191 | Up undoes Down and Down undoes Up on every entry |
| AppProperties.DownPressesWrap | src/main.rs:171-177 | k presses of Down move the cursor k entries on, modulo the list length |
| AppProperties.PackageLineIff | src/main.rs:359 | a catalog line is kept exactly when it is not blank and does not start with `#` |
| AppProperties.FilterCatalogMembers | src/main.rs:354-362 | the package list holds exactly the package lines of the catalog |
| AppProperties.FilterCatalogAppend | src/main.rs:354-362 | filtering keeps file order: a catalog filters piecewise |
| AppProperties.LoadPackagesShape | src/main.rs:348-367 | the list is the custom entry followed by the filtered catalog (empty if the file cannot be opened), none selected, cursor on the first entry, nothing started |
| AppProperties.PickSelectedMembers | src/main.rs:379-395 | a name is picked exactly when it stands at a set flag |
| AppProperties.PickSelectedEmptyIff | src/main.rs:379-395 | nothing is picked exactly when no flag is set |
| AppProperties.SelectedNamesEmptyIff | src/main.rs:415-432 | the selection `SelectedNames` to install is empty exactly when no flag is set |
| AppProperties.PickSelectedAppend | src/main.rs:379-386 | picking keeps list order: the picks of two concatenated lists are the picks of each, in order |
| AppProperties.SelectedNamesExample | src/main.rs:415-422 | ticking A and C of A, B, C selects exactly A then C |
| AppProperties.StartPackageInstallationOutcome | src/main.rs:415-432 | with something ticked, the package manager runs once with `-S --noconfirm` and the ticked names; with nothing ticked only the status says so |
| AppProperties.InstallSelectedPackagesOutcome | src/main.rs:379-395 | with something ticked, the same single launch; with nothing ticked the state is unchanged |
| AppProperties.PackageListEnter | src/main.rs:1061-1095 | Enter on the package list installs the ticked packages, or with none ticked acts as the space bar |
| AppProperties.TogglePackageInvolution | src/main.rs:369-377 | toggling the same package twice restores the state |
| AppProperties.TogglePackageEffect | src/main.rs:369-377 | toggling flips exactly the flag under the cursor; the custom entry opens the text input instead |
| AppProperties.InstallCustomPackagesOutcome | src/main.rs:397-413 | typed words are installed and the input cleared; a blank input only sets the status |
| AppProperties.TypeThenBackspace | src/main.rs:1096-1105 | `q` quits; another character is appended and Backspace removes it again |
| AppProperties.ReportOutcome | src/main.rs:318-345 | a blocking run is recorded and redrawn; exit code 0 shows the success info, another code an error with the code and stderr, a start failure the start error, no code no dialog |
| AppProperties.OutputLinesAppend | src/main.rs:434-467 | the output of two batches of events is the output of each, in order |
| AppProperties.AnyTerminalAppend | src/main.rs:434-467 | two batches end the session exactly when one of them does |
| AppProperties.LastErrorAppend | src/main.rs:434-467 | the last error of two batches is the second batch's, if any, else the first's |
| AppProperties.AnyTerminalIff | src/main.rs:434-467 | a session ends exactly when some event is `Completed`, `Exit` or an error |
| AppProperties.LastErrorIsLast | src/main.rs:434-467 | the error shown is that of the last event reporting one, and none when no event reports one |
| AppProperties.DrainDelivered | src/main.rs:434-467 | draining delivered events appends their output lines, shows the last error and ends the session on a terminal event |
| AppProperties.DrainDeliveredFrame | src/main.rs:434-467 | draining changes only the output, the error, its flag, the receiver and the process |
| AppProperties.DrainInBatches | src/main.rs:434-467 | draining twice, the first time without a terminal event, ends as draining everything at once |
| AppProperties.DeliverAfterEnd | src/main.rs:257-291 | events sent after the receiver is dropped are lost, and draining then does nothing |
| AppProperties.ErrorDialogFirst | src/main.rs:1029-1034 | while the error dialog is open no key starts a program, changes the view or quits; Enter and Esc close it |
| AppProperties.InfoDialog | src/main.rs:1045-1049 | the info dialog, below error and confirmation, does the same |
| AppProperties.ConfirmationEsc | src/main.rs:1035-1044 | Esc on a confirmation discards its action without running it |
| AppProperties.ConfirmationEnter | src/main.rs:1035-1044 | Enter on a confirmation runs its action once: at most one program starts, and the dialog and action are gone |
| AppProperties.MenuItemLaunchesAtMostOne | src/main.rs:193-203 | a main-menu entry starts nothing or only the update check |
| AppProperties.RunSelectedActionLaunchesAtMostOne | src/main.rs:193-232 | Enter's action starts at most one program |
| AppProperties.UpdateCheckEsc | src/main.rs:1171-1183 | Esc on the update check forgets the process, says "cancelled" only if there was one, shows the main menu and keeps the channel |
| AppProperties.ScriptProgressEsc | src/main.rs:1115-1123 | Esc on the progress view cancels the same way and returns to the remembered view |
| AppProperties.QuitIff | src/main.rs:1051-1214 | the program quits exactly on `q` with no dialog open, outside the update-check and progress views |
| AppProperties.InstallGate | src/main.rs:511-524 | installation opens the type list exactly on a detected system that is not Kite Linux; otherwise the right error is shown |
| AppProperties.UpdateGate | src/main.rs:541-567 | on Kite Linux the check script starts and the output is reset; otherwise the right error is shown and nothing starts |
| AppProperties.UninstallGate | src/main.rs:576-592 | the uninstall list opens only on Kite Linux; otherwise the right error is shown |
| AppProperties.CandidateVersionEmptyIff | src/main.rs:913-920 | the check printed no version exactly when every output line is blank |
| AppProperties.UpdateOfferCases | src/main.rs:913-939 | an update is offered exactly for a non-empty version different from the installed one, naming it; otherwise the up-to-date notice leads back to the menu |
| AppProperties.UpdateOfferIff | src/main.rs:913-939 | an update is offered exactly when some line is not blank and the version differs from the installed one |
| AppProperties.CandidateVersionSingle | src/main.rs:913-920 | one printed line yields that line, trimmed |
| AppProperties.CandidateVersionPlain | src/main.rs:913-920 | a line without surrounding blanks is the version as printed |
| AppProperties.UpdateOfferNewer | src/main.rs:913-939 | "1.2.0" against installed "1.1.0" offers the update to "1.2.0" |
| AppProperties.UpdateOfferSame | src/main.rs:913-939 | "1.1.0" against installed "1.1.0" says the system is up to date |
| AppProperties.OfferAfterCheck | src/main.rs:913-939 | once the check is over, the next pass opens the decision as a confirmation and returns to the view the check started from |
| AppProperties.AcceptUpdate | src/main.rs:925-929 | accepting an offered update runs the update script for exactly that version, clears it and closes the dialog |
| AppProperties.AcceptedUpdateRuns | src/main.rs:569-574 | the deferred update runs the script for that version, back on the remembered view |
| AppProperties.AcceptOfferedUpdate | src/main.rs:913-939 | a newer version found by the check is offered, and Enter then runs the update for exactly it |
| AppProperties.UpToDateReturnsToMenu | src/main.rs:930-935 | with nothing newer, the dialog says so and accepting returns to the main menu, starting nothing |
| AppProperties.PrintedLinesReceived | src/main.rs:251-259 | printed lines reach the output as printed, with no error and no end of session |
| AppProperties.CheckCompleted | src/main.rs:434-467 | draining a check that printed its lines and completed leaves exactly those lines and no session |
| AppProperties.CheckStartPass | src/main.rs:541-567 | Enter on "update" on Kite Linux starts the check with an empty output and channel |
| AppProperties.CheckOfferPass | src/main.rs:913-939 | the pass that receives the check's lines and completion opens the offer and returns to the main menu |
| AppProperties.UpdateAcceptPass | src/main.rs:1035-1040 | the pass whose Enter accepts the offer runs the update for that version |
| AppProperties.CheckThenUpdate | src/main.rs:678-1216 | three passes from the main menu (Enter on "update", the check's output arriving, Enter) start the check and then the update for exactly the printed version |
| AppProperties.CheckSpawnFailure | src/main.rs:234-296 | if the check script cannot start, the next pass shows the start error and leaves the check with nothing offered |
| AppProperties.InstallTypeConfirmed | src/main.rs:526-539 | Enter on a type asks to confirm, naming it; accepting runs the install script for that type exactly once |
| AppProperties.UninstallTypeConfirmed | src/main.rs:594-613 | Enter on a kind asks to confirm; accepting runs the uninstall script for that kind exactly once |
| AppProperties.UninstallWarnings | src/main.rs:597-602 | each uninstall kind of the list gets its own warning |
| AppProperties.UninstallWarningUnknown | src/main.rs:602 | a kind outside the list gets the generic warning |
| AppProperties.MainMenuKeyKeepsProgressUnused | src/main.rs:1051-1060 | no main-menu key enters the progress view |
| AppProperties.CustomPackageInputKeyKeepsProgressUnused | src/main.rs:1096-1105 | no text-input key enters the progress view |
| AppProperties.InstallationTypeKeyKeepsProgressUnused | src/main.rs:1143-1170 | no installation-type key enters the progress view |
| AppProperties.UninstallTypeKeyKeepsProgressUnused | src/main.rs:1187-1214 | no uninstall-list key enters the progress view |
| AppProperties.ViewKeyKeepsProgressUnused | src/main.rs:1050-1214 | no key handled by a view enters the progress view |
| AppProperties.ConfirmationKeepsProgressUnused | src/main.rs:1035-1044 | no confirmed action enters the progress view |
| AppProperties.HandleKeyKeepsProgressUnused | src/main.rs:1029-1214 | no key press enters the progress view |
| AppProperties.ProgressNeverEntered | src/main.rs:678-1216 | no pass of the loop enters the progress view |
| AppProperties.ProgressNeverEnteredInRun | src/main.rs:678-1216 | nor does any number of passes, whatever the threads send between them |
| AppProperties.ProgressNeverShown | src/main.rs:678-1216 | from the initial state the progress view is never shown |
| AppProperties.TextsMatchLocalization | src/localization.rs:111-161 | the hard-coded cancel and start-error texts are the table's Russian entries |
| AppMachine.App.constructor | src/main.rs:93-169 | the new application is the initial state and satisfies the invariant |
| AppMachine.App.Next | src/main.rs:171-177 | moves the menu cursor in place as `AppModel.Next` |
| AppMachine.App.Previous | src/main.rs:179-191 | moves the menu cursor in place as `AppModel.Previous` |
| AppMachine.App.SetConfirmation | src/main.rs:469-476 | opens the confirmation in place as `AppModel.SetConfirmation` |
| AppMachine.App.HideConfirmation | src/main.rs:478-482 | closes the confirmation in place as `AppModel.HideConfirmation` |
| AppMachine.App.SetError | src/main.rs:484-487 | opens the error dialog in place as `AppModel.SetError` |
| AppMachine.App.HideError | src/main.rs:489-492 | closes the error dialog in place as `AppModel.HideError` |
| AppMachine.App.SetInfo | src/main.rs:494-497 | opens the info dialog in place as `AppModel.SetInfo` |
| AppMachine.App.HideInfo | src/main.rs:499-502 | closes the info dialog in place as `AppModel.HideInfo` |
| AppMachine.App.SetViewState | src/main.rs:504-509 | switches view in place as `AppModel.SetViewState` |
| AppMachine.App.RunCommand | src/main.rs:234-296 | starts the command in place and returns the events the channel already holds, as `AppModel.RunCommand` |
| AppMachine.App.RunCommandProgress | src/main.rs:298-346 | runs the command to its end in place as `AppModel.RunCommandProgress` |
| AppMachine.App.LoadPackages | src/main.rs:348-367 | loads the catalog in place as `AppModel.LoadPackages` |
| AppMachine.App.TogglePackage | src/main.rs:369-377 | toggles in place as `AppModel.TogglePackage` |
| AppMachine.App.InstallSelectedPackages | src/main.rs:379-395 | as `AppModel.InstallSelectedPackages` |
| AppMachine.App.InstallCustomPackages | src/main.rs:397-413 | as `AppModel.InstallCustomPackages` |
| AppMachine.App.StartPackageInstallation | src/main.rs:415-432 | as `AppModel.StartPackageInstallation` |
| AppMachine.App.SetPackages | src/main.rs:352-366 | sets the list, clears every flag and puts the cursor on the first entry, in place |
| AppMachine.App.Deliver | src/main.rs:251-292 | the sending threads append to the channel while the receiver exists |
| AppMachine.App.ReceiveAll | src/main.rs:438-463 | the receiving loop yields the old output plus every output line, the last error (or the old one), and whether some event ended the session |
| AppMachine.App.KeepReceived | src/main.rs:438-458 | stores the received output, error and error flag in place, changing nothing else |
| AppMachine.App.EndSession | src/main.rs:462-465 | drops the receiver and the process in place as `AppModel.EndSession` |
| AppMachine.App.UpdateScriptProgress | src/main.rs:434-467 | drains the channel in place as `AppModel.UpdateScriptProgress` |
| AppMachine.App.HandleInstall | src/main.rs:511-524 | as `AppModel.HandleInstall` |
| AppMachine.App.HandleInstallationType | src/main.rs:526-539 | as `AppModel.HandleInstallationType` |
| AppMachine.App.ResetOutput | src/main.rs:559-560 | clears the output and remembers the view in place as `AppModel.ResetOutput` |
| AppMachine.App.CheckUpdates | src/main.rs:558-567 | as `AppModel.CheckUpdates` |
| AppMachine.App.HandleUpdate | src/main.rs:541-556 | as `AppModel.HandleUpdate` |
| AppMachine.App.StartUpdate | src/main.rs:569-574 | as `AppModel.StartUpdate` |
| AppMachine.App.HandleUninstall | src/main.rs:576-592 | as `AppModel.HandleUninstall` |
| AppMachine.App.HandleUninstallType | src/main.rs:594-613 | as `AppModel.HandleUninstallType` |
| AppMachine.App.RunInstallationScript | src/main.rs:615-622 | as `AppModel.RunInstallationScript` |
| AppMachine.App.RunMenuItem | src/main.rs:196-203 | as `AppModel.RunMenuItem` |
| AppMachine.App.RunSelectedAction | src/main.rs:193-232 | as `AppModel.RunSelectedAction` |
| AppMachine.App.RunDeferred | src/main.rs:1035-1040 | as `AppModel.RunDeferred` |
| AppMachine.App.UpdateCheckDecision | src/main.rs:913-939 | as `AppModel.UpdateCheckDecision` |
| AppMachine.App.CancelProcess | src/main.rs:1110-1121 | as `AppModel.CancelProcess` |
| AppMachine.App.ConfirmationKey | src/main.rs:1035-1044 | as `AppModel.ConfirmationKey` |
| AppMachine.App.MainMenuKey | src/main.rs:1051-1060 | as `AppModel.MainMenuKey` |
| AppMachine.App.PackageListKey | src/main.rs:1061-1095 | as `AppModel.PackageListKey` |
| AppMachine.App.CustomPackageInputKey | src/main.rs:1096-1105 | as `AppModel.CustomPackageInputKey` |
| AppMachine.App.ScriptProgressKey | src/main.rs:1106-1142 | as `AppModel.ScriptProgressKey` |
| AppMachine.App.InstallationTypeKey | src/main.rs:1143-1170 | as `AppModel.InstallationTypeKey` |
| AppMachine.App.UpdateCheckKey | src/main.rs:1171-1186 | as `AppModel.UpdateCheckKey` |
| AppMachine.App.UninstallTypeKey | src/main.rs:1187-1214 | as `AppModel.UninstallTypeKey` |
| AppMachine.App.ViewKey | src/main.rs:1050-1214 | as `AppModel.ViewKey` |
| AppMachine.App.HandleKey | src/main.rs:1029-1214 | as `AppModel.HandleKey`, keeping the invariant |
| AppMachine.App.ClearTerminal | src/main.rs:685-688 | the clear request is consumed |
| AppMachine.App.Tick | src/main.rs:678-1216 | one pass in place as `AppModel.Tick` (delivery first), keeping the invariant |
| AppMachine.App.RunTui | src/main.rs:678-1216 | the event loop ends in the state and quit flag `AppModel.Run` gives, keeping the invariant |

## Left out

- Terminal I/O is left out: raw mode, the alternate screen, polling with a timeout, and drawing with `ratatui`, including the scrollbar and layout. A key read during a pass is an `Option<Key>` parameter.
- Only `scrollPosition` is kept of the drawn state. It saturates at `usize::MAX`, with `usize` taken as 64 bits.
- Process execution is left out. `Command::new(..).spawn()` and `.output()` become the `SpawnResult` and `RunResult` parts of `Host`. The stdout and stderr reader threads and the waiter thread become `Deliver`, which appends events to the channel while it exists. A pass receives what they sent since the previous pass as `Host.sent`, in whatever order it lists; events sent while a pass runs are read by the next drain, as in the source. Thread timing beyond that order is not modelled.
- `get_os_name` and `get_os_version` (`System::name`, `System::os_version` of `sysinfo`) are inputs: `Host.osName` and `Host.osVersion`.
- Killing a process (`sysinfo`'s `process(pid).kill()`) only forgets the process identifier. Whether the kill succeeds is not modelled. Process identifiers are `nat`, not 32-bit.
- Reading `/usr/src/kite-tools/custom_apps.lst` is an input: its lines, or `None` when it cannot be opened.
- The command-line interface (`clap`) and the `lazy_static` localization instance are left out. Neither is used by `run_tui`.
- The menu and list labels and descriptions are kept as constants but only drawn. The model uses the action keys: `MENU_ACTIONS`, the type arguments of `INSTALLATION_TYPES`, and `UNINSTALL_KINDS`.
- Boxed `FnOnce` confirmation actions are the datatype `Deferred`, one constructor per closure the source builds.
- AppModel.RunSelectedAction: the ensures states only that the invariant is kept. What each view's action does is stated by `RunSelectedActionLaunchesAtMostOne`, `InstallTypeConfirmed`, `UninstallTypeConfirmed`, `AcceptUpdate` and the gate lemmas.
- AppProperties.DrainInBatches: compares the five fields draining changes. `DrainDeliveredFrame` states that the other fields are untouched.
- Text.SplitJoinRoundTrip: the round trip is stated at the string level. No lemma joins it to a whole key-by-key typing session in the text input.
