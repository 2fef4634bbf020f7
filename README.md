# Status-Monitor edit/refresh coordinator in Dafny

Status-Monitor is a Tk dashboard. It shows the state of an EV charger from a
JSON snapshot file and lets an operator change some of the values. A periodic
`update_callback` keeps the form and the file in step. Two shared flags,
`update_state["Editing"]` and `update_state["Commit"]`, drive each tick:

- If a commit is pending, the tick first writes every variable to the file
  (`on_save`) and clears both flags.
- Then, unless something is being edited, the tick reloads every variable from
  the file (`update_from_file`).
- Finally it schedules the next tick with `after()`.

The operator changes the form in two ways:

- Editable labels (editable_label.py). Double-click to start an edit, Return to
  save it, losing focus to stop it, Escape to cancel it.
- Buttons. These are the gun-connection toggle, the authorize button and the
  emergency stop.

Starting an edit sets the editing flag, which locks the form against the next
reload for as long as the flag stays set; a focus loss on an entry hidden
earlier can clear it at once (see "## Left out"). Return writes the bound variable and sets the commit flag. The
emergency stop writes its variable and sets both flags. The toggle and
authorize buttons flip their own state and, only when the variable held the
old state, write the variable and set both flags. The next tick writes any
such change to the file. Losing focus or Escape clears both
flags. A label shows its bound variable (it is built with it as its
`textvariable`), so starting an edit fills the entry with the variable's value
as Tk displays it.

The project models three files:

- `dash.py`, the dashboard: sixteen variables, four editable labels, a network
  label and a power-loss panel.
- `monitor.py`, its earlier draft: thirteen variables under differently cased
  keys, no editable labels, and a power-loss lookup that only shows or hides
  the panel.
- `editable_label.py`, the label widget.

Modules:

- `Coordination` (coordination.dfy) holds the shared pieces:
  - cell values;
  - the fields;
  - the flags;
  - the three objects the widgets share by reference: the flags dictionary, the
    Tk variables and the snapshot file.
- `EditableLabels` (editable_label.dfy) is the label widget.
- `Dashboard` (dash.dfy) is dash.py.
- `MonitorDraft` (monitor.dfy) is monitor.py.

Every state-changing method of the classes `Dash`, `Monitor` and
`EditableLabel` is proved to produce the state an `After…` function gives
for the old state. The lemmas state the coordinator's properties about
those functions:

- a tick with a commit pending writes the file and then reloads it without
  changing any variable;
- an edit in progress locks the form against any number of ticks;
- a missing key leaves the earlier lookups applied and stops the timer chain;
- the buttons follow the conditional-flip rule;
- in monitor.py the `powerloss` variable never changes.

`update_from_file`, sixteen straight-line lookups in the source, is modelled
as a `while` loop over a lookup table in source order.
A lemma ties it to a closed form: the lookups that succeed are the *reached*
fields, those before the first missing key.

Two points of the timing come straight from the code:

- `update_callback` re-arms its timer only when no exception escaped
  `update_from_file` (dash.py:601-605, monitor.py:523-527): a missing key or
  an unreadable file stops that timer chain.
- At startup the constructor calls `update_callback()`, which schedules
  itself, and then schedules it once more (dash.py:448-449,
  monitor.py:385-387), so two timer chains run from then on; `Start` models
  this.

## Model

| member | source | states |
|---|---|---|
| Coordination.UpdateState.constructor | dash.py:29 | both flags start empty |
| Coordination.DecimalRoundTrip | editable_label.py:51 | the numeral a label shows for an integer variable reads back as that integer |
| EditableLabels.EditableLabel.constructor | editable_label.py:20-35 | the label writes into the dashboard's own flags and variables under its name; the entry starts empty |
| EditableLabels.EditableLabel.EditStart | editable_label.py:42-54 | the entry is filled with what the label shows, its bound variable's displayed value, and the label takes the editing flag; nothing else changes |
| EditableLabels.EditableLabel.EditSave | editable_label.py:56-64 | the entry's text goes, as text, to the bound variable, which the label shows; the commit flag names the label, and the editing flag is untouched |
| EditableLabels.EditableLabel.EditStop | editable_label.py:66-72 | both flags are cleared; the variable, and so what the label shows, is unchanged |
| EditableLabels.EditableLabel.EditCancel | editable_label.py:74-82 | the entry is emptied and both flags are cleared; the label and the variable keep their values |
| EditableLabels.LastEditStartWins | editable_label.py:42-54 | a second edit start, on another label or the same one, takes the editing flag and leaves the commit flag alone |
| EditableLabels.FocusHandoverReleasesLock | editable_label.py:34-72 | an earlier label's focus-loss callback run after a new edit start clears the flag the new edit took and any pending commit, leaving the variables alone |
| EditableLabels.FocusLossWithdrawsCommit | editable_label.py:56-72 | Return followed by a focus loss clears both flags, yet the typed text stays in the variable and so on the label |
| EditableLabels.FocusLossDiscardsTyping | editable_label.py:66-72 | a focus loss without Return discards the typed text: the variable and what the label shows keep their values, and both flags are cleared |
| EditableLabels.UntouchedSaveReadsBack | editable_label.py:42-64 | Return on an untouched entry stores the shown text in the variable, the label shows the same, and an integer reads back unchanged |
| EditableLabels.CancelAndSaveFrames | editable_label.py:56-82 | Escape never touches the bound variable; Return never touches the editing flag and always sets the variable to the typed text |
| Dashboard.KeyInjective | dash.py:518-543 | every field's key reads back as that field, so no two variables share a key |
| Dashboard.SaveDataSpec | dash.py:518-543 | the saved file has exactly the sixteen keys, whatever it held before, each holding its variable's value |
| Dashboard.LookupsLoaded | dash.py:550-585 | the lookups made one by one reach the closed form: the found prefix is applied, and the run returns normally exactly when no lookup missed |
| Dashboard.AllFoundIffComplete | dash.py:550-585 | every lookup succeeds if and only if the file has all sixteen keys |
| Dashboard.LoadByLookups | dash.py:550-585 | the closed-form load equals the lookups of the table made in source order |
| Dashboard.LoadComplete | dash.py:550-585 | with every key present, a load sets every variable from the file, sets the network text and the power-loss panel from the file, and returns normally |
| Dashboard.LoadUnchanged | dash.py:550-585 | loading a file that holds every variable's value changes no variable and no flag |
| Dashboard.LoadAfterSave | dash.py:518-585 | reloading what `on_save` just wrote changes no variable |
| Dashboard.TickClearsCommit | dash.py:587-605 | no commit is pending after a tick |
| Dashboard.CommitTick | dash.py:587-605 | a tick with a commit pending writes the variables to the file, clears both flags and reloads them unchanged, then schedules the next tick |
| Dashboard.LockedTick | dash.py:587-605 | while something is edited and nothing is pending, a tick changes nothing but rescheduling |
| Dashboard.LockedTicks | dash.py:587-605 | any number of ticks leave a locked form unchanged |
| Dashboard.RefreshTick | dash.py:587-605 | an idle tick over a complete file sets every variable to the file's value and reschedules |
| Dashboard.FailedRefreshTick | dash.py:550-605 | an idle tick over a file lacking a key sets exactly the reached variables and keeps the others; the network label follows the file whenever it has "Network", the panel when the "Powerloss" lookup was reached; the file, flags and button states are unchanged and the tick is not rescheduled |
| Dashboard.UnreadableTick | dash.py:550-605 | a tick over an unreadable file changes nothing and is not rescheduled |
| Dashboard.GunToggleEffect | dash.py:364-378 | the toggle state always flips; the variable takes the new state, and both flags are set, only when it held the opposite one |
| Dashboard.AuthorizeEffect | dash.py:395-415 | the authorization state always flips; send_or_stop takes the new state, and both flags are set, only when it held the opposite one |
| Dashboard.EstopPersisted | dash.py:490-495 | after the emergency stop, the next tick writes "Estop": 1 to the file and clears both flags |
| Dashboard.EditLocksForm | dash.py:587-605 | once a label starts an edit with no commit pending, no number of ticks changes any variable or the file |
| Dashboard.SavedEditPersists | editable_label.py:56-64 | start, type, any ticks, Return, one tick: the typed text is in the file under the field's key and nothing is pending (stored as text: for the four IntVar-backed labels the program stores the integer `get()` parses, e.g. 45 rather than "45") |
| Dashboard.FocusLossLosesEdit | editable_label.py:66-72 | Return followed by a focus loss: the label shows the typed text until the next tick, which writes nothing and reloads the field from the file, so the label then shows the file's value |
| Dashboard.FocusHandoverUnlocksTick | editable_label.py:34-72 | after a focus handover from an earlier hidden entry, the next tick writes nothing and reloads the new edit's variable from the file while its entry is still open |
| Dashboard.CancelThenRefresh | editable_label.py:74-82 | Escape releases the lock, and the next tick puts every variable back to the file's value |
| Dashboard.Dash.constructor | dash.py:19-429 | flags empty, every variable at its initial value, network label "Online", power-loss panel shown, four distinct labels wired to the dashboard's flags and variables, each bound to its own name and field ("voltage"/Voltage, "current"/Current, "frequency"/Frequency, "temperature"/Temperature) |
| Dashboard.Dash.OnSave | dash.py:518-543 | the file is replaced by the sixteen variables under their keys |
| Dashboard.Dash.UpdateFromFile | dash.py:550-585 | the loop of lookups ends in the closed-form load, and returns false exactly where the source raises |
| Dashboard.Dash.Flush | dash.py:592-599 | a pending commit is saved and both flags are cleared; otherwise nothing changes |
| Dashboard.Dash.UpdateCallback | dash.py:587-605 | flush, then reload unless editing, then reschedule unless the reload raised |
| Dashboard.Dash.Tick | dash.py:587-605 | one scheduled callback fires |
| Dashboard.Dash.Start | dash.py:448-449 | the synchronous callback plus a second timer: two chains unless the first load raised |
| Dashboard.Dash.GunConnectionToggled | dash.py:364-378 | the new state is the toggle function of the old |
| Dashboard.Dash.Authorize | dash.py:395-415 | the new state is the authorize function of the old |
| Dashboard.Dash.OnEstop | dash.py:490-495 | estop becomes 1 and both flags become "on_estop" |
| MonitorDraft.KeyInjective | monitor.py:454-476 | every monitored field's key reads back as that field |
| MonitorDraft.SaveDataSpec | monitor.py:454-476 | the saved file has exactly the thirteen keys, so every other key is gone, each holding its variable's value |
| MonitorDraft.LookupsLoaded | monitor.py:483-507 | the lookups made one by one reach the closed form, and the run returns normally exactly when no lookup missed |
| MonitorDraft.AllFoundIffComplete | monitor.py:483-507 | every lookup succeeds if and only if the file has all thirteen keys |
| MonitorDraft.LoadByLookups | monitor.py:483-507 | the closed-form load equals the lookups of the table made in source order |
| MonitorDraft.LoadKeepsPowerloss | monitor.py:483-507 | whatever the file holds, a load never changes the `powerloss` variable |
| MonitorDraft.LoadComplete | monitor.py:483-507 | with every key present, a load sets every variable but `powerloss` from the file and decides the panel from the file's "powerloss" |
| MonitorDraft.LoadUnchanged | monitor.py:483-507 | loading a file that holds every variable's value changes no variable and no flag |
| MonitorDraft.LoadAfterSave | monitor.py:454-507 | reloading what `on_save` just wrote changes no variable |
| MonitorDraft.TickClearsCommit | monitor.py:509-527 | no commit is pending after a tick |
| MonitorDraft.CommitTick | monitor.py:509-527 | a committing tick writes the thirteen keys and only those, clears both flags and reloads them with no variable changed; the panel then follows the variable, not the replaced file |
| MonitorDraft.LockedTick | monitor.py:509-527 | while something is edited and nothing is pending, a tick changes nothing |
| MonitorDraft.RefreshTick | monitor.py:509-527 | an idle tick over a complete file sets every variable but `powerloss` from the file and the panel from the file's "powerloss"; the file, flags, button states and timers are unchanged |
| MonitorDraft.FailedRefreshTick | monitor.py:483-527 | an idle tick over a file lacking a key sets exactly the reached variables but `powerloss` and keeps the others; the panel follows the file when the "powerloss" lookup was reached; the file, flags and button states are unchanged and the tick is not rescheduled |
| MonitorDraft.TickKeepsPowerloss | monitor.py:509-527 | no tick changes the `powerloss` variable |
| MonitorDraft.ButtonsKeepPowerloss | monitor.py:304-351 | neither the toggle, nor authorize, nor the emergency stop changes the `powerloss` variable |
| MonitorDraft.PowerlossStaysZero | monitor.py:174-177 | starting at 0, the `powerloss` variable is still 0 after any number of ticks |
| MonitorDraft.SavedPowerloss | monitor.py:454-476 | a committing tick writes the variable's `powerloss`, not the file's |
| MonitorDraft.GunToggleEffect | monitor.py:304-316 | the toggle state always flips; the variable takes the new state, and both flags are set, only when it held the opposite one |
| MonitorDraft.AuthorizeEffect | monitor.py:336-351 | the authorization state always flips; send_or_stop takes the new state, and both flags are set, only when it held the opposite one |
| MonitorDraft.EstopPersisted | monitor.py:430-434 | after the emergency stop, the next tick writes "estop": 1 to the file and clears both flags |
| MonitorDraft.Monitor.constructor | monitor.py:26-365 | flags empty, every variable at its initial value, power-loss panel shown |
| MonitorDraft.Monitor.OnSave | monitor.py:454-476 | the file is replaced by the thirteen variables under their keys |
| MonitorDraft.Monitor.UpdateFromFile | monitor.py:483-507 | the loop of lookups ends in the closed-form load, and returns false exactly where the source raises |
| MonitorDraft.Monitor.Flush | monitor.py:514-521 | a pending commit is saved and both flags are cleared; otherwise nothing changes |
| MonitorDraft.Monitor.UpdateCallback | monitor.py:509-527 | flush, then reload unless editing, then reschedule unless the reload raised |
| MonitorDraft.Monitor.Tick | monitor.py:509-527 | one scheduled callback fires |
| MonitorDraft.Monitor.Start | monitor.py:385-387 | the synchronous callback plus a second timer |
| MonitorDraft.Monitor.GunConnectionToggled | monitor.py:304-316 | the new state is the toggle function of the old |
| MonitorDraft.Monitor.Authorize | monitor.py:336-351 | the new state is the authorize function of the old |
| MonitorDraft.Monitor.OnEstop | monitor.py:430-434 | estop becomes 1 and both flags become "on_estop" |

## Left out

- Layout, styles, fonts, images, progress bars and button texts: these are presentation only. The network label is modelled by its text, the power-loss panel by whether it is packed.
- `on_copy` and `edit_copy`: they put JSON or the entry's text on the clipboard, outside the coordinator.
- `on_exit`, the command-line parsing and the Tk main loop (monitor.py:530-596): process plumbing.
- JSON formatting, file handles and encodings: the file is a map from keys to values, or None when it cannot be read or parsed.
- Dashboard.Dash.OnSave: modelled as always succeeding. A failed write, or a Tk `get()` that raises on a non-numeric entry typed into an IntVar's label, would leave `update_callback` before it clears the flags and before it re-arms its timer (dash.py:601-605); as `Commit` stays set, every later tick of both chains raises at the same point, so refreshing stops for good.
- Dashboard.SavedEditPersists: the typed text is stored and saved as text; for the four IntVar-backed labels the program stores the integer `IntVar.get()` parses from it (45, not "45").
- EditableLabels.EditableLabel.EditStart, EditableLabels.EditableLabel.EditStop: keyboard focus is not modelled. Return and Escape hide their entry without moving the focus (editable_label.py:64, 82), so the hidden entry keeps it; the next edit start moves the focus to its own entry (editable_label.py:52) and Tk then runs the earlier entry's `<FocusOut>` binding (editable_label.py:34), whose `edit_stop` clears the `Editing` flag just set and any pending `Commit`. Only the first edit session, while the focus is still on the Copy button (dash.py:478), is sure to hold the lock. The model lets the caller choose the order of callbacks but does not force this one; FocusHandoverReleasesLock and FocusHandoverUnlocksTick state what it does.
- Coordination.Display: a float's shown text is carried with the value (Python's and Tcl's shortest decimal form) rather than computed from the number.
- Tk variable conversions: `set` stores the value as given and `get` returns it unchanged. Values are opaque cells (integer, float, text, boolean, null).
- Logging calls: no effect on the state.
- The timer delay and the real clock: a tick is one scheduled callback firing, and `timers` counts the pending ones; the firing order of ticks and user events is chosen by the caller of the lemmas.
- Typing into the overlaid entry: modelled as a change of the label's entry buffer between callbacks.
- `authorization_check`: it always returns True, so the check is folded into the authorize functions.
