# Kazoo Popup: the call-popup coordinator of MainWindow

Kazoo Popup shows a small popup (an `InformerDialog`) for every incoming call
announced by the Kazoo event feed. `MainWindow` keeps three hash tables keyed
by the call id:

- `m_informerDialogsHash`, the free popups;
- `m_attachedDialogsHash`, the popups the user has pinned;
- `m_timersHash`, one single-shot auto-dismiss `QTimer` per call.

Its handlers react to four channel events (created, answered, answered by
another party, destroyed), to a timer firing, and to two signals of the popup
itself (finished, attached/detached). A tray-menu action closes every popup.
This project models those handlers and the settings-form check
`isCorrectSettings`.

Layout:

- `registry.dfy` (module `Registry`): call ids, and `QHash::key(value)` as a
  loop (`FindKey`) with its specification (`KeyOf`).
- `coordination.dfy` (module `Coordination`): the state as a value (`Tables`)
  and one function per handler. Popups and timers are `nat` handles with a
  record each. The record holds what the handlers read or change: visible,
  attached, state and callee of a dialog; single-shot, interval, running and
  start count of a timer. `released` stands for `deleteLater()`.
- `properties.dfy` (module `Properties`): lemmas relating the handlers. They
  cover the invariant, release at most once, the pin/unpin round trip and the
  call scenarios.
- `mainwindow.dfy` (module `Kazoo`): class `MainWindow`. It has the three
  tables and the object records as map fields. Each handler method updates
  them in place and is proved equal to its function.
- `settings.dfy` (module `SettingsForm`): `isCorrectSettings`.

The invariant has two layers.

- `Sound`: every handle in a table names a live object. Each registered popup
  sits under exactly one key of exactly one popup table. Timers are not
  shared. Nothing still in a table has been released. Every handler keeps
  `Sound`, whatever ids arrive.
- `Inv`: `Sound`, and no call id is in both popup tables. It is kept as long
  as `onChannelCreated` never gets an id that is currently pinned.

The code does not guard against these cases, and the model follows the code:

- A duplicate "created" overwrites the entry (QHash insert) instead of being
  rejected. The first dialog and timer are then orphaned (`DuplicateCreateOrphans`).
  If the user pins the orphaned dialog, it is filed under the empty call id
  (`PinnedOrphanFiledUnderNoKey`).
- A fired timer stays in `m_timersHash`. Only `onChannelDestroyed` removes timers.
- `closeAllPopups` does not stop timers. Timers that fire later find no popup (`ExpiryAfterCloseAllIsInert`).
- A pinned call keeps its timer entry, so the timer table's keys are not a subset of the free table's.
- `processDialogFinished` removes the entry but does not call `deleteLater()` on the dialog.

## Model

| member | source | states |
|---|---|---|
| `Registry.FindKey` | mainwindow.cpp:143 | QHash::key: a key holding the value if there is one, else the empty default id. In a table without shared handles this is the one key `KeyOf` names |
| `Coordination.Created` | mainwindow.cpp:68-97 | the id now maps to a fresh dialog (visible, not pinned) and a fresh single-shot timer running with interval timeout × 1000. The pinned table is untouched, the other keys are unchanged, and an existing entry under the id is replaced |
| `Coordination.AnsweredEvent` | mainwindow.cpp:99-113 | an id not in the free table changes nothing. Otherwise the popup becomes Answered only if visible. The call's timer, if any, is restarted with the same interval. Nothing else changes |
| `Coordination.AnsweredAnotherEvent` | mainwindow.cpp:115-134 | the same as answered, but a visible popup also gets the callee number and name and the state AnsweredAnother |
| `Coordination.Expired` | mainwindow.cpp:136-154 | the fired timer stops. The call id is recovered by value from the timer table. If that id is not free, no table or dialog changes. Otherwise its popup is closed, released and dropped from the free table, and no other field of it changes. The timer and pinned tables never change |
| `Coordination.Destroyed` | mainwindow.cpp:156-175 | an id not in the free table changes nothing, so a pinned popup survives. Otherwise the popup is dropped and released, and stays visible only if it was visible and attached. The call's timer is stopped, released and dropped. No other field of either record changes. The pinned table never changes |
| `Coordination.Finished` | mainwindow.cpp:278-292 | the entry holding the dialog is dropped from the free table if it is there, else from the pinned table. An unknown dialog changes nothing. Timers and dialog records are never touched |
| `Coordination.AttachedEvent` | mainwindow.cpp:294-309 | pinning files the dialog in the pinned table under the call id that held it in the free table, and drops that id from the free table. Unpinning does the reverse. A dialog the table it leaves does not hold is filed under the empty id, and the empty id is dropped from the other table. Timers and dialog records are never touched |
| `Coordination.ClosedAll` | mainwindow.cpp:311-326 | both popup tables end empty. Every popup they held is closed and released, with no other field changed, and every other dialog is unchanged. The timer table and the timers are unchanged |
| `Properties.CreatedLeavesRest` | mainwindow.cpp:68-97 | onChannelCreated leaves every other key of the free and timer tables, and every existing dialog and timer, unchanged |
| `Properties.CreatedKeepsSound` | mainwindow.cpp:86-93 | onChannelCreated keeps `Sound`, even for a duplicate id |
| `Properties.AddPopupKeepsSound` | mainwindow.cpp:70-93 | filing a fresh dialog under the id, even over an old entry, keeps `Sound` |
| `Properties.AddTimerKeepsSound` | mainwindow.cpp:86-91 | filing a fresh started timer under the id, even over an old entry, keeps `Sound` |
| `Properties.AnsweredKeepsSound` | mainwindow.cpp:99-113 | onChannelAnswered keeps `Sound` |
| `Properties.AnsweredAnotherKeepsSound` | mainwindow.cpp:115-134 | onChannelAnsweredAnother keeps `Sound` |
| `Properties.CreatedKeepsInv` | mainwindow.cpp:86-93 | onChannelCreated keeps `Sound`. It keeps `Inv` when the id is not pinned |
| `Properties.DestroyedKeepsSound` | mainwindow.cpp:156-175 | onChannelDestroyed keeps `Sound` |
| `Properties.DropPopupKeepsSound` | mainwindow.cpp:158-166 | closing, releasing and dropping a free popup keeps `Sound` |
| `Properties.DropTimerKeepsSound` | mainwindow.cpp:168-174 | stopping, releasing and dropping the call's timer keeps `Sound` |
| `Properties.ExpiredKeepsSound` | mainwindow.cpp:136-154 | timeout keeps `Sound`, for any allocated timer |
| `Properties.FinishedKeepsSound` | mainwindow.cpp:278-292 | processDialogFinished keeps `Sound` |
| `Properties.AttachedKeepsSound` | mainwindow.cpp:294-309 | processDialogAttached keeps `Sound` for any live dialog that is not already in the table it asks for, registered or not |
| `Properties.PinKeepsSound` | mainwindow.cpp:297-302 | filing a live dialog under a call id in the pinned table and dropping the id from the free table keeps `Sound`, whether or not the id held that dialog |
| `Properties.UnpinKeepsSound` | mainwindow.cpp:303-308 | filing a live dialog under a call id in the free table and dropping the id from the pinned table keeps `Sound`, whether or not the id held that dialog |
| `Properties.ClosedAllKeepsSound` | mainwindow.cpp:311-326 | closeAllPopups keeps `Sound` |
| `Properties.StepKeepsSound` | mainwindow.cpp:68-326 | every handler keeps `Sound` for any event its sender can emit |
| `Properties.StepKeepsApart` | mainwindow.cpp:68-326 | no handler puts a call id in both popup tables, with a created id that is not pinned |
| `Properties.StepKeepsInv` | mainwindow.cpp:68-326 | every handler keeps `Inv`, with a created id that is not pinned |
| `Properties.RunKeepsInv` | mainwindow.cpp:68-326 | `Inv` holds after any run of events whose created ids are not pinned when created |
| `Properties.DestroyedReleasesDialogsOnce` | mainwindow.cpp:156-166 | onChannelDestroyed never touches a released dialog. It releases a dialog only as it leaves the tables |
| `Properties.DestroyedReleasesTimersOnce` | mainwindow.cpp:168-174 | onChannelDestroyed never touches a released timer. It releases a timer only as it leaves the timer table |
| `Properties.ExpiredReleasesOnce` | mainwindow.cpp:136-154 | timeout releases the popup only as it leaves the free table. It never touches released objects |
| `Properties.CreatedReleasesOnce` | mainwindow.cpp:68-97 | onChannelCreated releases nothing and touches no released object |
| `Properties.AnsweredReleasesOnce` | mainwindow.cpp:99-113 | onChannelAnswered releases nothing and touches no released object |
| `Properties.AnsweredAnotherReleasesOnce` | mainwindow.cpp:115-134 | onChannelAnsweredAnother releases nothing and touches no released object |
| `Properties.SignalsReleaseNothing` | mainwindow.cpp:278-309 | the two dialog signals release nothing |
| `Properties.ClosedAllReleasesOnce` | mainwindow.cpp:311-326 | closeAllPopups releases only registered popups, each as it leaves the tables |
| `Properties.NoDoubleRelease` | mainwindow.cpp:148-175 | for every handler, released objects are never touched again. A release happens only as the entry leaves the tables |
| `Properties.ExpiryClosesFreeCall` | mainwindow.cpp:143-153 | the timer of a free call closes, releases and drops that call's popup |
| `Properties.ExpirySparesPinnedCall` | mainwindow.cpp:143-146 | the timer of a pinned call changes no table and no dialog |
| `Properties.ExpiryAfterCloseAllIsInert` | mainwindow.cpp:311-326 | a timer left running by closeAllPopups changes only its own running flag when it fires |
| `Properties.FinishedDropsOneEntry` | mainwindow.cpp:278-292 | exactly the entry holding the dialog goes. Every other dialog stays registered as before. The two tables shrink by one |
| `Properties.PinMovesEntry` | mainwindow.cpp:297-302 | pinning moves the same handle under the same id to the pinned table, leaves the timers alone and keeps `Inv` |
| `Properties.UnpinMovesEntry` | mainwindow.cpp:303-308 | unpinning moves the same handle under the same id back to the free table and keeps `Inv` |
| `Properties.PinThenUnpinRestores` | mainwindow.cpp:294-309 | pinning and then unpinning a free dialog gives back exactly the original tables |
| `Properties.CreateThenDestroy` | mainwindow.cpp:68-175 | a call created and then destroyed is in no table. Its popup is closed and released, and its timer stopped and released |
| `Properties.PinnedCallSurvives` | mainwindow.cpp:136-309 | a call pinned while its timer runs survives both the timer and the channel ending, still open in the pinned table. A later finished signal removes it |
| `Properties.DuplicateCreateOrphans` | mainwindow.cpp:86-93 | a second create for a free id leaves the first dialog and timer live and unchanged but unregistered, so no channel or timer handler reaches them |
| `Properties.PinnedOrphanFiledUnderNoKey` | mainwindow.cpp:294-324 | pinning that orphaned dialog is allowed and keeps `Sound`. The dialog is filed under the empty call id, replacing what that id held, and closeAllPopups then closes and releases it |
| `Kazoo.MainWindow.constructor` | mainwindow.cpp:19-46 | starts with empty tables, which satisfy `Inv` |
| `Kazoo.MainWindow.OnChannelCreated` | mainwindow.cpp:68-97 | the new state is `Created` of the old one. It keeps `Sound`, and keeps the popup tables apart when the id was not pinned. It returns the caller URL to open exactly when auto-open is set |
| `Kazoo.MainWindow.OnChannelAnswered` | mainwindow.cpp:99-113 | the new state is `AnsweredEvent` of the old one. It keeps `Sound`, and keeps the popup tables apart |
| `Kazoo.MainWindow.OnChannelAnsweredAnother` | mainwindow.cpp:115-134 | the new state is `AnsweredAnotherEvent` of the old one. It keeps `Sound`, and keeps the popup tables apart |
| `Kazoo.MainWindow.Timeout` | mainwindow.cpp:136-154 | the new state is `Expired` of the old one. It keeps `Sound`, and keeps the popup tables apart |
| `Kazoo.MainWindow.OnChannelDestroyed` | mainwindow.cpp:156-175 | the new state is `Destroyed` of the old one. It keeps `Sound`, and keeps the popup tables apart |
| `Kazoo.MainWindow.ProcessDialogFinished` | mainwindow.cpp:278-292 | the new state is `Finished` of the old one. It keeps `Sound`, and keeps the popup tables apart |
| `Kazoo.MainWindow.ProcessDialogAttached` | mainwindow.cpp:294-309 | the new state is `AttachedEvent` of the old one. It keeps `Sound`, and keeps the popup tables apart |
| `Kazoo.MainWindow.CloseAllPopups` | mainwindow.cpp:311-326 | the new state is `ClosedAll` of the old one. It keeps `Sound`, and keeps the popup tables apart |
| `Kazoo.MainWindow.CloseEach` | mainwindow.cpp:313-324 | one foreach pass closes and releases exactly the given dialogs |
| `SettingsForm.IsCorrectSettings` | mainwindow.cpp:177-205 | true exactly when login, password, realm, auth URL, event URL and info URL are all non-empty |

## Left out

- Tray icon, its menu and the quit confirmation (mainwindow.cpp:53-66, 328-339) are presentation only.
- Creating, wiring and starting the WebSocket manager (mainwindow.cpp:30-45, 260) is network I/O and signal plumbing. The handlers are methods called directly.
- Saving and loading settings through `QSettings`, and the run-at-startup registry entry (mainwindow.cpp:207-276), are file and OS I/O. Only `isCorrectSettings` is kept.
- Placing the popup on the desktop (mainwindow.cpp:78-83) is UI geometry. `QDesktopServices::openUrl` (mainwindow.cpp:95-96) is a foreign call: `OnChannelCreated` returns the URL instead.
- Real time and the Qt event loop are not modelled. A timer firing is an explicit `Timeout(timer)` call, and a restart is recorded as one more start of the same interval.
- `deleteLater()` is the `released` flag, with no deferred deletion.
- `sender()` and its casts are replaced by a handle parameter. So the `timer == nullptr` return in `timeout` (mainwindow.cpp:140-141) has no counterpart.
- `QDialog::close()` emits `finished` synchronously, which re-enters `processDialogFinished` and removes the same entry. This is not modelled separately because the end state is the same.
- `InformerDialog` (informerdialog.cpp) is not part of this model. Its own pin button sets the `attached` flag, and the model starts that flag false and never changes it.
- `Caller` (caller.h) is not part of this model. It is reduced to a display string and the caller URL.
- `Coordination.NewTimer`: the interval `timeout × 1000` is an unbounded integer. The 32-bit `int` of `QTimer::start` is not modelled. The spin box keeps the value small.
- `Kazoo.MainWindow.ProcessDialogAttached` requires the dialog to be alive and not already in the table it asks for. A released dialog is gone and emits nothing. A pinned dialog's button only offers unpinning, and a free dialog's only pinning. Its own toggle state lives in `InformerDialog`, which is not part of this model.
- `Kazoo.MainWindow.Timeout` requires the timer to be a live, running one, because only such a timer emits `timeout`.
