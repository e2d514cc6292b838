/**
 * The state of MainWindow's call-popup bookkeeping as a value, and one function
 * per handler giving the state the handler leaves behind.  The class in
 * mainwindow.dfy updates its fields in place and is proved to agree with these
 * functions; the lemmas in properties.dfy relate the handlers to each other.
 *
 * An InformerDialog or a QTimer is a handle (a nat) with a record that holds
 * the parts of the object the handlers read or change.  `released` stands for
 * deleteLater(): the object is scheduled for deletion.
 */
module Coordination {
  import opened Registry

  type PopupId = nat
  type TimerId = nat

  /** The caller details the event feed delivers with a new channel. */
  datatype Caller = Caller(display: string, callerUrl: string)

  /** InformerDialog's state: as created, kStateAnswered, kStateAnsweredAnother. */
  datatype DialogState = Ringing | Answered | AnsweredAnother

  datatype Popup = Popup(
    caller: Caller,
    visible: bool,
    attached: bool,
    state: DialogState,
    calleeNumber: string,
    calleeName: string,
    released: bool)

  /** A QTimer: single-shot flag, interval in milliseconds, and how often it was started. */
  datatype Timer = Timer(
    singleShot: bool,
    interval: int,
    running: bool,
    starts: nat,
    released: bool)

  /**
   * free = m_informerDialogsHash, pinned = m_attachedDialogsHash,
   * timers = m_timersHash; dialogs and clocks hold every popup and timer
   * ever allocated, nextPopup and nextTimer the next unused handles.
   */
  datatype Tables = Tables(
    free: map<CallId, PopupId>,
    pinned: map<CallId, PopupId>,
    timers: map<CallId, TimerId>,
    dialogs: map<PopupId, Popup>,
    clocks: map<TimerId, Timer>,
    nextPopup: nat,
    nextTimer: nat)

  const Empty: Tables := Tables(map[], map[], map[], map[], map[], 0, 0)

  /** Every handle in a table names an allocated object; fresh handles are unused. */
  ghost predicate WellFormed(s: Tables)
  {
    && (forall k :: k in s.free ==> s.free[k] in s.dialogs)
    && (forall k :: k in s.pinned ==> s.pinned[k] in s.dialogs)
    && (forall k :: k in s.timers ==> s.timers[k] in s.clocks)
    && (forall h :: h in s.dialogs ==> h < s.nextPopup)
    && (forall t :: t in s.clocks ==> t < s.nextTimer)
  }

  /** Each registered popup sits under exactly one key of exactly one popup table. */
  ghost predicate ExactlyOnce(s: Tables)
  {
    Injective(s.free) && Injective(s.pinned) && s.free.Values !! s.pinned.Values
  }

  /** Nothing a table still holds has been handed to deleteLater(). */
  ghost predicate NoneReleased(s: Tables)
    requires WellFormed(s)
  {
    && (forall k :: k in s.free ==> !s.dialogs[s.free[k]].released)
    && (forall k :: k in s.pinned ==> !s.dialogs[s.pinned[k]].released)
    && (forall k :: k in s.timers ==> !s.clocks[s.timers[k]].released)
  }

  /** A timer handed to deleteLater() was stopped first. */
  ghost predicate StoppedWhenReleased(s: Tables)
  {
    forall t :: t in s.clocks && s.clocks[t].released ==> !s.clocks[t].running
  }

  /** What every handler keeps, whatever ids the event feed sends. */
  ghost predicate Sound(s: Tables)
  {
    && WellFormed(s) && ExactlyOnce(s) && Injective(s.timers)
    && NoneReleased(s) && StoppedWhenReleased(s)
  }

  /** No call id is in both popup tables. */
  ghost predicate Apart(s: Tables)
  {
    s.free.Keys !! s.pinned.Keys
  }

  /** The central invariant. */
  ghost predicate Inv(s: Tables)
  {
    Sound(s) && Apart(s)
  }

  /** A handle registered in either popup table. */
  ghost predicate Registered(s: Tables, h: PopupId)
  {
    h in s.free.Values || h in s.pinned.Values
  }

  /** A dialog as onChannelCreated shows it: visible, not pinned, not yet answered. */
  function NewDialog(caller: Caller): Popup
  {
    Popup(caller, true, false, Ringing, "", "", false)
  }

  /** A single-shot timer started with the popup timeout, given in seconds. */
  function NewTimer(timeoutSecs: int): Timer
  {
    Timer(true, timeoutSecs * 1000, true, 1, false)
  }

  /** QTimer::start(): running again, the countdown reset to the full interval. */
  function Restart(t: Timer): Timer
  {
    t.(running := true, starts := t.starts + 1)
  }

  /** QTimer::stop() followed by deleteLater(). */
  function Dispose(t: Timer): Timer
  {
    t.(running := false, released := true)
  }

  /** close() when visible, then deleteLater(). */
  function Dismiss(p: Popup): Popup
  {
    (if p.visible then p.(visible := false) else p).(released := true)
  }

  /** Restart the timer registered for `id`, if there is one. */
  ghost function RestartTimerOf(s: Tables, id: CallId): Tables
    requires WellFormed(s)
  {
    if id in s.timers then
      var t := s.timers[id];
      s.(clocks := s.clocks[t := Restart(s.clocks[t])])
    else
      s
  }

  // ---------------------------------------------------------------------------
  // One function per handler.

  /** onChannelCreated: a new dialog and a new started timer, both under `id`. */
  ghost function Created(s: Tables, id: CallId, caller: Caller, timeoutSecs: int): (r: Tables)
    requires WellFormed(s)
    ensures WellFormed(r)
    ensures r.free.Keys == s.free.Keys + {id} && r.timers.Keys == s.timers.Keys + {id}
    ensures r.pinned == s.pinned
    ensures r.free[id] !in s.dialogs && r.dialogs[r.free[id]] == NewDialog(caller)
    ensures r.timers[id] !in s.clocks && r.clocks[r.timers[id]] == NewTimer(timeoutSecs)
    ensures r.clocks[r.timers[id]].singleShot && r.clocks[r.timers[id]].running
    ensures r.clocks[r.timers[id]].interval == timeoutSecs * 1000
  {
    AddTimer(AddPopup(s, id, caller), id, timeoutSecs)
  }

  /** The first half of onChannelCreated: a new dialog under `id` in the free table. */
  ghost function AddPopup(s: Tables, id: CallId, caller: Caller): (r: Tables)
    requires WellFormed(s)
    ensures WellFormed(r)
  {
    var h := s.nextPopup;
    s.(free := s.free[id := h], dialogs := s.dialogs[h := NewDialog(caller)], nextPopup := h + 1)
  }

  /** The second half: a new started timer under `id`. */
  ghost function AddTimer(s: Tables, id: CallId, timeoutSecs: int): (r: Tables)
    requires WellFormed(s)
    ensures WellFormed(r)
  {
    var t := s.nextTimer;
    s.(timers := s.timers[id := t], clocks := s.clocks[t := NewTimer(timeoutSecs)], nextTimer := t + 1)
  }

  /** onChannelAnswered. */
  ghost function AnsweredEvent(s: Tables, id: CallId): (r: Tables)
    requires WellFormed(s)
    ensures WellFormed(r)
    ensures id !in s.free ==> r == s
    ensures r.free == s.free && r.pinned == s.pinned && r.timers == s.timers
    ensures r.dialogs.Keys == s.dialogs.Keys && r.clocks.Keys == s.clocks.Keys
    ensures forall h :: h in s.dialogs && (id !in s.free || h != s.free[id]) ==> r.dialogs[h] == s.dialogs[h]
    ensures id in s.free ==>
      var p, q := s.dialogs[s.free[id]], r.dialogs[s.free[id]];
      q.state == (if p.visible then Answered else p.state) && q.(state := p.state) == p
    ensures forall t :: t in s.clocks && (id !in s.free || id !in s.timers || t != s.timers[id]) ==> r.clocks[t] == s.clocks[t]
    ensures id in s.free && id in s.timers ==>
      var t := s.timers[id];
      r.clocks[t].running && r.clocks[t].starts == s.clocks[t].starts + 1
      && r.clocks[t].interval == s.clocks[t].interval
  {
    if id !in s.free then s
    else
      var h := s.free[id];
      var p := s.dialogs[h];
      var s1 := if p.visible then s.(dialogs := s.dialogs[h := p.(state := Answered)]) else s;
      RestartTimerOf(s1, id)
  }

  /** onChannelAnsweredAnother: as onChannelAnswered, and the callee is shown too. */
  ghost function AnsweredAnotherEvent(s: Tables, id: CallId, number: string, name: string): (r: Tables)
    requires WellFormed(s)
    ensures WellFormed(r)
    ensures id !in s.free ==> r == s
    ensures r.free == s.free && r.pinned == s.pinned && r.timers == s.timers
    ensures r.dialogs.Keys == s.dialogs.Keys && r.clocks.Keys == s.clocks.Keys
    ensures forall h :: h in s.dialogs && (id !in s.free || h != s.free[id]) ==> r.dialogs[h] == s.dialogs[h]
    ensures id in s.free ==>
      var p, q := s.dialogs[s.free[id]], r.dialogs[s.free[id]];
      if p.visible then
        q == p.(state := AnsweredAnother, calleeNumber := number, calleeName := name)
      else
        q == p
    ensures forall t :: t in s.clocks && (id !in s.free || id !in s.timers || t != s.timers[id]) ==> r.clocks[t] == s.clocks[t]
    ensures id in s.free && id in s.timers ==>
      var t := s.timers[id];
      r.clocks[t].running && r.clocks[t].starts == s.clocks[t].starts + 1
      && r.clocks[t].interval == s.clocks[t].interval
  {
    if id !in s.free then s
    else
      var h := s.free[id];
      var p := s.dialogs[h];
      var s1 :=
        if p.visible then
          s.(dialogs := s.dialogs[h := p.(calleeNumber := number, calleeName := name).(state := AnsweredAnother)])
        else s;
      RestartTimerOf(s1, id)
  }

  /** timeout(): the single-shot timer `t` fired; its call id is looked up by value. */
  ghost function Expired(s: Tables, t: TimerId): (r: Tables)
    requires WellFormed(s)
    requires t in s.clocks
    ensures WellFormed(r)
    ensures r.pinned == s.pinned && r.timers == s.timers
    ensures r.clocks == s.clocks[t := s.clocks[t].(running := false)]
    ensures r.dialogs.Keys == s.dialogs.Keys
    ensures KeyOf(s.timers, t) !in s.free ==> r.free == s.free && r.dialogs == s.dialogs
    ensures var id := KeyOf(s.timers, t);
      id in s.free ==>
        var p, q := s.dialogs[s.free[id]], r.dialogs[s.free[id]];
        && r.free == s.free - {id}
        && !q.visible && q.released && q.(visible := p.visible, released := p.released) == p
        && (forall h :: h in s.dialogs && h != s.free[id] ==> r.dialogs[h] == s.dialogs[h])
  {
    var s1 := s.(clocks := s.clocks[t := s.clocks[t].(running := false)]);
    var id := KeyOf(s.timers, t);
    if id !in s.free then s1
    else
      var h := s.free[id];
      s1.(free := s.free - {id}, dialogs := s.dialogs[h := Dismiss(s.dialogs[h])])
  }

  /** onChannelDestroyed. */
  ghost function Destroyed(s: Tables, id: CallId): (r: Tables)
    requires WellFormed(s)
    ensures WellFormed(r)
    ensures id !in s.free ==> r == s
    ensures r.pinned == s.pinned && r.free == s.free - {id}
    ensures id in s.free ==> r.timers == s.timers - {id}
    ensures r.dialogs.Keys == s.dialogs.Keys && r.clocks.Keys == s.clocks.Keys
    ensures id in s.free ==>
      var p, q := s.dialogs[s.free[id]], r.dialogs[s.free[id]];
      q.released && q.visible == (p.visible && p.attached)
      && q.(visible := p.visible, released := p.released) == p
    ensures forall h :: h in s.dialogs && (id !in s.free || h != s.free[id]) ==> r.dialogs[h] == s.dialogs[h]
    ensures id in s.free && id in s.timers ==>
      var t := s.timers[id];
      var c, d := s.clocks[t], r.clocks[t];
      !d.running && d.released && d.(running := c.running, released := c.released) == c
    ensures forall t :: t in s.clocks && (id !in s.free || id !in s.timers || t != s.timers[id]) ==> r.clocks[t] == s.clocks[t]
  {
    if id !in s.free then s else DropTimer(DropPopup(s, id), id)
  }

  /** The first half of onChannelDestroyed: close the popup unless pinned, release and drop it. */
  ghost function DropPopup(s: Tables, id: CallId): (r: Tables)
    requires WellFormed(s) && id in s.free
    ensures WellFormed(r)
  {
    var h := s.free[id];
    var p := s.dialogs[h];
    var p' := (if p.visible && !p.attached then p.(visible := false) else p).(released := true);
    s.(free := s.free - {id}, dialogs := s.dialogs[h := p'])
  }

  /** The second half: stop, release and drop the call's timer, if it has one. */
  ghost function DropTimer(s: Tables, id: CallId): (r: Tables)
    requires WellFormed(s)
    ensures WellFormed(r)
  {
    if id in s.timers then
      var t := s.timers[id];
      s.(timers := s.timers - {id}, clocks := s.clocks[t := Dispose(s.clocks[t])])
    else
      s
  }

  /** processDialogFinished: drop the entry holding `h`, free table first. */
  ghost function Finished(s: Tables, h: PopupId): (r: Tables)
    requires WellFormed(s)
    ensures WellFormed(r)
    ensures r.timers == s.timers && r.clocks == s.clocks && r.dialogs == s.dialogs
    ensures h in s.free.Values ==> r.free == s.free - {KeyOf(s.free, h)} && r.pinned == s.pinned
    ensures h !in s.free.Values && h in s.pinned.Values ==>
      r.pinned == s.pinned - {KeyOf(s.pinned, h)} && r.free == s.free
    ensures !Registered(s, h) ==> r == s
  {
    if h in s.free.Values then
      s.(free := s.free - {KeyOf(s.free, h)})
    else if h in s.pinned.Values then
      s.(pinned := s.pinned - {KeyOf(s.pinned, h)})
    else
      s
  }

  /**
   * processDialogAttached: move `h` to the pinned table, or back to the free
   * one.  The call id is looked up by value, so a dialog the table it leaves does
   * not hold is filed under NoKey.
   */
  ghost function AttachedEvent(s: Tables, h: PopupId, attached: bool): (r: Tables)
    requires WellFormed(s) && h in s.dialogs
    ensures WellFormed(r)
    ensures r.timers == s.timers && r.clocks == s.clocks && r.dialogs == s.dialogs
    ensures attached ==>
      var id := KeyOf(s.free, h);
      r.free == s.free - {id} && r.pinned == s.pinned[id := h]
    ensures !attached ==>
      var id := KeyOf(s.pinned, h);
      r.pinned == s.pinned - {id} && r.free == s.free[id := h]
  {
    if attached then
      var id := KeyOf(s.free, h);
      s.(pinned := s.pinned[id := h], free := s.free - {id})
    else
      var id := KeyOf(s.pinned, h);
      s.(pinned := s.pinned - {id}, free := s.free[id := h])
  }

  /** closeAllPopups: close and release every registered popup, empty both tables. */
  ghost function ClosedAll(s: Tables): (r: Tables)
    requires WellFormed(s)
    ensures WellFormed(r)
    ensures r.free == map[] && r.pinned == map[]
    ensures r.timers == s.timers && r.clocks == s.clocks
    ensures r.dialogs.Keys == s.dialogs.Keys
    ensures forall h :: h in s.dialogs && Registered(s, h) ==>
      var p, q := s.dialogs[h], r.dialogs[h];
      !q.visible && q.released && q.(visible := p.visible, released := p.released) == p
    ensures forall h :: h in s.dialogs && !Registered(s, h) ==> r.dialogs[h] == s.dialogs[h]
  {
    s.(free := map[], pinned := map[], dialogs := CloseRegistered(s.dialogs, s.free.Values + s.pinned.Values))
  }

  /** Close and release the dialogs whose handles are in `hs`. */
  ghost function CloseRegistered(dialogs: map<PopupId, Popup>, hs: set<PopupId>): map<PopupId, Popup>
  {
    map h | h in dialogs :: if h in hs then dialogs[h].(visible := false, released := true) else dialogs[h]
  }

  // ---------------------------------------------------------------------------
  // The handlers as one event type, for reasoning about runs of events.

  datatype Event =
    | ChannelCreated(id: CallId, caller: Caller)
    | ChannelAnswered(id: CallId)
    | ChannelAnsweredAnother(id: CallId, number: string, name: string)
    | ChannelDestroyed(id: CallId)
    | TimerFired(timer: TimerId)
    | DialogFinished(dialog: PopupId)
    | DialogAttached(dialog: PopupId, attached: bool)
    | CloseAllPopups

  /**
   * When a dialog can emit dialogAttached: it is alive, and it is not already
   * in the table it asks for (a pinned dialog can only ask to be unpinned).
   */
  ghost predicate CanAttach(s: Tables, h: PopupId, attached: bool)
  {
    && h in s.dialogs && !s.dialogs[h].released
    && (if attached then h !in s.pinned.Values else h !in s.free.Values)
  }

  /** When the sender of an event can emit it: a running timer, a live dialog. */
  ghost predicate Enabled(s: Tables, e: Event)
  {
    match e
    case TimerFired(t) => t in s.clocks && s.clocks[t].running
    case DialogAttached(h, attached) => CanAttach(s, h, attached)
    case _ => true
  }

  ghost function Step(s: Tables, e: Event, timeoutSecs: int): (r: Tables)
    requires WellFormed(s) && Enabled(s, e)
    ensures WellFormed(r)
  {
    match e
    case ChannelCreated(id, caller) => Created(s, id, caller, timeoutSecs)
    case ChannelAnswered(id) => AnsweredEvent(s, id)
    case ChannelAnsweredAnother(id, number, name) => AnsweredAnotherEvent(s, id, number, name)
    case ChannelDestroyed(id) => Destroyed(s, id)
    case TimerFired(t) => Expired(s, t)
    case DialogFinished(h) => Finished(s, h)
    case DialogAttached(h, attached) => AttachedEvent(s, h, attached)
    case CloseAllPopups => ClosedAll(s)
  }

  /** A run in which every event can be emitted when it arrives. */
  ghost predicate Admissible(s: Tables, evs: seq<Event>, timeoutSecs: int)
    requires WellFormed(s)
    decreases |evs|
  {
    evs == [] ||
    (Enabled(s, evs[0]) && Admissible(Step(s, evs[0], timeoutSecs), evs[1..], timeoutSecs))
  }

  ghost function Run(s: Tables, evs: seq<Event>, timeoutSecs: int): (r: Tables)
    requires WellFormed(s) && Admissible(s, evs, timeoutSecs)
    ensures WellFormed(r)
    decreases |evs|
  {
    if evs == [] then s else Run(Step(s, evs[0], timeoutSecs), evs[1..], timeoutSecs)
  }
}
