/**
 * MainWindow's call-popup handlers, updating the three QHash tables in place.
 * Each handler is proved to leave the state its function in coordination.dfy
 * describes, and to keep the bookkeeping invariant.
 */
module Kazoo {
  import opened Registry
  import opened Coordination
  import Properties

  datatype Option<T> = None | Some(value: T)

  class MainWindow {
    /** m_informerDialogsHash: the popups the user has not pinned. */
    var informerDialogs: map<CallId, PopupId>
    /** m_attachedDialogsHash: the popups the user has pinned. */
    var attachedDialogs: map<CallId, PopupId>
    /** m_timersHash: one auto-dismiss timer per call. */
    var timersHash: map<CallId, TimerId>
    /** The InformerDialog and QTimer objects, by handle. */
    var dialogs: map<PopupId, Popup>
    var clocks: map<TimerId, Timer>
    var nextPopup: nat
    var nextTimer: nat
    /** popupTimeoutSpinBox, in seconds, and autoOpenUrlCheckBox. */
    var popupTimeout: int
    var autoOpenUrl: bool

    ghost function Model(): Tables
      reads this
    {
      Tables(informerDialogs, attachedDialogs, timersHash, dialogs, clocks, nextPopup, nextTimer)
    }

    /** The bookkeeping every handler keeps; with Apart(Model()) it is Inv(Model()). */
    ghost predicate Valid()
      reads this
    {
      Sound(Model())
    }

    constructor (popupTimeout: int, autoOpenUrl: bool)
      ensures Valid() && Inv(Model()) && Model() == Empty
      ensures this.popupTimeout == popupTimeout && this.autoOpenUrl == autoOpenUrl
    {
      informerDialogs, attachedDialogs, timersHash := map[], map[], map[];
      dialogs, clocks := map[], map[];
      nextPopup, nextTimer := 0, 0;
      this.popupTimeout, this.autoOpenUrl := popupTimeout, autoOpenUrl;
    }

    /**
     * onChannelCreated: show a new dialog, start a single-shot timer, and file
     * both under `callId`, replacing whatever was there.  Returns the URL to
     * open when the auto-open option is set.
     */
    method OnChannelCreated(callId: CallId, caller: Caller) returns (openUrl: Option<string>)
      requires Valid()
      modifies this`informerDialogs, this`timersHash, this`dialogs, this`clocks, this`nextPopup, this`nextTimer
      ensures Valid()
      ensures Model() == Created(old(Model()), callId, caller, popupTimeout)
      ensures old(Apart(Model())) && callId !in attachedDialogs ==> Apart(Model())
      ensures openUrl == if autoOpenUrl then Some(caller.callerUrl) else None
    {
      ghost var s := Model();
      var dialog := nextPopup;
      nextPopup := nextPopup + 1;
      var popup := Popup(Caller("", ""), false, false, Ringing, "", "", false);
      popup := popup.(caller := caller);
      popup := popup.(visible := true);
      dialogs := dialogs[dialog := popup];

      var timer := nextTimer;
      nextTimer := nextTimer + 1;
      var clock := Timer(false, 0, false, 0, false);
      clock := clock.(singleShot := true);
      timersHash := timersHash[callId := timer];
      clock := clock.(interval := popupTimeout * 1000, running := true, starts := 1);
      clocks := clocks[timer := clock];

      informerDialogs := informerDialogs[callId := dialog];

      openUrl := if autoOpenUrl then Some(caller.callerUrl) else None;

      assert popup == NewDialog(caller) && clock == NewTimer(popupTimeout);
      CreatedFrom(s, callId, caller, popupTimeout, Model());
    }

    /** onChannelAnswered: mark a visible free popup answered and restart its timer. */
    method OnChannelAnswered(callId: CallId)
      requires Valid()
      modifies this`dialogs, this`clocks
      ensures Valid()
      ensures Model() == AnsweredEvent(old(Model()), callId)
      ensures old(Apart(Model())) ==> Apart(Model())
    {
      ghost var s := Model();
      Properties.AnsweredKeepsSound(s, callId);
      if callId !in informerDialogs {
        return;
      }
      var dialog := informerDialogs[callId];
      var popup := dialogs[dialog];
      if popup.visible {
        popup := popup.(state := Answered);
        dialogs := dialogs[dialog := popup];
      }
      if callId in timersHash {
        var timer := timersHash[callId];
        clocks := clocks[timer := Restart(clocks[timer])];
      }
    }

    /** onChannelAnsweredAnother: as OnChannelAnswered, and show who answered. */
    method OnChannelAnsweredAnother(callId: CallId, calleeNumber: string, calleeName: string)
      requires Valid()
      modifies this`dialogs, this`clocks
      ensures Valid()
      ensures Model() == AnsweredAnotherEvent(old(Model()), callId, calleeNumber, calleeName)
      ensures old(Apart(Model())) ==> Apart(Model())
    {
      ghost var s := Model();
      Properties.AnsweredAnotherKeepsSound(s, callId, calleeNumber, calleeName);
      if callId !in informerDialogs {
        return;
      }
      var dialog := informerDialogs[callId];
      var popup := dialogs[dialog];
      if popup.visible {
        popup := popup.(calleeNumber := calleeNumber, calleeName := calleeName);
        popup := popup.(state := AnsweredAnother);
        dialogs := dialogs[dialog := popup];
      }
      if callId in timersHash {
        var timer := timersHash[callId];
        clocks := clocks[timer := Restart(clocks[timer])];
      }
    }

    /**
     * timeout: the single-shot `timer` fired.  Its call id is looked up by
     * value; a free popup under that id is closed and dropped.
     */
    method Timeout(timer: TimerId)
      requires Valid()
      requires timer in clocks && clocks[timer].running
      modifies this`informerDialogs, this`dialogs, this`clocks
      ensures Valid()
      ensures Model() == Expired(old(Model()), timer)
      ensures old(Apart(Model())) ==> Apart(Model())
    {
      ghost var s := Model();
      clocks := clocks[timer := clocks[timer].(running := false)];
      var callId := FindKey(timersHash, timer);
      if callId !in informerDialogs {
        Properties.ExpiredKeepsSound(s, timer);
        return;
      }
      var dialog := informerDialogs[callId];
      var popup := dialogs[dialog];
      if popup.visible {
        popup := popup.(visible := false);
      }
      informerDialogs := informerDialogs - {callId};
      popup := popup.(released := true);
      dialogs := dialogs[dialog := popup];
      Properties.ExpiredKeepsSound(s, timer);
    }

    /**
     * onChannelDestroyed: close a free popup unless it is hidden or pinned,
     * drop it, and stop and drop the call's timer.
     */
    method OnChannelDestroyed(callId: CallId)
      requires Valid()
      modifies this`informerDialogs, this`timersHash, this`dialogs, this`clocks
      ensures Valid()
      ensures Model() == Destroyed(old(Model()), callId)
      ensures old(Apart(Model())) ==> Apart(Model())
    {
      ghost var s := Model();
      if callId !in informerDialogs {
        return;
      }
      var dialog := informerDialogs[callId];
      var popup := dialogs[dialog];
      if popup.visible && !popup.attached {
        popup := popup.(visible := false);
      }
      informerDialogs := informerDialogs - {callId};
      popup := popup.(released := true);
      dialogs := dialogs[dialog := popup];

      if callId in timersHash {
        var timer := timersHash[callId];
        timersHash := timersHash - {callId};
        var clock := clocks[timer];
        clock := clock.(running := false);
        clock := clock.(released := true);
        clocks := clocks[timer := clock];
      }
      DestroyedFrom(s, callId, Model());
    }

    /** processDialogFinished: drop the entry holding `dialog`, free table first. */
    method ProcessDialogFinished(dialog: PopupId)
      requires Valid()
      modifies this`informerDialogs, this`attachedDialogs
      ensures Valid()
      ensures Model() == Finished(old(Model()), dialog)
      ensures old(Apart(Model())) ==> Apart(Model())
    {
      ghost var s := Model();
      if dialog in informerDialogs.Values {
        var callId := FindKey(informerDialogs, dialog);
        informerDialogs := informerDialogs - {callId};
      } else if dialog in attachedDialogs.Values {
        var callId := FindKey(attachedDialogs, dialog);
        attachedDialogs := attachedDialogs - {callId};
      }
      Properties.FinishedKeepsSound(s, dialog);
    }

    /**
     * processDialogAttached: move `dialog` to the pinned table, or back.  A
     * dialog the table it leaves does not hold is filed under NoKey.
     */
    method ProcessDialogAttached(dialog: PopupId, attached: bool)
      requires Valid()
      requires dialog in dialogs && !dialogs[dialog].released
      requires attached ==> dialog !in attachedDialogs.Values
      requires !attached ==> dialog !in informerDialogs.Values
      modifies this`informerDialogs, this`attachedDialogs
      ensures Valid()
      ensures Model() == AttachedEvent(old(Model()), dialog, attached)
      ensures old(Apart(Model())) ==> Apart(Model())
    {
      ghost var s := Model();
      if attached {
        var callId := FindKey(informerDialogs, dialog);
        attachedDialogs := attachedDialogs[callId := dialog];
        informerDialogs := informerDialogs - {callId};
      } else {
        var callId := FindKey(attachedDialogs, dialog);
        attachedDialogs := attachedDialogs - {callId};
        informerDialogs := informerDialogs[callId := dialog];
      }
      Properties.AttachedKeepsSound(s, dialog, attached);
    }

    /** closeAllPopups: close and release every popup of both tables, then clear them. */
    method CloseAllPopups()
      requires Valid()
      modifies this`informerDialogs, this`attachedDialogs, this`dialogs
      ensures Valid()
      ensures Model() == ClosedAll(old(Model()))
      ensures old(Apart(Model())) ==> Apart(Model())
    {
      ghost var s := Model();
      RegisteredAllocated(s);
      CloseEach(informerDialogs.Values);
      informerDialogs := map[];
      CloseEach(attachedDialogs.Values);
      attachedDialogs := map[];
      CloseTwice(s.dialogs, s.free.Values, s.pinned.Values);
      assert Model() == ClosedAll(s);
      Properties.ClosedAllKeepsSound(s);
    }

    /** The body of one foreach over a popup table: close() and deleteLater() each dialog. */
    method CloseEach(handles: set<PopupId>)
      requires handles <= dialogs.Keys
      modifies this`dialogs
      ensures dialogs == CloseRegistered(old(dialogs), handles)
    {
      var pending := handles;
      while pending != {}
        invariant pending <= handles
        invariant dialogs == CloseRegistered(old(dialogs), handles - pending)
        decreases pending
      {
        var dialog :| dialog in pending;
        CloseOneMore(old(dialogs), handles - pending, dialog);
        dialogs := dialogs[dialog := dialogs[dialog].(visible := false).(released := true)];
        pending := pending - {dialog};
        assert handles - pending == (handles - (pending + {dialog})) + {dialog};
      }
    }
  }

  /** The tables onChannelCreated leaves are those Created describes, and they stay sound. */
  lemma CreatedFrom(s: Tables, id: CallId, caller: Caller, timeoutSecs: int, r: Tables)
    requires Sound(s)
    requires r.free == s.free[id := s.nextPopup] && r.pinned == s.pinned
    requires r.timers == s.timers[id := s.nextTimer]
    requires r.dialogs == s.dialogs[s.nextPopup := NewDialog(caller)]
    requires r.clocks == s.clocks[s.nextTimer := NewTimer(timeoutSecs)]
    requires r.nextPopup == s.nextPopup + 1 && r.nextTimer == s.nextTimer + 1
    ensures r == Created(s, id, caller, timeoutSecs) && Sound(r)
    ensures Apart(s) && id !in s.pinned ==> Apart(r)
  {
    Properties.CreatedKeepsInv(s, id, caller, timeoutSecs);
  }

  /** The tables onChannelDestroyed leaves for a free call are those Destroyed describes. */
  lemma DestroyedFrom(s: Tables, id: CallId, r: Tables)
    requires Sound(s) && id in s.free
    requires r.free == s.free - {id} && r.pinned == s.pinned
    requires r.nextPopup == s.nextPopup && r.nextTimer == s.nextTimer
    requires var p := s.dialogs[s.free[id]];
      r.dialogs == s.dialogs[s.free[id] := (if p.visible && !p.attached then p.(visible := false) else p).(released := true)]
    requires id in s.timers ==>
      r.timers == s.timers - {id} && r.clocks == s.clocks[s.timers[id] := Dispose(s.clocks[s.timers[id]])]
    requires id !in s.timers ==> r.timers == s.timers && r.clocks == s.clocks
    ensures r == Destroyed(s, id) && Sound(r)
  {
    Properties.DestroyedKeepsSound(s, id);
  }

  /** Closing one more registered dialog extends the set of closed ones. */
  lemma CloseOneMore(dialogs: map<PopupId, Popup>, done: set<PopupId>, h: PopupId)
    requires h in dialogs
    ensures var c := CloseRegistered(dialogs, done);
      h in c && c[h := c[h].(visible := false).(released := true)] == CloseRegistered(dialogs, done + {h})
  {
    var c := CloseRegistered(dialogs, done);
    assert c[h := c[h].(visible := false).(released := true)].Keys == CloseRegistered(dialogs, done + {h}).Keys;
  }

  /** Closing the free popups and then the pinned ones closes them all. */
  lemma CloseTwice(dialogs: map<PopupId, Popup>, a: set<PopupId>, b: set<PopupId>)
    ensures CloseRegistered(CloseRegistered(dialogs, a), b) == CloseRegistered(dialogs, a + b)
  {
  }

  /** Every handle in a popup table names an allocated dialog. */
  lemma RegisteredAllocated(s: Tables)
    requires WellFormed(s)
    ensures s.free.Values <= s.dialogs.Keys && s.pinned.Values <= s.dialogs.Keys
  {
  }
}
