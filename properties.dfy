/**
 * Properties that relate MainWindow's handlers to each other: the bookkeeping
 * invariant, release-at-most-once, the attach/detach round trip, and call
 * scenarios: create then destroy; pin, expire, destroy, finish; a duplicate
 * create, and pinning the dialog it orphans.
 */
module Properties {
  import opened Registry
  import opened Coordination

  // ---------------------------------------------------------------------------
  // The invariant.

  lemma CreatedKeepsSound(s: Tables, id: CallId, caller: Caller, timeoutSecs: int)
    requires Sound(s)
    ensures Sound(Created(s, id, caller, timeoutSecs))
  {
    AddPopupKeepsSound(s, id, caller);
    AddTimerKeepsSound(AddPopup(s, id, caller), id, timeoutSecs);
  }

  lemma AddPopupKeepsSound(s: Tables, id: CallId, caller: Caller)
    requires Sound(s)
    ensures Sound(AddPopup(s, id, caller))
  {
    InsertKey(s.free, id, s.nextPopup);
  }

  lemma AddTimerKeepsSound(s: Tables, id: CallId, timeoutSecs: int)
    requires Sound(s)
    ensures Sound(AddTimer(s, id, timeoutSecs))
  {
    InsertKey(s.timers, id, s.nextTimer);
  }

  /** onChannelCreated touches nothing but the entries under `id` and the two new objects. */
  lemma CreatedLeavesRest(s: Tables, id: CallId, caller: Caller, timeoutSecs: int)
    requires WellFormed(s)
    ensures var r := Created(s, id, caller, timeoutSecs);
      && (forall k :: k in s.free && k != id ==> r.free[k] == s.free[k])
      && (forall k :: k in s.timers && k != id ==> r.timers[k] == s.timers[k])
      && (forall h :: h in s.dialogs ==> h in r.dialogs && r.dialogs[h] == s.dialogs[h])
      && (forall t :: t in s.clocks ==> t in r.clocks && r.clocks[t] == s.clocks[t])
  {
  }

  lemma AnsweredKeepsSound(s: Tables, id: CallId)
    requires Sound(s)
    ensures Sound(AnsweredEvent(s, id))
  {
  }

  lemma AnsweredAnotherKeepsSound(s: Tables, id: CallId, number: string, name: string)
    requires Sound(s)
    ensures Sound(AnsweredAnotherEvent(s, id, number, name))
  {
  }

  lemma DestroyedKeepsSound(s: Tables, id: CallId)
    requires Sound(s)
    ensures Sound(Destroyed(s, id))
  {
    if id in s.free {
      DropPopupKeepsSound(s, id);
      DropTimerKeepsSound(DropPopup(s, id), id);
    }
  }

  lemma DropPopupKeepsSound(s: Tables, id: CallId)
    requires Sound(s) && id in s.free
    ensures Sound(DropPopup(s, id))
  {
    var r := DropPopup(s, id);
    var h := s.free[id];
    RemoveKey(s.free, id);
    assert NoneReleased(r) by {
      assert forall k :: k in r.free ==> r.free[k] in r.free.Values;
      assert h in s.free.Values;
      assert forall k :: k in r.pinned ==> r.pinned[k] in s.pinned.Values && r.pinned[k] != h;
    }
  }

  lemma DropTimerKeepsSound(s: Tables, id: CallId)
    requires Sound(s)
    ensures Sound(DropTimer(s, id))
  {
    if id in s.timers {
      var r := DropTimer(s, id);
      RemoveKey(s.timers, id);
      assert forall k :: k in r.timers ==> r.timers[k] in r.timers.Values;
    }
  }

  lemma ExpiredKeepsSound(s: Tables, t: TimerId)
    requires Sound(s) && t in s.clocks
    ensures Sound(Expired(s, t))
  {
    var id := KeyOf(s.timers, t);
    if id in s.free {
      RemoveKey(s.free, id);
    }
  }

  lemma FinishedKeepsSound(s: Tables, h: PopupId)
    requires Sound(s)
    ensures Sound(Finished(s, h))
  {
    if h in s.free.Values {
      RemoveKey(s.free, KeyOf(s.free, h));
    } else if h in s.pinned.Values {
      RemoveKey(s.pinned, KeyOf(s.pinned, h));
    }
  }

  lemma AttachedKeepsSound(s: Tables, h: PopupId, attached: bool)
    requires Sound(s) && CanAttach(s, h, attached)
    ensures Sound(AttachedEvent(s, h, attached))
  {
    if attached {
      PinKeepsSound(s, KeyOf(s.free, h), h);
    } else {
      UnpinKeepsSound(s, KeyOf(s.pinned, h), h);
    }
  }

  /**
   * Filing a live dialog under `id` in the pinned table and dropping `id` from
   * the free one keeps Sound, whether `id` held that dialog or not.
   */
  lemma PinKeepsSound(s: Tables, id: CallId, h: PopupId)
    requires Sound(s) && CanAttach(s, h, true)
    requires h in s.free.Values ==> id in s.free && s.free[id] == h
    ensures Sound(s.(pinned := s.pinned[id := h], free := s.free - {id}))
  {
    var r := s.(pinned := s.pinned[id := h], free := s.free - {id});
    if id in s.free {
      RemoveKey(s.free, id);
    } else {
      assert r.free == s.free;
    }
    SubValues(s.pinned, id);
    InsertKey(s.pinned, id, h);
    ShuffledKeepsSound(s, r, h);
  }

  /**
   * Filing a live dialog under `id` in the free table and dropping `id` from
   * the pinned one keeps Sound, whether `id` held that dialog or not.
   */
  lemma UnpinKeepsSound(s: Tables, id: CallId, h: PopupId)
    requires Sound(s) && CanAttach(s, h, false)
    requires h in s.pinned.Values ==> id in s.pinned && s.pinned[id] == h
    ensures Sound(s.(pinned := s.pinned - {id}, free := s.free[id := h]))
  {
    var r := s.(pinned := s.pinned - {id}, free := s.free[id := h]);
    if id in s.pinned {
      RemoveKey(s.pinned, id);
    } else {
      assert r.pinned == s.pinned;
    }
    SubValues(s.free, id);
    InsertKey(s.free, id, h);
    ShuffledKeepsSound(s, r, h);
  }

  /** Dropping a key leaves a subset of the handles. */
  lemma SubValues(m: map<CallId, nat>, k: CallId)
    ensures (m - {k}).Values <= m.Values
  {
    forall v | v in (m - {k}).Values ensures v in m.Values {
      var j :| j in m - {k} && (m - {k})[j] == v;
      assert m[j] == v;
    }
  }

  /** Moving popups between the two tables, without sharing any, keeps Sound. */
  lemma ShuffledKeepsSound(s: Tables, r: Tables, h: PopupId)
    requires Sound(s) && ExactlyOnce(r)
    requires h in s.dialogs && !s.dialogs[h].released
    requires r.timers == s.timers && r.dialogs == s.dialogs && r.clocks == s.clocks
    requires r.nextPopup == s.nextPopup && r.nextTimer == s.nextTimer
    requires r.free.Values + r.pinned.Values <= s.free.Values + s.pinned.Values + {h}
    ensures Sound(r)
  {
    forall k | k in r.free ensures r.free[k] in s.free.Values + s.pinned.Values + {h} {
      assert r.free[k] in r.free.Values;
    }
    forall k | k in r.pinned ensures r.pinned[k] in s.free.Values + s.pinned.Values + {h} {
      assert r.pinned[k] in r.pinned.Values;
    }
  }

  lemma ClosedAllKeepsSound(s: Tables)
    requires Sound(s)
    ensures Sound(ClosedAll(s))
  {
  }

  /** Every handler keeps Sound, whatever the event feed sends. */
  lemma StepKeepsSound(s: Tables, e: Event, timeoutSecs: int)
    requires Sound(s) && Enabled(s, e)
    ensures Sound(Step(s, e, timeoutSecs))
  {
    match e
    case ChannelCreated(id, caller) => CreatedKeepsSound(s, id, caller, timeoutSecs);
    case ChannelAnswered(id) => AnsweredKeepsSound(s, id);
    case ChannelAnsweredAnother(id, number, name) => AnsweredAnotherKeepsSound(s, id, number, name);
    case ChannelDestroyed(id) => DestroyedKeepsSound(s, id);
    case TimerFired(t) => ExpiredKeepsSound(s, t);
    case DialogFinished(h) => FinishedKeepsSound(s, h);
    case DialogAttached(h, attached) => AttachedKeepsSound(s, h, attached);
    case CloseAllPopups => ClosedAllKeepsSound(s);
  }

  /** A created call id that is not pinned keeps the two popup tables apart. */
  ghost predicate KeepsApart(s: Tables, e: Event)
  {
    e.ChannelCreated? ==> e.id !in s.pinned
  }

  /** Every handler keeps Inv, provided onChannelCreated gets an id that is not pinned. */
  lemma StepKeepsInv(s: Tables, e: Event, timeoutSecs: int)
    requires Inv(s) && Enabled(s, e) && KeepsApart(s, e)
    ensures Inv(Step(s, e, timeoutSecs))
  {
    StepKeepsSound(s, e, timeoutSecs);
    StepKeepsApart(s, e, timeoutSecs);
  }

  /** Only onChannelCreated and processDialogAttached add a popup key, and neither adds one to both tables. */
  lemma StepKeepsApart(s: Tables, e: Event, timeoutSecs: int)
    requires WellFormed(s) && Apart(s) && Enabled(s, e) && KeepsApart(s, e)
    ensures Apart(Step(s, e, timeoutSecs))
  {
    match e
    case DialogAttached(h, attached) =>
      var r := AttachedEvent(s, h, attached);
      if attached {
        assert r.pinned.Keys == s.pinned.Keys + {KeyOf(s.free, h)};
      } else {
        assert r.free.Keys == s.free.Keys + {KeyOf(s.pinned, h)};
      }
    case _ =>
  }

  /** onChannelCreated keeps Inv when the call id is not pinned. */
  lemma CreatedKeepsInv(s: Tables, id: CallId, caller: Caller, timeoutSecs: int)
    requires Sound(s)
    ensures Sound(Created(s, id, caller, timeoutSecs))
    ensures Inv(s) && id !in s.pinned ==> Inv(Created(s, id, caller, timeoutSecs))
  {
    CreatedKeepsSound(s, id, caller, timeoutSecs);
  }

  /** Every onChannelCreated of the run gets an id that is not pinned at that moment. */
  ghost predicate CreatesApart(s: Tables, evs: seq<Event>, timeoutSecs: int)
    requires WellFormed(s) && Admissible(s, evs, timeoutSecs)
    decreases |evs|
  {
    evs == [] ||
    (KeepsApart(s, evs[0]) && CreatesApart(Step(s, evs[0], timeoutSecs), evs[1..], timeoutSecs))
  }

  /** The central invariant holds after any run whose created ids are not pinned. */
  lemma {:induction false} RunKeepsInv(s: Tables, evs: seq<Event>, timeoutSecs: int)
    requires Inv(s) && Admissible(s, evs, timeoutSecs) && CreatesApart(s, evs, timeoutSecs)
    ensures Inv(Run(s, evs, timeoutSecs))
    decreases |evs|
  {
    if evs != [] {
      StepKeepsInv(s, evs[0], timeoutSecs);
      RunKeepsInv(Step(s, evs[0], timeoutSecs), evs[1..], timeoutSecs);
    }
  }

  // ---------------------------------------------------------------------------
  // Release happens once, and only when an entry leaves the tables.

  /**
   * Going from `s` to `r`, no dialog already handed to deleteLater() is
   * touched, and a dialog is released only as its entry leaves the tables.
   */
  ghost predicate DialogsReleasedOnce(s: Tables, r: Tables)
  {
    && (forall h :: h in s.dialogs && s.dialogs[h].released ==> h in r.dialogs && r.dialogs[h] == s.dialogs[h])
    && (forall h :: h in s.dialogs && !s.dialogs[h].released && h in r.dialogs && r.dialogs[h].released ==>
          Registered(s, h) && !Registered(r, h))
  }

  /** The same for timers. */
  ghost predicate TimersReleasedOnce(s: Tables, r: Tables)
  {
    && (forall t :: t in s.clocks && s.clocks[t].released ==> t in r.clocks && r.clocks[t] == s.clocks[t])
    && (forall t :: t in s.clocks && !s.clocks[t].released && t in r.clocks && r.clocks[t].released ==>
          t in s.timers.Values && t !in r.timers.Values)
  }

  ghost predicate ReleasedOnce(s: Tables, r: Tables)
  {
    DialogsReleasedOnce(s, r) && TimersReleasedOnce(s, r)
  }

  lemma DestroyedReleasesDialogsOnce(s: Tables, id: CallId)
    requires Sound(s)
    ensures DialogsReleasedOnce(s, Destroyed(s, id))
  {
    if id in s.free {
      var h := s.free[id];
      assert !s.dialogs[h].released;
      RemoveKey(s.free, id);
      assert h !in s.pinned.Values;
    }
  }

  lemma DestroyedReleasesTimersOnce(s: Tables, id: CallId)
    requires Sound(s)
    ensures TimersReleasedOnce(s, Destroyed(s, id))
  {
    if id in s.free && id in s.timers {
      var t := s.timers[id];
      assert !s.clocks[t].released;
      RemoveKey(s.timers, id);
    }
  }

  lemma ExpiredReleasesOnce(s: Tables, t: TimerId)
    requires Sound(s) && t in s.clocks
    ensures ReleasedOnce(s, Expired(s, t))
  {
    var id := KeyOf(s.timers, t);
    if id in s.free {
      RemoveKey(s.free, id);
      assert s.free[id] !in s.pinned.Values;
    }
  }

  lemma CreatedReleasesOnce(s: Tables, id: CallId, caller: Caller, timeoutSecs: int)
    requires Sound(s)
    ensures ReleasedOnce(s, Created(s, id, caller, timeoutSecs))
  {
  }

  lemma AnsweredReleasesOnce(s: Tables, id: CallId)
    requires Sound(s)
    ensures ReleasedOnce(s, AnsweredEvent(s, id))
  {
  }

  lemma AnsweredAnotherReleasesOnce(s: Tables, id: CallId, number: string, name: string)
    requires Sound(s)
    ensures ReleasedOnce(s, AnsweredAnotherEvent(s, id, number, name))
  {
  }

  lemma SignalsReleaseNothing(s: Tables, e: Event)
    requires Sound(s) && Enabled(s, e) && (e.DialogFinished? || e.DialogAttached?)
    ensures ReleasedOnce(s, Step(s, e, 0))
  {
  }

  lemma ClosedAllReleasesOnce(s: Tables)
    requires Sound(s)
    ensures ReleasedOnce(s, ClosedAll(s))
  {
  }

  /** Every handler releases each dialog and timer at most once, and only on removal. */
  lemma NoDoubleRelease(s: Tables, e: Event, timeoutSecs: int)
    requires Sound(s) && Enabled(s, e)
    ensures ReleasedOnce(s, Step(s, e, timeoutSecs))
  {
    match e
    case ChannelCreated(id, caller) => CreatedReleasesOnce(s, id, caller, timeoutSecs);
    case ChannelAnswered(id) => AnsweredReleasesOnce(s, id);
    case ChannelAnsweredAnother(id, number, name) => AnsweredAnotherReleasesOnce(s, id, number, name);
    case ChannelDestroyed(id) =>
      DestroyedReleasesDialogsOnce(s, id);
      DestroyedReleasesTimersOnce(s, id);
    case TimerFired(t) => ExpiredReleasesOnce(s, t);
    case DialogFinished(h) => SignalsReleaseNothing(s, e);
    case DialogAttached(h, attached) => SignalsReleaseNothing(s, e);
    case CloseAllPopups => ClosedAllReleasesOnce(s);
  }

  // ---------------------------------------------------------------------------
  // Timer expiry.

  /** The timer of a free call closes and releases that call's dialog. */
  lemma ExpiryClosesFreeCall(s: Tables, id: CallId)
    requires Sound(s) && id in s.timers && id in s.free
    ensures var r := Expired(s, s.timers[id]);
      && r.free == s.free - {id} && r.pinned == s.pinned && r.timers == s.timers
      && !r.dialogs[s.free[id]].visible && r.dialogs[s.free[id]].released
  {
    KeyOfUnique(s.timers, id);
  }

  /** The timer of a pinned call closes nothing and leaves every table as it was. */
  lemma ExpirySparesPinnedCall(s: Tables, id: CallId)
    requires Inv(s) && id in s.timers && id in s.pinned
    ensures var r := Expired(s, s.timers[id]);
      && r.free == s.free && r.pinned == s.pinned && r.timers == s.timers
      && r.dialogs == s.dialogs
  {
    KeyOfUnique(s.timers, id);
  }

  /**
   * closeAllPopups leaves the timers registered; when they fire afterwards
   * they find no popup and change nothing but their own running flag.
   */
  lemma ExpiryAfterCloseAllIsInert(s: Tables, t: TimerId)
    requires WellFormed(s) && t in s.clocks
    ensures var c := ClosedAll(s);
      var r := Expired(c, t);
      r == c.(clocks := c.clocks[t := c.clocks[t].(running := false)])
  {
  }

  // ---------------------------------------------------------------------------
  // Dialog signals.

  /** processDialogFinished drops exactly the entry holding `h` and no other. */
  lemma FinishedDropsOneEntry(s: Tables, h: PopupId)
    requires Sound(s) && Registered(s, h)
    ensures var r := Finished(s, h);
      && !Registered(r, h)
      && (forall g :: g != h ==> (Registered(r, g) <==> Registered(s, g)))
      && |r.free| + |r.pinned| == |s.free| + |s.pinned| - 1
  {
    if h in s.free.Values {
      RemoveKey(s.free, KeyOf(s.free, h));
    } else {
      RemoveKey(s.pinned, KeyOf(s.pinned, h));
    }
  }

  /** Pinning moves the same dialog, under the same call id, to the pinned table. */
  lemma PinMovesEntry(s: Tables, id: CallId)
    requires Inv(s) && id in s.free
    ensures var r := AttachedEvent(s, s.free[id], true);
      && id !in r.free && id in r.pinned && r.pinned[id] == s.free[id]
      && r.free == s.free - {id} && r.pinned == s.pinned[id := s.free[id]]
      && r.timers == s.timers && r.clocks == s.clocks
      && Inv(r)
  {
    KeyOfUnique(s.free, id);
    StepKeepsInv(s, DialogAttached(s.free[id], true), 0);
  }

  /** Unpinning moves the same dialog, under the same call id, back to the free table. */
  lemma UnpinMovesEntry(s: Tables, id: CallId)
    requires Inv(s) && id in s.pinned
    ensures var r := AttachedEvent(s, s.pinned[id], false);
      && id !in r.pinned && id in r.free && r.free[id] == s.pinned[id]
      && r.pinned == s.pinned - {id} && r.free == s.free[id := s.pinned[id]]
      && r.timers == s.timers && r.clocks == s.clocks
      && Inv(r)
  {
    KeyOfUnique(s.pinned, id);
    StepKeepsInv(s, DialogAttached(s.pinned[id], false), 0);
  }

  /** Pinning then unpinning a free dialog restores every table. */
  lemma PinThenUnpinRestores(s: Tables, id: CallId)
    requires Inv(s) && id in s.free
    ensures var h := s.free[id];
      var p := AttachedEvent(s, h, true);
      h in p.pinned.Values && AttachedEvent(p, h, false) == s
  {
    var h := s.free[id];
    PinMovesEntry(s, id);
    var p := AttachedEvent(s, h, true);
    assert p.pinned[id] == h;
    KeyOfUnique(p.pinned, id);
    var r := AttachedEvent(p, h, false);
    assert r.free == s.free;
    assert r.pinned == s.pinned;
  }

  // ---------------------------------------------------------------------------
  // Scenarios.

  /** A call created and then destroyed leaves nothing under its id and releases both objects. */
  lemma CreateThenDestroy(s: Tables, id: CallId, caller: Caller, timeoutSecs: int)
    requires WellFormed(s) && id !in s.pinned
    ensures var c := Created(s, id, caller, timeoutSecs);
      var r := Destroyed(c, id);
      && id !in r.free && id !in r.pinned && id !in r.timers
      && !r.dialogs[c.free[id]].visible && r.dialogs[c.free[id]].released
      && !r.clocks[c.timers[id]].running && r.clocks[c.timers[id]].released
  {
  }

  /**
   * A call pinned while its timer runs survives the timer and the end of the
   * channel, still open in the pinned table; closing it by hand then removes it.
   */
  lemma PinnedCallSurvives(s: Tables, id: CallId, caller: Caller, timeoutSecs: int)
    requires Inv(s) && id !in s.pinned
    ensures var c := Created(s, id, caller, timeoutSecs);
      var h, t := c.free[id], c.timers[id];
      var p := AttachedEvent(c, h, true);
      var x := Expired(p, t);
      var d := Destroyed(x, id);
      var f := Finished(d, h);
      && d.pinned == p.pinned && d.pinned[id] == h
      && d.dialogs[h].visible && !d.dialogs[h].released
      && id !in f.pinned && id !in f.free
  {
    var c := Created(s, id, caller, timeoutSecs);
    StepKeepsInv(s, ChannelCreated(id, caller), timeoutSecs);
    var h, t := c.free[id], c.timers[id];
    PinMovesEntry(c, id);
    var p := AttachedEvent(c, h, true);
    ExpirySparesPinnedCall(p, id);
    var x := Expired(p, t);
    var d := Destroyed(x, id);
    assert d.pinned[id] == h;
    KeyOfUnique(d.pinned, id);
  }

  /**
   * A second onChannelCreated for a call id still in the free table replaces
   * the entry: the first dialog and timer stay open and running but are no
   * longer registered anywhere, so no channel or timer handler reaches them
   * (see PinnedOrphanFiledUnderNoKey for the one way back in).
   */
  lemma DuplicateCreateOrphans(s: Tables, id: CallId, caller: Caller, timeoutSecs: int)
    requires Sound(s) && id in s.free && id in s.timers
    ensures var r := Created(s, id, caller, timeoutSecs);
      var h, t := s.free[id], s.timers[id];
      && !Registered(r, h) && r.dialogs[h] == s.dialogs[h] && !r.dialogs[h].released
      && t !in r.timers.Values && r.clocks[t] == s.clocks[t] && !r.clocks[t].released
  {
    var r := Created(s, id, caller, timeoutSecs);
    assert r.free.Values <= (s.free.Values - {s.free[id]}) + {s.nextPopup};
    assert r.timers.Values <= (s.timers.Values - {s.timers[id]}) + {s.nextTimer};
  }

  /**
   * The orphaned dialog is still on screen and still connected: when the user
   * pins it, QHash::key finds no call id for it, so it is filed under NoKey in
   * the pinned table, displacing whatever NoKey held; closeAllPopups then
   * closes and releases it.
   */
  lemma PinnedOrphanFiledUnderNoKey(s: Tables, id: CallId, caller: Caller, timeoutSecs: int)
    requires Sound(s) && id in s.free && id in s.timers
    ensures var r := Created(s, id, caller, timeoutSecs);
      var h := s.free[id];
      var p := AttachedEvent(r, h, true);
      var c := ClosedAll(p);
      && CanAttach(r, h, true) && Sound(p)
      && p.pinned == r.pinned[NoKey := h] && p.free == r.free - {NoKey}
      && !c.dialogs[h].visible && c.dialogs[h].released
  {
    var r := Created(s, id, caller, timeoutSecs);
    var h := s.free[id];
    DuplicateCreateOrphans(s, id, caller, timeoutSecs);
    CreatedKeepsSound(s, id, caller, timeoutSecs);
    AttachedKeepsSound(r, h, true);
    var p := AttachedEvent(r, h, true);
    assert p.pinned[NoKey] == h;
    assert Registered(p, h);
  }
}
