/**
 * The entry store of the payment tracker: the component state of the app and
 * its handlers. Every handler that reaches the remote store takes the remote
 * store's answer as a parameter, and changes the local collection only after
 * that answer is a success.
 */
module Tracker {
  import opened Ledger

  /** The answer of a remote call that returns a value. */
  datatype Reply<T> = Ok(value: T) | Err

  /** The answer of a remote update or delete. */
  datatype Outcome = Done | Failed

  /** What the remote store assigns to a row it inserts. */
  datatype Stamp = Stamp(id: EntryId, createdAt: int)

  /** Timers are named by the ids `setTimeout` hands out. */
  type TimerId = nat

  class EntryStore {
    // the local collection and the selected tab
    var entries: seq<Entry>
    var activeTab: Status
    // the add form
    var addFormOpen: bool
    var nameInput: string
    var amountInput: string
    // notices
    var loading: bool
    var error: Option<ErrorKind>
    // the confirmation axis
    var deleteConfirmOpen: bool
    var entryToDelete: Option<Entry>
    // the undo axis
    var deletedEntry: Option<Entry>
    var showUndo: bool
    /** `undoTimeoutRef.current`: the id of the last timer scheduled; never reset. */
    var undoTimeoutRef: Option<TimerId>
    /** The timers scheduled and neither cleared nor fired yet. */
    var liveTimers: set<TimerId>
    /** The id the next `setTimeout` will hand out. */
    var nextTimerId: TimerId
    /** False once the component has been torn down. */
    var mounted: bool

    /** The delete dialog is open exactly when an entry is staged for it. */
    predicate ConfirmationValid()
      reads this
    {
      deleteConfirmOpen <==> entryToDelete.Some?
    }

    /**
     * At most one timer is live, and it is the one the ref names; a live timer
     * means a buffered entry and a visible undo button; while mounted, the
     * three go together.
     */
    predicate UndoValid()
      reads this
    {
      (undoTimeoutRef.Some? ==> undoTimeoutRef.value < nextTimerId) &&
      (liveTimers != {} ==> undoTimeoutRef.Some? && liveTimers == {undoTimeoutRef.value}) &&
      (liveTimers != {} ==> showUndo && deletedEntry.Some?) &&
      (mounted ==> (showUndo <==> liveTimers != {}) && (deletedEntry.Some? <==> liveTimers != {}))
    }

    predicate Valid()
      reads this
    {
      ConfirmationValid() && UndoValid()
    }

    /** Whether an undo timer is pending. */
    predicate TimerArmed()
      reads this
    {
      liveTimers != {}
    }

    /** The entries shown under the selected tab. */
    function VisibleEntries(): seq<Entry>
      reads this
    {
      FilteredEntries(entries, activeTab)
    }

    /** The total shown under the selected tab. */
    function VisibleTotal(): int
      reads this
    {
      TotalAmount(entries, activeTab)
    }

    /** The initial component state, before the load on mount. */
    constructor ()
      ensures Valid() && mounted
      ensures entries == [] && activeTab == Pending && loading && error == None
      ensures !addFormOpen && nameInput == "" && amountInput == ""
      ensures !deleteConfirmOpen && entryToDelete == None
      ensures deletedEntry == None && !showUndo && undoTimeoutRef == None && !TimerArmed()
    {
      entries := [];
      activeTab := Pending;
      addFormOpen := false;
      nameInput := "";
      amountInput := "";
      loading := true;
      error := None;
      deleteConfirmOpen := false;
      entryToDelete := None;
      deletedEntry := None;
      showUndo := false;
      undoTimeoutRef := None;
      liveTimers := {};
      nextTimerId := 1;
      mounted := true;
    }

    /**
     * Loads the collection: on success it replaces the local list by the rows
     * the store returned, on failure it keeps the old list and reports a load
     * error; either way loading ends.
     */
    method FetchEntries(reply: Reply<seq<Entry>>)
      requires Valid()
      modifies this
      ensures Valid()
      ensures !loading
      ensures reply.Ok? ==> entries == reply.value && error == None
      ensures reply.Err? ==> entries == old(entries) && error == Some(LoadError)
      ensures activeTab == old(activeTab) && addFormOpen == old(addFormOpen)
      ensures nameInput == old(nameInput) && amountInput == old(amountInput)
      ensures deleteConfirmOpen == old(deleteConfirmOpen) && entryToDelete == old(entryToDelete)
      ensures deletedEntry == old(deletedEntry) && showUndo == old(showUndo)
      ensures undoTimeoutRef == old(undoTimeoutRef) && liveTimers == old(liveTimers)
      ensures nextTimerId == old(nextTimerId) && mounted == old(mounted)
    {
      loading := true;
      error := None;
      match reply {
        case Ok(rows) =>
          entries := rows;
        case Err =>
          error := Some(LoadError);
      }
      loading := false;
    }

    /**
     * Submits the add form. With an empty name or amount field nothing is
     * sent and nothing changes. Otherwise the row (name, `parsedAmount`, the
     * selected tab) is inserted; on success the new entry is put in front of
     * the list and the form is cleared and closed, on failure only a save
     * error is reported. `parsedAmount` is the number the amount field parses
     * to; its sign is not checked.
     */
    method Add(parsedAmount: int, reply: Reply<Stamp>) returns (requested: bool)
      requires Valid()
      modifies this
      ensures Valid()
      ensures requested <==> old(nameInput) != "" && old(amountInput) != ""
      ensures !requested ==>
        entries == old(entries) && error == old(error) &&
        nameInput == old(nameInput) && amountInput == old(amountInput) && addFormOpen == old(addFormOpen)
      ensures requested && reply.Ok? ==>
        entries == [Entry(reply.value.id, old(nameInput), parsedAmount, activeTab, reply.value.createdAt)] + old(entries) &&
        error == None && nameInput == "" && amountInput == "" && !addFormOpen
      ensures requested && reply.Err? ==>
        entries == old(entries) && error == Some(SaveError) &&
        nameInput == old(nameInput) && amountInput == old(amountInput) && addFormOpen == old(addFormOpen)
      ensures activeTab == old(activeTab) && loading == old(loading)
      ensures deleteConfirmOpen == old(deleteConfirmOpen) && entryToDelete == old(entryToDelete)
      ensures deletedEntry == old(deletedEntry) && showUndo == old(showUndo)
      ensures undoTimeoutRef == old(undoTimeoutRef) && liveTimers == old(liveTimers)
      ensures nextTimerId == old(nextTimerId) && mounted == old(mounted)
    {
      if nameInput == "" || amountInput == "" {
        return false;
      }
      requested := true;
      error := None;
      match reply {
        case Ok(stamp) =>
          var newEntry := Entry(stamp.id, nameInput, parsedAmount, activeTab, stamp.createdAt);
          entries := [newEntry] + entries;
          nameInput := "";
          amountInput := "";
          addFormOpen := false;
        case Err =>
          error := Some(SaveError);
      }
    }

    /**
     * Marks every entry with `id` paid once the remote update succeeds; the
     * current status is not consulted. On failure only an update error is
     * reported.
     */
    method MarkAsPaid(id: EntryId, reply: Outcome)
      requires Valid()
      modifies this
      ensures Valid()
      ensures reply == Done ==> entries == MarkPaidIn(old(entries), id) && error == None
      ensures reply == Failed ==> entries == old(entries) && error == Some(UpdateError)
      ensures activeTab == old(activeTab) && loading == old(loading) && addFormOpen == old(addFormOpen)
      ensures nameInput == old(nameInput) && amountInput == old(amountInput)
      ensures deleteConfirmOpen == old(deleteConfirmOpen) && entryToDelete == old(entryToDelete)
      ensures deletedEntry == old(deletedEntry) && showUndo == old(showUndo)
      ensures undoTimeoutRef == old(undoTimeoutRef) && liveTimers == old(liveTimers)
      ensures nextTimerId == old(nextTimerId) && mounted == old(mounted)
    {
      error := None;
      if reply == Done {
        entries := MarkPaidIn(entries, id);
      } else {
        error := Some(UpdateError);
      }
    }

    /**
     * Stages the first entry with `id` for deletion and opens the dialog;
     * with no such entry nothing changes. No remote call is made.
     */
    method RequestDelete(id: EntryId)
      requires Valid()
      modifies this
      ensures Valid()
      ensures FindById(old(entries), id).None? ==>
        deleteConfirmOpen == old(deleteConfirmOpen) && entryToDelete == old(entryToDelete)
      ensures FindById(old(entries), id).Some? ==>
        deleteConfirmOpen && entryToDelete == FindById(old(entries), id)
      ensures entries == old(entries) && activeTab == old(activeTab) && error == old(error)
      ensures loading == old(loading) && addFormOpen == old(addFormOpen)
      ensures nameInput == old(nameInput) && amountInput == old(amountInput)
      ensures deletedEntry == old(deletedEntry) && showUndo == old(showUndo)
      ensures undoTimeoutRef == old(undoTimeoutRef) && liveTimers == old(liveTimers)
      ensures nextTimerId == old(nextTimerId) && mounted == old(mounted)
    {
      var found := FindById(entries, id);
      if found.Some? {
        entryToDelete := found;
        deleteConfirmOpen := true;
      }
    }

    /**
     * Confirms the staged deletion. With nothing staged nothing is sent and
     * nothing changes. Otherwise the staged id is deleted remotely; on success
     * its entries leave the list, the staged entry fills the undo buffer, the
     * undo button shows, any previous timer is cleared and a fresh one is
     * scheduled; on failure a delete error is reported. Either way the dialog
     * closes.
     */
    method ConfirmDelete(reply: Outcome) returns (requested: bool)
      requires Valid()
      modifies this
      ensures Valid()
      ensures requested <==> old(entryToDelete).Some?
      ensures !requested ==>
        entries == old(entries) && error == old(error) &&
        deleteConfirmOpen == old(deleteConfirmOpen) && entryToDelete == old(entryToDelete) &&
        deletedEntry == old(deletedEntry) && showUndo == old(showUndo) &&
        undoTimeoutRef == old(undoTimeoutRef) && liveTimers == old(liveTimers) &&
        nextTimerId == old(nextTimerId)
      ensures requested ==> !deleteConfirmOpen && entryToDelete == None
      ensures requested && reply == Done ==>
        entries == RemoveById(old(entries), old(entryToDelete).value.id) &&
        error == None &&
        deletedEntry == old(entryToDelete) && showUndo &&
        undoTimeoutRef == Some(old(nextTimerId)) && liveTimers == {old(nextTimerId)} &&
        nextTimerId == old(nextTimerId) + 1
      ensures requested && reply == Failed ==>
        entries == old(entries) && error == Some(DeleteError) &&
        deletedEntry == old(deletedEntry) && showUndo == old(showUndo) &&
        undoTimeoutRef == old(undoTimeoutRef) && liveTimers == old(liveTimers) &&
        nextTimerId == old(nextTimerId)
      ensures activeTab == old(activeTab) && loading == old(loading) && addFormOpen == old(addFormOpen)
      ensures nameInput == old(nameInput) && amountInput == old(amountInput)
      ensures mounted == old(mounted)
    {
      if entryToDelete.None? {
        return false;
      }
      requested := true;
      var staged := entryToDelete.value;
      error := None;
      if reply == Done {
        deletedEntry := entryToDelete;
        entries := RemoveById(entries, staged.id);
        deleteConfirmOpen := false;
        entryToDelete := None;
        showUndo := true;
        RestartUndoTimer();
      } else {
        error := Some(DeleteError);
        deleteConfirmOpen := false;
        entryToDelete := None;
      }
    }

    /**
     * Clears the timer the ref names, if any, and schedules a fresh one whose
     * id the ref then holds: afterwards exactly that new timer is live.
     */
    method RestartUndoTimer()
      requires undoTimeoutRef.Some? ==> undoTimeoutRef.value < nextTimerId
      requires liveTimers != {} ==> undoTimeoutRef.Some? && liveTimers == {undoTimeoutRef.value}
      modifies this`undoTimeoutRef, this`liveTimers, this`nextTimerId
      ensures undoTimeoutRef == Some(old(nextTimerId)) && liveTimers == {old(nextTimerId)}
      ensures nextTimerId == old(nextTimerId) + 1
      ensures old(undoTimeoutRef).Some? ==> undoTimeoutRef.value != old(undoTimeoutRef).value
    {
      if undoTimeoutRef.Some? {
        liveTimers := liveTimers - {undoTimeoutRef.value};
      }
      undoTimeoutRef := Some(nextTimerId);
      liveTimers := liveTimers + {nextTimerId};
      nextTimerId := nextTimerId + 1;
    }

    /** Either cancel button of the delete dialog: closes it, nothing else. */
    method CancelDelete()
      requires Valid()
      modifies this
      ensures Valid()
      ensures !deleteConfirmOpen && entryToDelete == None
      ensures entries == old(entries) && activeTab == old(activeTab) && error == old(error)
      ensures loading == old(loading) && addFormOpen == old(addFormOpen)
      ensures nameInput == old(nameInput) && amountInput == old(amountInput)
      ensures deletedEntry == old(deletedEntry) && showUndo == old(showUndo)
      ensures undoTimeoutRef == old(undoTimeoutRef) && liveTimers == old(liveTimers)
      ensures nextTimerId == old(nextTimerId) && mounted == old(mounted)
    {
      deleteConfirmOpen := false;
      entryToDelete := None;
    }

    /**
     * The undo timer `t` fires: the undo button hides and the buffer empties;
     * the list is untouched. Only a live timer can fire.
     */
    method Expire(t: TimerId)
      requires Valid()
      requires t in liveTimers
      modifies this
      ensures Valid()
      ensures !showUndo && deletedEntry == None && !TimerArmed()
      ensures entries == old(entries) && activeTab == old(activeTab) && error == old(error)
      ensures loading == old(loading) && addFormOpen == old(addFormOpen)
      ensures nameInput == old(nameInput) && amountInput == old(amountInput)
      ensures deleteConfirmOpen == old(deleteConfirmOpen) && entryToDelete == old(entryToDelete)
      ensures undoTimeoutRef == old(undoTimeoutRef)
      ensures nextTimerId == old(nextTimerId) && mounted == old(mounted)
    {
      liveTimers := liveTimers - {t};
      showUndo := false;
      deletedEntry := None;
    }

    /**
     * Re-creates the buffered entry. With an empty buffer nothing is sent and
     * nothing changes. Otherwise a row with the buffered name, amount and
     * status is inserted; on success the new entry (new id and timestamp) is
     * put in front of the list, the buffer empties, the button hides and the
     * timer is cleared; on failure a restore error is reported and buffer and
     * timer stay as they were.
     */
    method Undo(reply: Reply<Stamp>) returns (requested: bool)
      requires Valid()
      modifies this
      ensures Valid()
      ensures requested <==> old(deletedEntry).Some?
      ensures !requested ==> entries == old(entries) && error == old(error) && showUndo == old(showUndo)
      ensures requested && reply.Ok? ==>
        var d := old(deletedEntry).value;
        entries == [Entry(reply.value.id, d.name, d.amount, d.status, reply.value.createdAt)] + old(entries) &&
        error == None && deletedEntry == None && !showUndo && !TimerArmed()
      ensures requested && reply.Err? ==>
        entries == old(entries) && error == Some(RestoreError) &&
        deletedEntry == old(deletedEntry) && showUndo == old(showUndo) && liveTimers == old(liveTimers)
      ensures !(requested && reply.Ok?) ==> deletedEntry == old(deletedEntry) && liveTimers == old(liveTimers)
      ensures activeTab == old(activeTab) && loading == old(loading) && addFormOpen == old(addFormOpen)
      ensures nameInput == old(nameInput) && amountInput == old(amountInput)
      ensures deleteConfirmOpen == old(deleteConfirmOpen) && entryToDelete == old(entryToDelete)
      ensures undoTimeoutRef == old(undoTimeoutRef)
      ensures nextTimerId == old(nextTimerId) && mounted == old(mounted)
    {
      if deletedEntry.None? {
        return false;
      }
      requested := true;
      var d := deletedEntry.value;
      error := None;
      match reply {
        case Ok(stamp) =>
          var restored := Entry(stamp.id, d.name, d.amount, d.status, stamp.createdAt);
          entries := [restored] + entries;
          showUndo := false;
          deletedEntry := None;
          if undoTimeoutRef.Some? {
            liveTimers := liveTimers - {undoTimeoutRef.value};
          }
        case Err =>
          error := Some(RestoreError);
      }
    }

    /** Teardown: the pending timer, if any, is cleared so it never fires. */
    method Unmount()
      requires Valid()
      modifies this
      ensures Valid()
      ensures !mounted && !TimerArmed()
      ensures entries == old(entries) && activeTab == old(activeTab) && error == old(error)
      ensures loading == old(loading) && addFormOpen == old(addFormOpen)
      ensures nameInput == old(nameInput) && amountInput == old(amountInput)
      ensures deleteConfirmOpen == old(deleteConfirmOpen) && entryToDelete == old(entryToDelete)
      ensures deletedEntry == old(deletedEntry) && showUndo == old(showUndo)
      ensures undoTimeoutRef == old(undoTimeoutRef) && nextTimerId == old(nextTimerId)
    {
      if undoTimeoutRef.Some? {
        liveTimers := liveTimers - {undoTimeoutRef.value};
      }
      mounted := false;
    }

    /** A tab button: selects the tab, nothing else changes. */
    method SelectTab(tab: Status)
      requires Valid()
      modifies this`activeTab
      ensures Valid() && activeTab == tab
    {
      activeTab := tab;
    }

    /** The floating add button (`open`) and the close button of the add form. */
    method SetAddFormOpen(open: bool)
      requires Valid()
      modifies this`addFormOpen
      ensures Valid() && addFormOpen == open
    {
      addFormOpen := open;
    }

    /** Typing in the name field. */
    method EditName(text: string)
      requires Valid()
      modifies this`nameInput
      ensures Valid() && nameInput == text
    {
      nameInput := text;
    }

    /** Typing in the amount field. */
    method EditAmount(text: string)
      requires Valid()
      modifies this`amountInput
      ensures Valid() && amountInput == text
    {
      amountInput := text;
    }
  }
}
