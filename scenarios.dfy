/**
 * Clients of the entry store that run several handlers in a row, and what the
 * handlers' contracts let them conclude.
 */
module Scenarios {
  import opened Ledger
  import opened Tracker

  /**
   * Delete an entry and undo before the timer fires: the list holds a copy of
   * the deleted entry with its name, amount and status but the new id, in
   * front of the other entries; the buffer is empty and no timer is live.
   * With unique ids, every tab's total is what it was before.
   */
  method DeleteThenUndo(store: EntryStore, id: EntryId, stamp: Stamp)
    requires store.Valid()
    requires FindById(store.entries, id).Some?
    modifies store
    ensures store.Valid()
    ensures
      var e := FindById(old(store.entries), id).value;
      store.entries == [e.(id := stamp.id, createdAt := stamp.createdAt)] + RemoveById(old(store.entries), id)
    ensures store.deletedEntry == None && !store.showUndo && !store.TimerArmed()
    ensures UniqueIds(old(store.entries)) ==>
      forall tab :: TotalAmount(store.entries, tab) == TotalAmount(old(store.entries), tab)
  {
    ghost var before := store.entries;
    store.RequestDelete(id);
    var sent := store.ConfirmDelete(Done);
    sent := store.Undo(Ok(stamp));
    if UniqueIds(before) {
      forall tab {
        UndoRestoresTotals(before, id, stamp.id, stamp.createdAt, tab);
      }
    }
  }

  /**
   * Delete an entry and let the timer fire: the buffer is empty, the entry
   * stays gone, and a late undo sends nothing and changes nothing.
   */
  method LateUndoIsNoOp(store: EntryStore, id: EntryId, reply: Reply<Stamp>) returns (sent: bool)
    requires store.Valid()
    requires FindById(store.entries, id).Some?
    modifies store
    ensures store.Valid()
    ensures !sent
    ensures store.entries == RemoveById(old(store.entries), id)
    ensures store.deletedEntry == None && !store.showUndo && !store.TimerArmed()
  {
    store.RequestDelete(id);
    sent := store.ConfirmDelete(Done);
    store.Expire(store.undoTimeoutRef.value);
    ghost var expired := store.entries;
    sent := store.Undo(reply);
    assert store.entries == expired;
  }

  /**
   * Two deletions in a row: the buffer holds only the second entry, exactly
   * one timer is live, and the first deletion's timer can no longer fire.
   */
  method SecondDeleteTakesSlot(store: EntryStore, id1: EntryId, id2: EntryId) returns (first: TimerId)
    requires store.Valid()
    requires FindById(store.entries, id1).Some?
    requires FindById(RemoveById(store.entries, id1), id2).Some?
    modifies store
    ensures store.Valid()
    ensures store.deletedEntry == FindById(RemoveById(old(store.entries), id1), id2)
    ensures store.entries == RemoveById(RemoveById(old(store.entries), id1), id2)
    ensures first !in store.liveTimers && |store.liveTimers| == 1
  {
    store.RequestDelete(id1);
    var sent := store.ConfirmDelete(Done);
    first := store.undoTimeoutRef.value;
    store.RequestDelete(id2);
    sent := store.ConfirmDelete(Done);
  }

  /**
   * A worked example: add "Asha" for 150.00 under pending, mark it paid,
   * delete it, undo; the copy comes back under paid with a new id.
   */
  method AshaWalkthrough() returns (final: seq<Entry>)
    ensures final == [Entry(2, "Asha", 15000, Paid, 200)]
  {
    var store := new EntryStore();
    store.FetchEntries(Ok([]));
    store.SetAddFormOpen(true);
    store.EditName("Asha");
    store.EditAmount("150.00");
    var sent := store.Add(15000, Ok(Stamp(1, 100)));
    assert store.entries == [Entry(1, "Asha", 15000, Pending, 100)] + [];
    PrependTotal(Entry(1, "Asha", 15000, Pending, 100), [], Pending);
    assert store.VisibleTotal() == 15000;

    store.MarkAsPaid(1, Done);
    assert store.entries == [Entry(1, "Asha", 15000, Paid, 100)] + [];
    PrependTotal(Entry(1, "Asha", 15000, Paid, 100), [], Paid);
    assert TotalAmount(store.entries, Pending) == 0;
    assert TotalAmount(store.entries, Paid) == 15000;

    store.RequestDelete(1);
    sent := store.ConfirmDelete(Done);
    assert store.entries == [];
    assert store.deletedEntry == Some(Entry(1, "Asha", 15000, Paid, 100));

    sent := store.Undo(Ok(Stamp(2, 200)));
    assert store.entries == [Entry(2, "Asha", 15000, Paid, 200)];
    assert TotalAmount(store.entries, Paid) == 15000;
    final := store.entries;
  }
}
