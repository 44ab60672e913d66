# Payment tracker entry store, in Dafny

This project models the entry store of the Oraadz payment tracker, the React component `App` in `src/App.jsx`. The tracker keeps a list of named amounts. Each amount is filed under one of three tabs: pending, paid or debit. The list mirrors a remote `entries` table.

The model has three modules:

- `Ledger` (`ledger.dfy`) holds the values and the pure list work. It defines `Entry`, `Status` and `ErrorKind`. It defines the list transforms the handlers apply: `FindById` (`entries.find`), `MarkPaidIn` (the `map` that sets `status: "paid"`) and `RemoveById` (the `filter` on id). It defines the view projection: `FilteredEntries` and `TotalAmount`. Lemmas state what these functions mean and how the transforms move each tab's total.
- `Tracker` (`tracker.dfy`) holds the class `EntryStore`. Its fields are the component's state variables. Its methods are the handlers, the timer callback, the unmount cleanup, the small UI setters, and one helper, `RestartUndoTimer`, for the clear-and-reschedule step of `ConfirmDelete`. Each handler's `ensures` gives the complete new state in terms of the old one. Every handler, the callback, the cleanup and every setter keep the invariant `Valid()`:
  - the delete dialog is open exactly when an entry is staged for deletion;
  - at most one undo timer is live, and it is the one `undoTimeoutRef` names;
  - a live timer implies a buffered entry and a visible undo button;
  - while the component is mounted, the buffer, the undo button and the live timer appear and disappear together.

  The helper `RestartUndoTimer` neither requires nor ensures `Valid()`. It runs after `ConfirmDelete` has already set the buffer and the undo button, at a point where the mounted clause does not hold. It requires only the two timer clauses of `UndoValid`: the ref names a timer id already handed out, and the only live timer is the one the ref names.
- `Scenarios` (`scenarios.dfy`) holds client methods. Each one runs several handlers in a row: delete then undo, delete then expiry then a late undo, two deletes in a row, and a worked example that adds, marks paid, deletes and restores one entry.

Remote calls are not executed. Each handler that calls the remote store takes that store's answer as a parameter:
- `Reply<seq<Entry>>` for the select that loads the list;
- `Reply<Stamp>` for an insert, where a `Stamp` is the server-assigned id and `created_at`;
- `Outcome` (`Done` or `Failed`) for an update or a delete.

A failed call takes the path of the source's `catch` block. Amounts are integers (paise). The 5000 ms timeout is a discrete event, `Expire(t)`, that only a live timer `t` can raise. Timers are identified by the ids `setTimeout` returns. The source never resets `undoTimeoutRef.current`, and the model keeps that too: after a clear or a firing, the ref still names the old timer, which is no longer live.

Where the code departs from the tracker's stated design, the model follows the code:
- `handleAdd` checks only that the name and amount fields are non-empty strings (line 61). It does not reject negative or non-numeric amounts.
- `handleMarkAsPaid` does not check that a local entry with the id exists, and it does not look at the current status. On success it maps over the whole list and marks every entry with that id paid.
- `handleUndo` re-inserts the buffered entry's name, amount and status. The copy gets a new id and timestamp.

## Model

| member | source | states |
|---|---|---|
| Ledger.FindById | src/App.jsx:118 | returns `None` exactly when no entry has the id; otherwise returns an entry of the list with that id, and no earlier entry has that id (the first match) |
| Ledger.MarkPaidIn | src/App.jsx:105-109 | the length and order are kept; every entry keeps its id, name, amount and timestamp; entries with the id get status paid; every other entry is unchanged |
| Ledger.RemoveById | src/App.jsx:141 | the `filter` on id that confirmDelete applies; it has no contract of its own. RemovedCounts and RemovedIsSubsequence characterise it: together they fix its result on every input |
| Ledger.RemovedCounts | src/App.jsx:141 | an entry is in the result exactly when it is in the list and does not carry the id; as multisets, the result is the list minus exactly the entries with the id |
| Ledger.RemovedIsSubsequence | src/App.jsx:141 | removal keeps the remaining entries in their original order |
| Ledger.RemoveKeepsUniqueIds | src/App.jsx:141 | removal keeps ids unique |
| Ledger.PrependKeepsUniqueIds | src/App.jsx:84 | prepending an entry whose id is not yet used keeps ids unique |
| Ledger.FilteredEntries | src/App.jsx:207 | the `filter` on the selected tab; it has no contract of its own. FilteredCounts and FilteredIsSubsequence characterise it: together they fix its result on every input |
| Ledger.FilteredCounts | src/App.jsx:207 | the view holds exactly the entries whose status is the tab, with every one of their occurrences |
| Ledger.FilteredIsSubsequence | src/App.jsx:207 | the view keeps the list's order |
| Ledger.FilteredCons | src/App.jsx:207 | on a list built by prepending, the filter keeps the head when its status is the tab and drops it otherwise |
| Ledger.FilteredAppend | src/App.jsx:207 | filtering distributes over concatenation |
| Ledger.FilteredIdempotent | src/App.jsx:207 | filtering the view again by the same tab returns the same view |
| Ledger.SumAmounts | src/App.jsx:209-212 | the `reduce` that adds the amounts from zero; it has no contract of its own. TotalIsStatusSum and PrependTotal state its effect on the filtered view |
| Ledger.TotalAmount | src/App.jsx:207-212 | the total under a tab, the sum of the filtered view; it has no contract of its own. TotalIsStatusSum equates it with the one-pass reference sum `StatusSum` |
| Ledger.TotalIsStatusSum | src/App.jsx:207-212 | the tab's total equals the sum in which each entry adds its amount if its status is the tab and nothing otherwise, so other statuses never contribute |
| Ledger.PrependTotal | src/App.jsx:207-212 | prepending an entry raises only its own tab's total, by its amount |
| Ledger.MarkPaidStatusSum | src/App.jsx:105-109 | marking an id paid moves that id's pending and debit amounts into the paid sum and out of their own sums |
| Ledger.MarkPaidMovesTotals | src/App.jsx:105-109 | marking an id paid raises the paid total by that id's pending and debit amounts and lowers the pending and debit totals by the same amounts |
| Ledger.MarkPaidMovesView | src/App.jsx:105-109 | after marking an id paid, no entry with that id is left under the pending or debit tab, and each of its entries shows under the paid tab with status paid |
| Ledger.RemoveTotal | src/App.jsx:141 | removing an id lowers each tab's total by exactly the amounts that id's entries had under that tab |
| Ledger.RemovedLeavesNoTab | src/App.jsx:141 | after removal, no tab shows an entry with the removed id |
| Ledger.AmountWithFound | src/App.jsx:118 | with unique ids, the amount carried by an id is that of the entry `FindById` returns for it |
| Ledger.AmountWithAbsent | src/App.jsx:118 | an id that no entry carries adds nothing to any tab |
| Ledger.UndoRestoresTotals | src/App.jsx:141-193 | with unique ids, removing the found entry and prepending its copy, which keeps the name, amount and status but has a new id and timestamp, leaves every tab's total unchanged |
| Tracker.EntryStore.VisibleEntries | src/App.jsx:207 | `FilteredEntries` of the store's list under its selected tab; it has no contract of its own, and the Ledger lemmas about `FilteredEntries` apply to it |
| Tracker.EntryStore.VisibleTotal | src/App.jsx:209-212 | `TotalAmount` of the store's list under its selected tab; it has no contract of its own, and the Ledger lemmas about `TotalAmount` apply to it |
| Tracker.EntryStore.constructor | src/App.jsx:6-17 | the initial state: empty list, pending tab, loading, no error, dialog closed, nothing staged or buffered, no timer |
| Tracker.EntryStore.FetchEntries | src/App.jsx:33-57 | on success the list becomes the fetched rows and the error clears; on failure the list is kept and the error is a load error; loading ends either way; nothing else changes |
| Tracker.EntryStore.Add | src/App.jsx:59-92 | the remote insert is requested exactly when neither field is empty. Otherwise nothing changes. On success exactly one entry is prepended: it has the server id, the typed name, the amount and the selected tab as status. The rest of the list is unchanged, and the form is cleared and closed. On failure the list and form are kept and the error is a save error |
| Tracker.EntryStore.MarkAsPaid | src/App.jsx:94-114 | on success the list becomes `MarkPaidIn` of the old list and the error clears; on failure the list is unchanged and the error is an update error; there is no status precondition |
| Tracker.EntryStore.RequestDelete | src/App.jsx:116-123 | the list and the error are unchanged; when no entry has the id nothing changes; otherwise the first entry with the id is staged and the dialog opens |
| Tracker.EntryStore.ConfirmDelete | src/App.jsx:125-166 | nothing is requested or changed when nothing is staged. On success the staged id's entries are removed, the staged entry becomes the buffer, the undo button shows, and exactly one fresh timer is live. On failure the list and undo state are kept and the error is a delete error. Requested either way, the dialog closes |
| Tracker.EntryStore.RestartUndoTimer | src/App.jsx:150-159 | clears the timer the ref names and schedules a new one with a fresh id; afterwards that is the only live timer |
| Tracker.EntryStore.CancelDelete | src/App.jsx:428-431 | closes the dialog and unstages the entry; nothing else changes |
| Tracker.EntryStore.Expire | src/App.jsx:156-159 | only a live timer fires; afterwards the undo button is hidden, the buffer is empty and no timer is live; the list is untouched |
| Tracker.EntryStore.Undo | src/App.jsx:168-205 | nothing is requested or changed when the buffer is empty. On success a copy of the buffered entry is prepended, with its name, amount and status and the server's new id. The buffer empties, the button hides and no timer is live. On failure the list, buffer, button and timer are kept and the error is a restore error |
| Tracker.EntryStore.Unmount | src/App.jsx:25-31 | no timer is live after teardown; no other state changes |
| Tracker.EntryStore.SelectTab | src/App.jsx:230 | selects the tab |
| Tracker.EntryStore.SetAddFormOpen | src/App.jsx:348 | opens the add form (and, with `false`, closes it as at line 366) |
| Tracker.EntryStore.EditName | src/App.jsx:385 | the name field holds the typed text |
| Tracker.EntryStore.EditAmount | src/App.jsx:401 | the amount field holds the typed text |
| Scenarios.DeleteThenUndo | src/App.jsx:116-205 | delete, then undo before expiry: the list is the re-created copy in front of the other entries, the buffer is empty, no timer is live, and with unique ids every tab's total is unchanged |
| Scenarios.LateUndoIsNoOp | src/App.jsx:156-169 | delete, let the timer fire, then undo: the undo sends nothing, the entry stays removed and the buffer is empty |
| Scenarios.AshaWalkthrough | src/App.jsx:59-205 | a worked example: add "Asha" for 150.00 under pending, mark it paid, delete it, undo. The final list is one entry named "Asha" with that amount, status paid and the new id |
| Scenarios.SecondDeleteTakesSlot | src/App.jsx:125-166 | two deletes in a row: the buffer holds only the second entry, exactly one timer is live, and the first deletion's timer can no longer fire |

Both cancel buttons of the delete dialog (src/App.jsx:428-431 and 454-457) run the same code, which `CancelDelete` models.

## Left out

- Rendering, styling and icons (src/App.jsx:214-475). This is presentation; only the handlers the buttons call are modelled. The mark-paid button is shown only for pending entries, but `handleMarkAsPaid` itself does not check the status, so `MarkAsPaid` has no status precondition.
- The Supabase client and query builder. The remote store is foreign code. Its answers are parameters, and each insert is assumed to return the row as sent, with the server-assigned id and timestamp.
- `parseFloat` and `toFixed(2)`. These are floating-point parsing and display; amounts are integers in paise. `Add` takes the parsed amount as a parameter beside the form's text.
- Async interleaving, stale closures over `entries`, and wall-clock time. Each handler is one atomic step, and the 5000 ms timeout is the `Expire` event. The intermediate state `loading == true` during a fetch is not observable in this model.
- `console.error` logging and the error strings. `error` is an optional `ErrorKind`.
- vite.config.js. This is build tooling plus a debug-log file write, with no logic of the store.
