/**
 * The values of the payment tracker: entries, their statuses, and the pure
 * list transforms the store applies to its local collection (mark-as-paid by
 * id, remove by id, find by id) together with the per-status view projection
 * (the filtered list and its total).
 */
module Ledger {

  /** Identifier assigned by the remote store; only compared for equality. */
  type EntryId = int

  /** The three tabs of the tracker; every entry belongs to exactly one. */
  datatype Status = Pending | Paid | Debit

  /** One recorded obligation. `amount` is in paise (hundredths of a rupee). */
  datatype Entry = Entry(id: EntryId, name: string, amount: int, status: Status, createdAt: int)

  /** The user-visible error notices, one per remote operation. */
  datatype ErrorKind = LoadError | SaveError | UpdateError | DeleteError | RestoreError

  datatype Option<T> = None | Some(value: T)

  /** No two entries of the collection share an id. */
  predicate UniqueIds(es: seq<Entry>)
  {
    forall i, j :: 0 <= i < j < |es| ==> es[i].id != es[j].id
  }

  /** `r` is `s` with some elements dropped and the rest kept in order. */
  predicate IsSubsequence(r: seq<Entry>, s: seq<Entry>)
    decreases |s|
  {
    if r == [] then true
    else if s == [] then false
    else if r[0] == s[0] then IsSubsequence(r[1..], s[1..])
    else IsSubsequence(r, s[1..])
  }

  // ---------------------------------------------------------------------
  // List transforms used by the handlers
  // ---------------------------------------------------------------------

  /** The first entry carrying `id`, if any. */
  function FindById(es: seq<Entry>, id: EntryId): (r: Option<Entry>)
    ensures r.None? <==> forall i :: 0 <= i < |es| ==> es[i].id != id
    ensures r.Some? ==>
      exists k :: 0 <= k < |es| && es[k] == r.value && es[k].id == id &&
        forall j :: 0 <= j < k ==> es[j].id != id
  {
    if es == [] then None
    else if es[0].id == id then Some(es[0])
    else
      var r := FindById(es[1..], id);
      if r.Some? then
        ghost var k :| 0 < k + 1 <= |es[1..]| && es[1..][k] == r.value && es[1..][k].id == id &&
          forall j :: 0 <= j < k ==> es[1..][j].id != id;
        assert es[k + 1] == r.value;
        assert forall j :: 0 <= j < k + 1 ==> es[j].id != id by {
          forall j | 0 <= j < k + 1 ensures es[j].id != id {
            if j > 0 { assert es[j] == es[1..][j - 1]; }
          }
        }
        r
      else r
  }

  /** The list with every entry carrying `id` switched to paid, in place. */
  function MarkPaidIn(es: seq<Entry>, id: EntryId): (r: seq<Entry>)
    ensures |r| == |es|
    ensures forall i :: 0 <= i < |es| ==>
      r[i].id == es[i].id && r[i].name == es[i].name &&
      r[i].amount == es[i].amount && r[i].createdAt == es[i].createdAt
    ensures forall i :: 0 <= i < |es| && es[i].id == id ==> r[i].status == Paid
    ensures forall i :: 0 <= i < |es| && es[i].id != id ==> r[i] == es[i]
  {
    if es == [] then []
    else
      var head := if es[0].id == id then es[0].(status := Paid) else es[0];
      var tail := MarkPaidIn(es[1..], id);
      assert forall i :: 0 < i < |es| ==> ([head] + tail)[i] == tail[i - 1];
      [head] + tail
  }

  /** The list without the entries carrying `id`, the others in their order. */
  function RemoveById(es: seq<Entry>, id: EntryId): seq<Entry>
  {
    if es == [] then []
    else if es[0].id == id then RemoveById(es[1..], id)
    else [es[0]] + RemoveById(es[1..], id)
  }

  /**
   * Removal keeps every occurrence of every entry not carrying `id`, and
   * nothing else: as multisets, exactly the entries with `id` are gone.
   */
  lemma {:induction false} RemovedCounts(es: seq<Entry>, id: EntryId)
    ensures forall e :: e in RemoveById(es, id) <==> e in es && e.id != id
    ensures forall e :: multiset(RemoveById(es, id))[e] == if e.id == id then 0 else multiset(es)[e]
  {
    if es != [] {
      assert es == [es[0]] + es[1..];
      RemovedCounts(es[1..], id);
    }
  }

  // ---------------------------------------------------------------------
  // The view projection
  // ---------------------------------------------------------------------

  /** The entries whose status is `tab`, in the order of the list. */
  function FilteredEntries(es: seq<Entry>, tab: Status): seq<Entry>
  {
    if es == [] then []
    else if es[0].status == tab then [es[0]] + FilteredEntries(es[1..], tab)
    else FilteredEntries(es[1..], tab)
  }

  /**
   * The view holds every occurrence of every entry whose status is `tab`, and
   * nothing else.
   */
  lemma {:induction false} FilteredCounts(es: seq<Entry>, tab: Status)
    ensures forall e :: e in FilteredEntries(es, tab) <==> e in es && e.status == tab
    ensures forall e :: multiset(FilteredEntries(es, tab))[e] == if e.status == tab then multiset(es)[e] else 0
  {
    if es != [] {
      assert es == [es[0]] + es[1..];
      FilteredCounts(es[1..], tab);
    }
  }

  /** The sum of the amounts of a list, starting from zero. */
  function SumAmounts(es: seq<Entry>): int
  {
    if es == [] then 0 else es[0].amount + SumAmounts(es[1..])
  }

  /** The total shown under the tab. */
  function TotalAmount(es: seq<Entry>, tab: Status): int
  {
    SumAmounts(FilteredEntries(es, tab))
  }

  /** Reference definition: the amounts of the entries that carry `id` and status `st`. */
  function AmountWith(es: seq<Entry>, id: EntryId, st: Status): int
  {
    if es == [] then 0
    else (if es[0].id == id && es[0].status == st then es[0].amount else 0) + AmountWith(es[1..], id, st)
  }

  /** Reference definition: every entry contributes its amount if its status is `tab`, else nothing. */
  function StatusSum(es: seq<Entry>, tab: Status): int
  {
    if es == [] then 0
    else (if es[0].status == tab then es[0].amount else 0) + StatusSum(es[1..], tab)
  }

  // ---------------------------------------------------------------------
  // Properties of the projection
  // ---------------------------------------------------------------------

  /** The filtered list keeps the order of the collection. */
  lemma {:induction false} FilteredIsSubsequence(es: seq<Entry>, tab: Status)
    ensures IsSubsequence(FilteredEntries(es, tab), es)
  {
    if es != [] {
      FilteredIsSubsequence(es[1..], tab);
      var tail := FilteredEntries(es[1..], tab);
      if es[0].status == tab {
        assert ([es[0]] + tail)[1..] == tail;
      } else if tail != [] {
        // the head of `tail` has status `tab`, so it cannot be matched with es[0]
        FilteredCounts(es[1..], tab);
        assert tail[0] in tail;
      }
    }
  }

  /** Removal by id keeps the order of the remaining entries. */
  lemma {:induction false} RemovedIsSubsequence(es: seq<Entry>, id: EntryId)
    ensures IsSubsequence(RemoveById(es, id), es)
  {
    if es != [] {
      RemovedIsSubsequence(es[1..], id);
      var tail := RemoveById(es[1..], id);
      if es[0].id != id {
        assert ([es[0]] + tail)[1..] == tail;
      } else if tail != [] {
        // the head of `tail` does not carry `id`, so it cannot be matched with es[0]
        RemovedCounts(es[1..], id);
        assert tail[0] in tail;
      }
    }
  }

  /** One step of the filter on a list built by prepending. */
  lemma FilteredCons(x: Entry, t: seq<Entry>, tab: Status)
    ensures FilteredEntries([x] + t, tab) == if x.status == tab then [x] + FilteredEntries(t, tab) else FilteredEntries(t, tab)
  {
    assert ([x] + t)[0] == x && ([x] + t)[1..] == t;
  }

  lemma ConsAppend(a: seq<Entry>, b: seq<Entry>)
    requires a != []
    ensures a + b == [a[0]] + (a[1..] + b) && a == [a[0]] + a[1..]
  {
  }

  /** Filtering distributes over concatenation: order within and across parts is kept. */
  lemma {:induction false} FilteredAppend(a: seq<Entry>, b: seq<Entry>, tab: Status)
    ensures FilteredEntries(a + b, tab) == FilteredEntries(a, tab) + FilteredEntries(b, tab)
  {
    if a == [] {
      assert a + b == b;
    } else {
      FilteredAppend(a[1..], b, tab);
      ConsAppend(a, b);
      FilteredCons(a[0], a[1..] + b, tab);
      FilteredCons(a[0], a[1..], tab);
    }
  }

  /** Recomputing the projection on its own output changes nothing. */
  lemma {:induction false} FilteredIdempotent(es: seq<Entry>, tab: Status)
    ensures FilteredEntries(FilteredEntries(es, tab), tab) == FilteredEntries(es, tab)
  {
    if es != [] {
      FilteredIdempotent(es[1..], tab);
      var tail := FilteredEntries(es[1..], tab);
      if es[0].status == tab {
        assert ([es[0]] + tail)[1..] == tail;
      }
    }
  }

  /** The total of a tab is the sum over exactly its entries; other statuses never contribute. */
  lemma {:induction false} TotalIsStatusSum(es: seq<Entry>, tab: Status)
    ensures TotalAmount(es, tab) == StatusSum(es, tab)
  {
    if es != [] {
      TotalIsStatusSum(es[1..], tab);
      var tail := FilteredEntries(es[1..], tab);
      if es[0].status == tab {
        assert ([es[0]] + tail)[1..] == tail;
      }
    }
  }

  /** Prepending an entry changes only the total of its own tab, by its amount. */
  lemma PrependTotal(e: Entry, es: seq<Entry>, tab: Status)
    ensures TotalAmount([e] + es, tab) == (if e.status == tab then e.amount else 0) + TotalAmount(es, tab)
  {
    assert ([e] + es)[1..] == es;
    TotalIsStatusSum([e] + es, tab);
    TotalIsStatusSum(es, tab);
  }

  // ---------------------------------------------------------------------
  // How the handlers' list transforms move the totals
  // ---------------------------------------------------------------------

  /** Marking `id` paid, stated on the reference sum of each tab. */
  lemma {:induction false} MarkPaidStatusSum(es: seq<Entry>, id: EntryId, tab: Status)
    ensures StatusSum(MarkPaidIn(es, id), tab) ==
      if tab == Paid then StatusSum(es, Paid) + AmountWith(es, id, Pending) + AmountWith(es, id, Debit)
      else StatusSum(es, tab) - AmountWith(es, id, tab)
  {
    if es != [] {
      var r := MarkPaidIn(es, id);
      assert r[1..] == MarkPaidIn(es[1..], id);
      MarkPaidStatusSum(es[1..], id, tab);
    }
  }

  /**
   * Marking `id` paid moves the amounts of its pending and debit entries into
   * the paid total and out of their own tabs.
   */
  lemma MarkPaidMovesTotals(es: seq<Entry>, id: EntryId)
    ensures TotalAmount(MarkPaidIn(es, id), Paid)
      == TotalAmount(es, Paid) + AmountWith(es, id, Pending) + AmountWith(es, id, Debit)
    ensures TotalAmount(MarkPaidIn(es, id), Pending) == TotalAmount(es, Pending) - AmountWith(es, id, Pending)
    ensures TotalAmount(MarkPaidIn(es, id), Debit) == TotalAmount(es, Debit) - AmountWith(es, id, Debit)
  {
    forall tab | true
      ensures TotalAmount(MarkPaidIn(es, id), tab) == StatusSum(MarkPaidIn(es, id), tab)
      ensures TotalAmount(es, tab) == StatusSum(es, tab)
    {
      TotalIsStatusSum(MarkPaidIn(es, id), tab);
      TotalIsStatusSum(es, tab);
    }
    MarkPaidStatusSum(es, id, Paid);
    MarkPaidStatusSum(es, id, Pending);
    MarkPaidStatusSum(es, id, Debit);
  }

  /** Removing `id` takes exactly the amounts of its entries out of each tab's total. */
  lemma {:induction false} RemoveTotal(es: seq<Entry>, id: EntryId, tab: Status)
    ensures TotalAmount(RemoveById(es, id), tab) == TotalAmount(es, tab) - AmountWith(es, id, tab)
  {
    if es != [] {
      RemoveTotal(es[1..], id, tab);
      assert es == [es[0]] + es[1..];
      PrependTotal(es[0], es[1..], tab);
      if es[0].id != id {
        PrependTotal(es[0], RemoveById(es[1..], id), tab);
      }
    }
  }

  /** With unique ids, the amount carried by `id` is that of the one entry found for it. */
  lemma {:induction false} AmountWithFound(es: seq<Entry>, id: EntryId, tab: Status)
    requires UniqueIds(es)
    ensures AmountWith(es, id, tab) ==
      match FindById(es, id)
      case None => 0
      case Some(e) => if e.status == tab then e.amount else 0
  {
    if es != [] {
      assert UniqueIds(es[1..]) by {
        forall i, j | 0 <= i < j < |es[1..]| ensures es[1..][i].id != es[1..][j].id {
          assert es[1..][i] == es[i + 1] && es[1..][j] == es[j + 1];
        }
      }
      AmountWithFound(es[1..], id, tab);
      if es[0].id == id {
        AmountWithAbsent(es[1..], id, tab);
      }
    }
  }

  /** An id that no entry carries contributes nothing. */
  lemma {:induction false} AmountWithAbsent(es: seq<Entry>, id: EntryId, tab: Status)
    requires forall i :: 0 <= i < |es| ==> es[i].id != id
    ensures AmountWith(es, id, tab) == 0
  {
    if es != [] {
      AmountWithAbsent(es[1..], id, tab);
    }
  }

  /**
   * Delete-then-undo: removing the entry found for `id` and prepending its
   * re-created copy (same name, amount and status, new id and timestamp)
   * leaves every tab's total as it was.
   */
  lemma UndoRestoresTotals(es: seq<Entry>, id: EntryId, newId: EntryId, createdAt: int, tab: Status)
    requires UniqueIds(es)
    requires FindById(es, id).Some?
    ensures
      var e := FindById(es, id).value;
      TotalAmount([e.(id := newId, createdAt := createdAt)] + RemoveById(es, id), tab) == TotalAmount(es, tab)
  {
    var e := FindById(es, id).value;
    PrependTotal(e.(id := newId, createdAt := createdAt), RemoveById(es, id), tab);
    RemoveTotal(es, id, tab);
    AmountWithFound(es, id, tab);
  }

  // ---------------------------------------------------------------------
  // Identity of entries under the transforms
  // ---------------------------------------------------------------------

  /** Removing by id keeps the ids unique. */
  lemma {:induction false} RemoveKeepsUniqueIds(es: seq<Entry>, id: EntryId)
    requires UniqueIds(es)
    ensures UniqueIds(RemoveById(es, id))
  {
    if es != [] {
      assert UniqueIds(es[1..]) by {
        forall i, j | 0 <= i < j < |es[1..]| ensures es[1..][i].id != es[1..][j].id {
          assert es[1..][i] == es[i + 1] && es[1..][j] == es[j + 1];
        }
      }
      RemoveKeepsUniqueIds(es[1..], id);
      var tail := RemoveById(es[1..], id);
      if es[0].id != id {
        RemovedCounts(es[1..], id);
        forall j | 0 <= j < |tail| ensures tail[j].id != es[0].id {
          assert tail[j] in es[1..];
        }
        PrependKeepsUniqueIds(es[0], tail);
      }
    }
  }

  /** Prepending an entry whose id is not yet used keeps the ids unique. */
  lemma PrependKeepsUniqueIds(e: Entry, es: seq<Entry>)
    requires UniqueIds(es)
    requires forall j :: 0 <= j < |es| ==> es[j].id != e.id
    ensures UniqueIds([e] + es)
  {
    forall i, j | 0 <= i < j < |[e] + es| ensures ([e] + es)[i].id != ([e] + es)[j].id {
      if i > 0 { assert ([e] + es)[i] == es[i - 1]; }
      assert ([e] + es)[j] == es[j - 1];
    }
  }

  /** After removal no entry with `id` is left, under any tab. */
  lemma {:induction false} RemovedLeavesNoTab(es: seq<Entry>, id: EntryId, tab: Status)
    ensures forall e :: e in FilteredEntries(RemoveById(es, id), tab) ==> e.id != id
  {
    FilteredCounts(RemoveById(es, id), tab);
    RemovedCounts(es, id);
  }

  /**
   * After marking `id` paid, no entry with `id` is left under the pending or
   * debit tab, and each of its entries shows, marked paid, under the paid tab.
   */
  lemma MarkPaidMovesView(es: seq<Entry>, id: EntryId)
    ensures forall e :: e in FilteredEntries(MarkPaidIn(es, id), Pending) ==> e.id != id
    ensures forall e :: e in FilteredEntries(MarkPaidIn(es, id), Debit) ==> e.id != id
    ensures forall i :: 0 <= i < |es| && es[i].id == id ==>
      es[i].(status := Paid) in FilteredEntries(MarkPaidIn(es, id), Paid)
  {
    var r := MarkPaidIn(es, id);
    FilteredCounts(r, Pending);
    FilteredCounts(r, Debit);
    FilteredCounts(r, Paid);
    forall e | e in r && e.status != Paid ensures e.id != id {
      var i :| 0 <= i < |r| && r[i] == e;
    }
    forall i | 0 <= i < |es| && es[i].id == id
      ensures es[i].(status := Paid) in FilteredEntries(r, Paid)
    {
      assert r[i] == es[i].(status := Paid);
      assert r[i] in r;
    }
  }
}
