/** The merged view written out: which entries share a row, what each row says, and in which order. */
module MergedRows {
  import opened Outcomes
  import opened Ledger
  import opened MergedLedger

  /** A charge, settlement or refund that names its call. */
  predicate OfCall(e: Entry) { (e.entryType == Consume || e.entryType == SettleAdjust || e.entryType == EntryType.Refund) && e.requestId != "" }

  /** Two entries share a row exactly when they belong to the same call, or are the same entry. */
  lemma SameRowIff(x: Item, y: Item)
    ensures KeyOf(x) == KeyOf(y) <==>
      if OfCall(x.entry) && OfCall(y.entry) then x.entry.requestId == y.entry.requestId
      else !OfCall(x.entry) && !OfCall(y.entry) && x.id == y.id
  {
  }

  /** A group holds every entry of its key, in ledger order. */
  ghost predicate GroupAt(group: seq<Item>, items: seq<Item>, k: GroupKey, at: seq<nat>) {
    && Rising(at) && (forall i: nat :: i in at <==> i < |items| && KeyOf(items[i]) == k)
    && |at| == |group| && forall a :: 0 <= a < |at| ==> at[a] < |items| && group[a] == items[at[a]]
  }

  lemma {:induction false} GroupIsFilter(items: seq<Item>, k: GroupKey) returns (at: seq<nat>)
    ensures GroupAt(Group(items, k), items, k, at)
  {
    at := [];
    if items != [] {
      var n := |items| - 1;
      at := GroupIsFilter(items[..n], k);
      if KeyOf(items[n]) == k {
        RisingAppend(at, n);
        at := at + [n];
      }
    }
  }

  /** A row of a call is a charge named and dated by its first entry; any other row is its one entry. Id and balance are the last entry's. */
  predicate Says(row: Row, group: seq<Item>) {
    && group != [] && row.items == group
    && row.id == group[|group| - 1].id && row.balanceAfter == group[|group| - 1].entry.balanceAfter
    && row.amount == Sum(group) && row.createdAt == group[0].entry.createdAt
    && (if OfCall(group[0].entry) then row.requestId == group[0].entry.requestId && row.entryType == Consume
        else row.requestId == "" && row.entryType == group[0].entry.entryType)
  }

  function Groups(order: seq<GroupKey>, items: seq<Item>): (gs: seq<seq<Item>>)
    ensures |gs| == |order| && forall j :: 0 <= j < |order| ==> gs[j] == Group(items, order[j])
  {
    if order == [] then [] else Groups(order[..|order| - 1], items) + [Group(items, order[|order| - 1])]
  }

  /** The rows are those of the groups that are not empty, in order. */
  ghost predicate RowsAt(rows: seq<Row>, groups: seq<seq<Item>>, at: seq<nat>) {
    && Rising(at) && (forall j: nat :: j in at <==> j < |groups| && groups[j] != [])
    && |at| == |rows| && forall a :: 0 <= a < |at| ==> at[a] < |groups| && Says(rows[a], groups[at[a]])
  }

  lemma NoRow(rows: seq<Row>, groups: seq<seq<Item>>, at: seq<nat>)
    requires RowsAt(rows, groups, at)
    ensures RowsAt(rows, groups + [[]], at)
  {
  }

  lemma OneMoreRow(rows: seq<Row>, groups: seq<seq<Item>>, g: seq<Item>, at: seq<nat>)
    requires RowsAt(rows, groups, at) && g != []
    ensures RowsAt(rows + [RowOf(g)], groups + [g], at + [|groups|])
  {
    RisingAppend(at, |groups|);
  }

  /** Every listed key with entries has its row, in the order of the list. */
  lemma {:induction false} RowsFollowTheList(order: seq<GroupKey>, items: seq<Item>) returns (at: seq<nat>)
    ensures RowsAt(RowsFor(order, items), Groups(order, items), at)
  {
    at := [];
    if order != [] {
      var n := |order| - 1;
      var front := RowsFollowTheList(order[..n], items);
      if Group(items, order[n]) == [] {
        NoRow(RowsFor(order[..n], items), Groups(order[..n], items), front);
        at := front;
      } else {
        OneMoreRow(RowsFor(order[..n], items), Groups(order[..n], items), Group(items, order[n]), front);
        at := front + [n];
      }
    }
  }
}
