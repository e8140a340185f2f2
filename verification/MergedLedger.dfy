/**
  The employee's view of the ledger: the two or three entries of one call merged into one
  row with its net amount, every other entry a row of its own.
 */
module MergedLedger {
  import opened Outcomes
  import opened Ledger
  import opened AccountInvariants
  import opened CallCharges
  import opened CallCommits

  /** A ledger entry with its row id. */
  datatype Item = Item(id: nat, entry: Entry)

  /** The two prefixes of the stored grouping keys keep the two kinds apart. */
  datatype GroupKey = CallKey(requestId: string) | EntryKey(id: nat)

  function KeyOf(x: Item): GroupKey {
    if IsCall(x.entry.entryType) && x.entry.requestId != "" then CallKey(x.entry.requestId) else EntryKey(x.id)
  }

  datatype Row = Row(id: nat, requestId: string, entryType: EntryType, amount: int, balanceAfter: int, createdAt: Time, items: seq<Item>)

  function Group(items: seq<Item>, k: GroupKey): seq<Item> {
    if items == [] then []
    else if KeyOf(items[|items| - 1]) == k then Group(items[..|items| - 1], k) + [items[|items| - 1]]
    else Group(items[..|items| - 1], k)
  }

  function Sum(items: seq<Item>): int {
    if items == [] then 0 else Sum(items[..|items| - 1]) + items[|items| - 1].entry.amount
  }

  /** The row of a non-empty group: the first entry names and dates it, the last one gives its id and balance. */
  function RowOf(group: seq<Item>): Row
    requires group != []
  {
    var first, last := group[0].entry, group[|group| - 1];
    var isCall := IsCall(first.entryType) && first.requestId != "";
    Row(last.id, if isCall then first.requestId else "", if isCall then Consume else first.entryType,
        Sum(group), last.entry.balanceAfter, first.createdAt, group)
  }

  function RowsFor(order: seq<GroupKey>, items: seq<Item>): seq<Row> {
    if order == [] then []
    else
      var g := Group(items, order[|order| - 1]);
      if g == [] then RowsFor(order[..|order| - 1], items) else RowsFor(order[..|order| - 1], items) + [RowOf(g)]
  }

  lemma GroupAppend(items: seq<Item>, x: Item, k: GroupKey)
    ensures Group(items + [x], k) == if KeyOf(x) == k then Group(items, k) + [x] else Group(items, k)
  {
    assert (items + [x])[..|items|] == items;
  }

  lemma SumAppend(items: seq<Item>, x: Item)
    ensures Sum(items + [x]) == Sum(items) + x.entry.amount
  {
    assert (items + [x])[..|items|] == items;
  }

  method CollectGroups(items: seq<Item>) returns (byKey: map<GroupKey, seq<Item>>)
    ensures forall k :: Group(items, k) == if k in byKey then byKey[k] else []
  {
    byKey := map[];
    for i := 0 to |items|
      invariant forall k :: Group(items[..i], k) == if k in byKey then byKey[k] else []
    {
      assert items[..i + 1] == items[..i] + [items[i]];
      ghost var before := byKey;
      var key := KeyOf(items[i]);
      byKey := byKey[key := (if key in byKey then byKey[key] else []) + [items[i]]];
      forall k
        ensures Group(items[..i + 1], k) == if k in byKey then byKey[k] else []
      {
        GroupAppend(items[..i], items[i], k);
      }
    }
    assert items[..|items|] == items;
  }

  method MergeGroup(group: seq<Item>) returns (row: Row)
    requires group != []
    ensures row == RowOf(group)
  {
    var first, last := group[0].entry, group[|group| - 1];
    var amount := 0;
    for n := 0 to |group|
      invariant amount == Sum(group[..n])
    {
      assert group[..n + 1] == group[..n] + [group[n]];
      SumAppend(group[..n], group[n]);
      amount := amount + group[n].entry.amount;
    }
    assert group[..|group|] == group;
    row := Row(last.id, "", first.entryType, amount, last.entry.balanceAfter, first.createdAt, group);
    if IsCall(first.entryType) && first.requestId != "" {
      row := row.(requestId := first.requestId, entryType := Consume);
    }
  }

  method Merge(order: seq<GroupKey>, items: seq<Item>) returns (rows: seq<Row>)
    ensures rows == RowsFor(order, items)
  {
    var byKey := CollectGroups(items);
    rows := [];
    for j := 0 to |order|
      invariant rows == RowsFor(order[..j], items)
    {
      assert order[..j + 1][..j] == order[..j];
      var group := if order[j] in byKey then byKey[order[j]] else [];
      assert group == Group(items, order[j]);
      if |group| != 0 {
        var row := MergeGroup(group);
        rows := rows + [row];
      }
    }
    assert order[..|order|] == order;
  }

  // ---- The rows partition the entries ----

  predicate Distinct(order: seq<GroupKey>) { forall i, j :: 0 <= i < j < |order| ==> order[i] != order[j] }

  function TotalOf(rows: seq<Row>): int {
    if rows == [] then 0 else TotalOf(rows[..|rows| - 1]) + rows[|rows| - 1].amount
  }

  function ItemsOf(rows: seq<Row>): multiset<Item> {
    if rows == [] then multiset{} else ItemsOf(rows[..|rows| - 1]) + multiset(rows[|rows| - 1].items)
  }

  /** The same two quantities, group by group. */
  function GroupTotals(order: seq<GroupKey>, items: seq<Item>): int {
    if order == [] then 0 else GroupTotals(order[..|order| - 1], items) + Sum(Group(items, order[|order| - 1]))
  }

  function GroupItems(order: seq<GroupKey>, items: seq<Item>): multiset<Item> {
    if order == [] then multiset{} else GroupItems(order[..|order| - 1], items) + multiset(Group(items, order[|order| - 1]))
  }

  lemma {:induction false} RowsAreGroups(order: seq<GroupKey>, items: seq<Item>)
    ensures TotalOf(RowsFor(order, items)) == GroupTotals(order, items)
    ensures ItemsOf(RowsFor(order, items)) == GroupItems(order, items)
  {
    if order != [] {
      var front, g := RowsFor(order[..|order| - 1], items), Group(items, order[|order| - 1]);
      RowsAreGroups(order[..|order| - 1], items);
      if g == [] {
        assert Sum(g) == 0;
      } else {
        assert (front + [RowOf(g)])[..|front|] == front;
      }
    }
  }

  /** One more item reaches exactly the group of its own key. */
  lemma {:induction false} OneMoreAmount(order: seq<GroupKey>, items: seq<Item>, x: Item)
    requires Distinct(order)
    ensures GroupTotals(order, items + [x]) == GroupTotals(order, items) + if KeyOf(x) in order then x.entry.amount else 0
  {
    if order != [] {
      var front, k := order[..|order| - 1], order[|order| - 1];
      OneMoreAmount(front, items, x);
      GroupAppend(items, x, k);
      SumAppend(Group(items, k), x);
      assert order == front + [k] && k !in front;
    }
  }

  lemma GroupCountAppend(items: seq<Item>, x: Item, k: GroupKey, y: Item)
    ensures multiset(Group(items + [x], k))[y] == multiset(Group(items, k))[y] + if KeyOf(x) == k && x == y then 1 else 0
  {
    GroupAppend(items, x, k);
  }

  lemma LastIsNew(order: seq<GroupKey>, key: GroupKey)
    requires Distinct(order) && order != []
    ensures var front, k := order[..|order| - 1], order[|order| - 1];
      Distinct(front) && k !in front && (key in order <==> key in front || key == k)
  {
    assert order == order[..|order| - 1] + [order[|order| - 1]];
  }

  lemma {:induction false} OneMoreItem(order: seq<GroupKey>, items: seq<Item>, x: Item, y: Item)
    requires Distinct(order)
    ensures GroupItems(order, items + [x])[y] == GroupItems(order, items)[y] + if KeyOf(x) in order && x == y then 1 else 0
  {
    if order != [] {
      var front, k := order[..|order| - 1], order[|order| - 1];
      LastIsNew(order, KeyOf(x));
      OneMoreItem(front, items, x, y);
      GroupCountAppend(items, x, k, y);
    }
  }

  lemma {:induction false} NoItems(order: seq<GroupKey>)
    ensures GroupTotals(order, []) == 0 && GroupItems(order, []) == multiset{}
  {
    if order != [] {
      NoItems(order[..|order| - 1]);
    }
  }

  predicate Covers(order: seq<GroupKey>, items: seq<Item>) { forall x :: x in items ==> KeyOf(x) in order }

  lemma {:induction false} GroupsKeepTotal(order: seq<GroupKey>, items: seq<Item>)
    requires Distinct(order) && Covers(order, items)
    ensures GroupTotals(order, items) == Sum(items)
  {
    if items == [] {
      NoItems(order);
    } else {
      var front, x := items[..|items| - 1], items[|items| - 1];
      assert items == front + [x];
      GroupsKeepTotal(order, front);
      OneMoreAmount(order, front, x);
    }
  }

  lemma {:induction false} GroupsPartition(order: seq<GroupKey>, items: seq<Item>, y: Item)
    requires Distinct(order) && Covers(order, items)
    ensures GroupItems(order, items)[y] == multiset(items)[y]
  {
    if items == [] {
      NoItems(order);
    } else {
      var front, x := items[..|items| - 1], items[|items| - 1];
      assert items == front + [x];
      GroupsPartition(order, front, y);
      OneMoreItem(order, front, x, y);
    }
  }

  /** Over all distinct keys each entry lies in exactly one row, and no amount is gained or lost. */
  lemma MergePartitions(order: seq<GroupKey>, items: seq<Item>)
    requires Distinct(order) && Covers(order, items)
    ensures ItemsOf(RowsFor(order, items)) == multiset(items)
    ensures TotalOf(RowsFor(order, items)) == Sum(items)
  {
    RowsAreGroups(order, items);
    GroupsKeepTotal(order, items);
    forall y: Item
      ensures GroupItems(order, items)[y] == multiset(items)[y]
    {
      GroupsPartition(order, items, y);
    }
  }

  // ---- A call's row under the billing invariants ----

  /** The entries of one user, as the query fetches them. */
  function ItemsOfUser(l: seq<Entry>, u: UserId): seq<Item> {
    if l == [] then []
    else if l[|l| - 1].userId == u then ItemsOfUser(l[..|l| - 1], u) + [Item(|l| - 1, l[|l| - 1])]
    else ItemsOfUser(l[..|l| - 1], u)
  }

  function CallGroup(l: seq<Entry>, u: UserId, r: string): seq<Item> { Group(ItemsOfUser(l, u), CallKey(r)) }

  lemma CallGroupSnoc(l: seq<Entry>, u: UserId, r: string)
    requires l != [] && r != ""
    ensures var n := |l| - 1;
      CallGroup(l, u, r) == if l[n].userId == u && Picks(ByRequest(r), l[n]) then CallGroup(l[..n], u, r) + [Item(n, l[n])] else CallGroup(l[..n], u, r)
  {
    var n := |l| - 1;
    GroupAppend(ItemsOfUser(l[..n], u), Item(n, l[n]), CallKey(r));
  }

  lemma {:induction false} CallGroupSum(l: seq<Entry>, u: UserId, r: string)
    requires r != "" && forall i :: 0 <= i < |l| && Picks(ByRequest(r), l[i]) ==> l[i].userId == u
    ensures Sum(CallGroup(l, u, r)) == Total(l, ByRequest(r))
    ensures forall x :: x in CallGroup(l, u, r) ==> Picks(ByRequest(r), x.entry)
    ensures Find(l, r, Consume).Some? ==> CallGroup(l, u, r) != []
  {
    if l != [] {
      var n := |l| - 1;
      CallGroupSum(l[..n], u, r);
      CallGroupSnoc(l, u, r);
      SumAppend(CallGroup(l[..n], u, r), Item(n, l[n]));
    }
  }

  /** All entries of a call are its consume's user's. */
  lemma CallHasOneUser(b: Book, r: string, i: nat)
    requires InOrder(b) && r != "" && Find(b.ledger, r, Consume).Some? && i < |b.ledger| && Picks(ByRequest(r), b.ledger[i])
    ensures b.ledger[i].userId == Find(b.ledger, r, Consume).value.userId
  {
    assert EntryShape(b, b.ledger[i]);
    FindIsHasEntry(b.ledger, r, Consume);
  }

  /** In books that are in order, a call's row shows minus what the call was charged, so it is never positive. */
  lemma CallRowIsCharge(b: Book, r: string)
    requires InOrder(b) && r != "" && Find(b.ledger, r, Consume).Some?
    ensures var group := CallGroup(b.ledger, Find(b.ledger, r, Consume).value.userId, r);
      && group != []
      && RowOf(group).requestId == r && RowOf(group).entryType.Consume? && RowOf(group).amount == -Charge(b.ledger, r) <= 0
  {
    var u := Find(b.ledger, r, Consume).value.userId;
    forall i | 0 <= i < |b.ledger| && Picks(ByRequest(r), b.ledger[i])
      ensures b.ledger[i].userId == u
    {
      CallHasOneUser(b, r, i);
    }
    CallGroupSum(b.ledger, u, r);
    assert CallGroup(b.ledger, u, r)[0] in CallGroup(b.ledger, u, r);
    ChargeIsNonNegative(b, r);
  }
}
