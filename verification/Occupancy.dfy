/**
 How one host's sessions are counted. The remote inventory, the hub's own
 instances and the open reservations overlap; the source merges them greedily
 into groups, first match wins. The merge is order sensitive, and so is its
 `ambiguous` flag; what is proved is when the count can be trusted. Which rows are
 ambiguous in which order is told exactly in `Ambiguity`.
 */
module Occupancy {
  import opened Basics

  /** One row offered to the merge; remote rows have no product. */
  datatype Item = Item(name: Name, remoteId: Option<RemoteId>, product: Option<Id>)

  datatype Merge = Merge(groups: seq<Item>, ambiguous: bool)

  predicate SameSession(a: Item, b: Item) {
    a.name == b.name && (a.remoteId.None? || b.remoteId.None? || a.remoteId == b.remoteId)
  }

  predicate Matches(group: Item, item: Item) {
    group.name == item.name || (item.remoteId.Some? && group.remoteId == item.remoteId)
  }

  predicate Clash(group: Item, item: Item) {
    !SameSession(group, item) || (group.product.Some? && item.product.Some? && group.product != item.product)
  }

  /** Index of the first group the item matches, or the number of groups. */
  function Find(groups: seq<Item>, item: Item): (k: nat)
    ensures k <= |groups|
    ensures k < |groups| ==> Matches(groups[k], item)
    ensures forall j :: 0 <= j < k ==> !Matches(groups[j], item)
  {
    if groups == [] then 0
    else if Matches(groups[0], item) then 0
    else 1 + Find(groups[1..], item)
  }

  function OrElse<T>(a: Option<T>, b: Option<T>): Option<T> {
    if a.Some? then a else b
  }

  function Joined(group: Item, item: Item): Item {
    Item(group.name, OrElse(group.remoteId, item.remoteId), OrElse(group.product, item.product))
  }

  function Add(m: Merge, item: Item): Merge {
    var k := Find(m.groups, item);
    if k == |m.groups| then Merge(m.groups + [item], m.ambiguous)
    else if Clash(m.groups[k], item) then Merge(m.groups, true)
    else
      Merge(m.groups[k := Joined(m.groups[k], item)], m.ambiguous)
  }

  /** The merge of a whole list, in its order. */
  function MergeAll(items: seq<Item>): Merge {
    if items == [] then Merge([], false)
    else Add(MergeAll(items[..|items| - 1]), items[|items| - 1])
  }

  /** Groups per owning product. */
  function ByProduct(groups: seq<Item>): map<Id, nat> {
    if groups == [] then map[]
    else
      var m := ByProduct(groups[..|groups| - 1]);
      var g := groups[|groups| - 1];
      if g.product.None? then m
      else m[g.product.value := 1 + if g.product.value in m then m[g.product.value] else 0]
  }

  // ----- what the count should mean, without any order -----

  function Names(items: set<Item>): set<Name> {
    set i | i in items :: i.name
  }

  function OwnedNames(items: set<Item>, product: Id): set<Name> {
    set i | i in items && i.product == Some(product) :: i.name
  }

  function Members(items: seq<Item>): set<Item> {
    set i | i in items
  }

  ghost predicate SameNameAgrees(items: set<Item>) {
    forall a, b :: a in items && b in items && a.name == b.name ==> !Clash(a, b)
  }

  ghost predicate OneNamePerId(items: set<Item>) {
    forall a, b :: a in items && b in items && a.remoteId.Some? && a.remoteId == b.remoteId ==> a.name == b.name
  }

  ghost predicate DistinctNames(groups: seq<Item>) {
    forall j, k :: 0 <= j < k < |groups| ==> groups[j].name != groups[k].name
  }

  ghost predicate Covered(groups: seq<Item>, item: Item) {
    exists k :: 0 <= k < |groups| && Covers(groups[k], item)
  }

  /** What a merge that never clashed knows about its groups. */
  ghost predicate Faithful(groups: seq<Item>, items: set<Item>) {
    && DistinctNames(groups)
    && (forall i :: i in items ==> Covered(groups, i))
    && (forall k :: 0 <= k < |groups| ==> Grounded(groups[k], items))
  }

  /** The group carries the item's name and, where the item has them, its id and owner. */
  ghost predicate Covers(group: Item, item: Item) {
    && group.name == item.name
    && (item.remoteId.Some? ==> group.remoteId == item.remoteId)
    && (item.product.Some? ==> group.product == item.product)
  }

  /** Nothing in the group was invented. */
  ghost predicate Grounded(group: Item, items: set<Item>) {
    && (exists i :: i in items && i.name == group.name)
    && (group.product.Some? ==> exists i :: i in items && i.name == group.name && i.product == group.product)
    && (group.remoteId.Some? ==> exists i :: i in items && i.name == group.name && i.remoteId == group.remoteId)
  }

  lemma {:induction false} MergeIsFaithful(items: seq<Item>)
    requires !MergeAll(items).ambiguous
    ensures Faithful(MergeAll(items).groups, Members(items))
  {
    if items != [] {
      var front, last := items[..|items| - 1], items[|items| - 1];
      MergeIsFaithful(front);
      assert Members(items) == Members(front) + {last};
      AddIsFaithful(MergeAll(front), last, Members(front));
    }
  }

  lemma AddIsFaithful(m: Merge, item: Item, items: set<Item>)
    requires !Add(m, item).ambiguous
    requires Faithful(m.groups, items)
    ensures Faithful(Add(m, item).groups, items + {item})
  {
    var k := Find(m.groups, item);
    if k == |m.groups| { AppendIsFaithful(m.groups, item, items); } else { JoinIsFaithful(m.groups, k, item, items); }
  }

  lemma AppendIsFaithful(groups: seq<Item>, item: Item, items: set<Item>)
    requires Faithful(groups, items)
    requires forall k :: 0 <= k < |groups| ==> groups[k].name != item.name
    ensures Faithful(groups + [item], items + {item})
  {
    var after := groups + [item];
    forall i | i in items + {item} ensures Covered(after, i) {
      if i in items {
        var j :| 0 <= j < |groups| && Covers(groups[j], i);
        assert after[j] == groups[j];
      } else {
        assert Covers(after[|groups|], i);
      }
    }
    forall j | 0 <= j < |after| ensures Grounded(after[j], items + {item}) {
      if j < |groups| { GroundedMore(groups[j], items, item); }
      else { assert item in items + {item}; }
    }
  }

  lemma JoinIsFaithful(groups: seq<Item>, k: nat, item: Item, items: set<Item>)
    requires Faithful(groups, items)
    requires k < |groups| && !Clash(groups[k], item)
    ensures Faithful(groups[k := Joined(groups[k], item)], items + {item})
  {
    var after := groups[k := Joined(groups[k], item)];
    assert DistinctNames(after) by { assert forall j :: 0 <= j < |groups| ==> after[j].name == groups[j].name; }
    forall i | i in items + {item} ensures Covered(after, i) {
      if i in items { JoinCovers(groups, k, item, i); } else { assert Covers(after[k], i); }
    }
    forall j | 0 <= j < |after| ensures Grounded(after[j], items + {item}) {
      assert Grounded(groups[j], items);
      if j == k { JoinGrounded(groups[j], item, items); } else { GroundedMore(groups[j], items, item); }
    }
  }

  lemma JoinCovers(groups: seq<Item>, k: nat, item: Item, i: Item)
    requires k < |groups| && Covered(groups, i)
    ensures Covered(groups[k := Joined(groups[k], item)], i)
  {
    var j :| 0 <= j < |groups| && Covers(groups[j], i);
    assert Covers(groups[k := Joined(groups[k], item)][j], i);
  }

  lemma JoinGrounded(g: Item, item: Item, items: set<Item>)
    requires Grounded(g, items) && !Clash(g, item)
    ensures Grounded(Joined(g, item), items + {item})
  {
    GroundedMore(g, items, item);
    assert item in items + {item} && item.name == g.name;
  }

  lemma GroundedMore(g: Item, items: set<Item>, item: Item)
    requires Grounded(g, items)
    ensures Grounded(g, items + {item})
  {}

  /** Group names, in order. */
  function NamesOf(groups: seq<Item>): (r: set<Name>) {
    set k | 0 <= k < |groups| :: groups[k].name
  }

  lemma {:induction false} DistinctNamesCount(groups: seq<Item>)
    requires DistinctNames(groups)
    ensures |NamesOf(groups)| == |groups|
  {
    if groups != [] {
      var front := groups[..|groups| - 1];
      assert DistinctNames(front) by { assert forall k :: 0 <= k < |front| ==> front[k] == groups[k]; }
      DistinctNamesCount(front);
      NamesOfAppend(front, groups[|groups| - 1]);
      assert groups == front + [groups[|groups| - 1]];
    }
  }

  lemma NamesOfAppend(front: seq<Item>, last: Item)
    ensures NamesOf(front + [last]) == NamesOf(front) + {last.name}
  {
    var all := front + [last];
    assert all[|front|] == last && forall k :: 0 <= k < |front| ==> all[k] == front[k];
  }

  lemma OwnedByAppend(front: seq<Item>, last: Item, product: Id)
    ensures OwnedBy(front + [last], product) ==
            OwnedBy(front, product) + (if last.product == Some(product) then {last.name} else {})
  {
    var all := front + [last];
    assert all[|front|] == last && forall k :: 0 <= k < |front| ==> all[k] == front[k];
  }

  function OwnedBy(groups: seq<Item>, product: Id): set<Name> {
    set k | 0 <= k < |groups| && groups[k].product == Some(product) :: groups[k].name
  }

  lemma {:induction false} ByProductCounts(groups: seq<Item>, product: Id)
    requires DistinctNames(groups)
    ensures product in ByProduct(groups) <==> OwnedBy(groups, product) != {}
    ensures product in ByProduct(groups) ==> ByProduct(groups)[product] == |OwnedBy(groups, product)|
  {
    if groups != [] {
      var front, last := groups[..|groups| - 1], groups[|groups| - 1];
      assert DistinctNames(front) by { assert forall k :: 0 <= k < |front| ==> front[k] == groups[k]; }
      ByProductCounts(front, product);
      OwnedByAppend(front, last, product);
      assert groups == front + [last];
      assert last.name !in OwnedBy(front, product);
    }
  }

  /** An unambiguous merge counts the distinct names, and splits the owned ones by product. */
  lemma UnambiguousMergeCountsNames(items: seq<Item>)
    requires !MergeAll(items).ambiguous
    ensures |MergeAll(items).groups| == |Names(Members(items))|
    ensures forall p: Id ::
              var owned := OwnedNames(Members(items), p);
              var counts := ByProduct(MergeAll(items).groups);
              (p in counts <==> owned != {}) && (p in counts ==> counts[p] == |owned|)
  {
    var groups, all := MergeAll(items).groups, Members(items);
    MergeIsFaithful(items);
    DistinctNamesCount(groups);
    forall n | n in Names(all) ensures n in NamesOf(groups) {
      var i :| i in all && i.name == n;
      var k :| 0 <= k < |groups| && Covers(groups[k], i);
    }
    assert NamesOf(groups) == Names(all) by {
      forall k | 0 <= k < |groups| ensures groups[k].name in Names(all) { assert Grounded(groups[k], all); }
    }
    forall p: Id ensures OwnedBy(groups, p) == OwnedNames(all, p) {
      OwnedAgree(groups, all, p);
    }
    forall p: Id
      ensures var owned := OwnedNames(all, p);
              (p in ByProduct(groups) <==> owned != {}) && (p in ByProduct(groups) ==> ByProduct(groups)[p] == |owned|)
    {
      ByProductCounts(groups, p);
    }
  }

  lemma OwnedAgree(groups: seq<Item>, items: set<Item>, p: Id)
    requires Faithful(groups, items)
    ensures OwnedBy(groups, p) == OwnedNames(items, p)
  {
    forall n | n in OwnedNames(items, p) ensures n in OwnedBy(groups, p) {
      var i :| i in items && i.product == Some(p) && i.name == n;
      var k :| 0 <= k < |groups| && Covers(groups[k], i);
    }
    forall n | n in OwnedBy(groups, p) ensures n in OwnedNames(items, p) {
      var k :| 0 <= k < |groups| && groups[k].product == Some(p) && groups[k].name == n;
      assert Grounded(groups[k], items);
    }
  }

  /** An unambiguous merge proves that rows of one name agree; so no name has two owners. */
  lemma UnambiguousRowsAgree(items: seq<Item>)
    requires !MergeAll(items).ambiguous
    ensures SameNameAgrees(Members(items))
    ensures forall p: Id, q: Id | p != q :: OwnedNames(Members(items), p) !! OwnedNames(Members(items), q)
  {
    var groups, all := MergeAll(items).groups, Members(items);
    MergeIsFaithful(items);
    forall a, b | a in all && b in all && a.name == b.name ensures !Clash(a, b) {
      CoveredRowsAgree(groups, a, b);
    }
    forall p: Id, q: Id | p != q ensures OwnedNames(all, p) !! OwnedNames(all, q) {
      OneOwnerPerName(all, p, q);
    }
  }

  lemma OneOwnerPerName(items: set<Item>, p: Id, q: Id)
    requires SameNameAgrees(items) && p != q
    ensures OwnedNames(items, p) !! OwnedNames(items, q)
  {
    forall a, b | a in items && b in items && a.product == Some(p) && b.product == Some(q) ensures a.name != b.name {
      assert a.name == b.name ==> !Clash(a, b);
    }
  }

  lemma CoveredRowsAgree(groups: seq<Item>, a: Item, b: Item)
    requires DistinctNames(groups) && Covered(groups, a) && Covered(groups, b) && a.name == b.name
    ensures !Clash(a, b)
  {
    var j :| 0 <= j < |groups| && Covers(groups[j], a);
    var k :| 0 <= k < |groups| && Covers(groups[k], b);
    assert j == k;
  }

  /** Two reads of the same rows in different orders, both unambiguous, give the same answer. */
  lemma OrderDoesNotMatter(xs: seq<Item>, ys: seq<Item>)
    requires Members(xs) == Members(ys)
    requires !MergeAll(xs).ambiguous && !MergeAll(ys).ambiguous
    ensures |MergeAll(xs).groups| == |MergeAll(ys).groups|
    ensures ByProduct(MergeAll(xs).groups) == ByProduct(MergeAll(ys).groups)
  {
    UnambiguousMergeCountsNames(xs);
    UnambiguousMergeCountsNames(ys);
    var a, b := ByProduct(MergeAll(xs).groups), ByProduct(MergeAll(ys).groups);
    forall p ensures (p in a <==> p in b) && (p in a ==> a[p] == b[p]) {}
    assert a == b;
  }

  /** Rows that agree by name and by remote id are unambiguous in every order. */
  lemma {:induction false} ConsistentRowsMerge(items: seq<Item>)
    requires SameNameAgrees(Members(items)) && OneNamePerId(Members(items))
    ensures !MergeAll(items).ambiguous
  {
    if items != [] {
      var front, last := items[..|items| - 1], items[|items| - 1];
      assert Members(items) == Members(front) + {last};
      ConsistentRowsMerge(front);
      MergeIsFaithful(front);
      var groups := MergeAll(front).groups;
      var k := Find(groups, last);
      if k < |groups| { NoClashWithGroup(groups[k], Members(front), last); }
    }
  }

  lemma NoClashWithGroup(group: Item, items: set<Item>, item: Item)
    requires Grounded(group, items) && Matches(group, item)
    requires SameNameAgrees(items + {item}) && OneNamePerId(items + {item})
    ensures !Clash(group, item)
  {
    if group.remoteId.Some? {
      var i :| i in items && i.name == group.name && i.remoteId == group.remoteId;
      assert item in items + {item} && i in items + {item};
      assert group.name == item.name;
      assert !Clash(i, item);
    }
    if group.product.Some? {
      var i :| i in items && i.name == group.name && i.product == group.product;
      assert item in items + {item} && i in items + {item};
      assert group.name == item.name ==> !Clash(i, item);
    }
  }

  // ----- the code's loops -----

  /** One pass of `add`, on the growing group list. */
  method AddTo(groups: seq<Item>, ambiguous: bool, item: Item) returns (groups': seq<Item>, ambiguous': bool)
    ensures Merge(groups', ambiguous') == Add(Merge(groups, ambiguous), item)
  {
    groups', ambiguous' := groups, ambiguous;
    var k := Find(groups, item);
    if k == |groups| {
      groups' := groups + [item];
    } else if Clash(groups[k], item) {
      ambiguous' := true;
    } else {
      var existing := groups[k];
      if existing.remoteId.None? { existing := existing.(remoteId := item.remoteId); }
      if existing.product.None? { existing := existing.(product := item.product); }
      groups' := groups[k := existing];
    }
  }

  lemma MergeNext(seen: seq<Item>, items: seq<Item>, item: Item)
    ensures MergeAll(seen + (items + [item])) == Add(MergeAll(seen + items), item)
  {
    assert (seen + (items + [item]))[..|seen + items|] == seen + items;
  }

  method CountSessions(remote: seq<Item>, instances: seq<(Id, Item)>, reservations: seq<Item>, absent: set<Id>)
    returns (effective: nat, ambiguous: bool, byProduct: map<Id, nat>)
    ensures var merge := MergeAll(remote + Present(instances, absent) + reservations);
            && effective == |merge.groups|
            && ambiguous == merge.ambiguous
            && byProduct == ByProduct(merge.groups)
  {
    var groups := [];
    groups, ambiguous := AddEach([], false, [], remote);
    assert [] + remote == remote;
    groups, ambiguous := AddPresent(groups, ambiguous, remote, instances, absent);
    groups, ambiguous := AddEach(groups, ambiguous, remote + Present(instances, absent), reservations);
    effective := |groups|;
    byProduct := CountByProduct(groups);
  }

  /** The pass over the instances, skipping those reported absent. */
  method AddPresent(groups: seq<Item>, ambiguous: bool, ghost seen: seq<Item>, instances: seq<(Id, Item)>,
        absent: set<Id>)
    returns (groups': seq<Item>, ambiguous': bool)
    requires Merge(groups, ambiguous) == MergeAll(seen)
    ensures Merge(groups', ambiguous') == MergeAll(seen + Present(instances, absent))
  {
    groups', ambiguous' := groups, ambiguous;
    assert seen + Present(instances[..0], absent) == seen;
    for i := 0 to |instances|
      invariant Merge(groups', ambiguous') == MergeAll(seen + Present(instances[..i], absent))
    {
      PresentNext(instances, i, absent);
      if instances[i].0 !in absent {
        MergeNext(seen, Present(instances[..i], absent), instances[i].1);
        groups', ambiguous' := AddTo(groups', ambiguous', instances[i].1);
      }
    }
    assert instances[..|instances|] == instances;
  }

  /** The same pass over a whole list. */
  method AddEach(groups: seq<Item>, ambiguous: bool, ghost seen: seq<Item>, items: seq<Item>)
    returns (groups': seq<Item>, ambiguous': bool)
    requires Merge(groups, ambiguous) == MergeAll(seen)
    ensures Merge(groups', ambiguous') == MergeAll(seen + items)
  {
    groups', ambiguous' := groups, ambiguous;
    assert seen + items[..0] == seen;
    for i := 0 to |items|
      invariant Merge(groups', ambiguous') == MergeAll(seen + items[..i])
    {
      MergeNext(seen, items[..i], items[i]);
      assert items[..i + 1] == items[..i] + [items[i]];
      groups', ambiguous' := AddTo(groups', ambiguous', items[i]);
    }
    assert items[..|items|] == items;
  }

  method CountByProduct(groups: seq<Item>) returns (counts: map<Id, nat>)
    ensures counts == ByProduct(groups)
  {
    counts := map[];
    for i := 0 to |groups|
      invariant counts == ByProduct(groups[..i])
    {
      assert groups[..i + 1][..i] == groups[..i];
      var g := groups[i];
      if g.product.Some? {
        counts := counts[g.product.value := 1 + if g.product.value in counts then counts[g.product.value] else 0];
      }
    }
    assert groups[..|groups|] == groups;
  }

  lemma PresentNext(instances: seq<(Id, Item)>, i: nat, absent: set<Id>)
    requires i < |instances|
    ensures var before := Present(instances[..i], absent);
            Present(instances[..i + 1], absent) ==
            if instances[i].0 in absent then before else before + [instances[i].1]
  {
    assert instances[..i + 1][..i] == instances[..i];
  }

  /** The instances not reported absent by the last collection, in order. */
  function Present(instances: seq<(Id, Item)>, absent: set<Id>): seq<Item> {
    if instances == [] then []
    else
      var front := Present(instances[..|instances| - 1], absent);
      var last := instances[|instances| - 1];
      if last.0 in absent then front else front + [last.1]
  }

  lemma {:induction false} PresentMembers(instances: seq<(Id, Item)>, absent: set<Id>)
    ensures Members(Present(instances, absent)) == set p | p in instances && p.0 !in absent :: p.1
  {
    if instances != [] {
      var front, last := instances[..|instances| - 1], instances[|instances| - 1];
      PresentMembers(front, absent);
      assert instances == front + [last];
      assert forall p :: p in instances <==> p in front || p == last;
      var was := Present(front, absent);
      assert Members(was + [last.1]) == Members(was) + {last.1};
    }
  }

  // ----- reading the remote's answer -----

  /** A field of a remote row as it arrives: missing, of a wrong type or empty, or usable. */
  datatype Field<+T> = Missing | Malformed | Given(value: T)

  datatype RawRow = RawRow(name: Field<Name>, id: Field<RemoteId>)

  datatype Session = Session(name: Name, remoteId: Option<RemoteId>)

  ghost predicate Readable(rows: seq<RawRow>) {
    && (forall k :: 0 <= k < |rows| ==> rows[k].name.Given? && !rows[k].id.Malformed?)
    && (forall j, k :: 0 <= j < k < |rows| ==> rows[j].name != rows[k].name)
    && (forall j, k :: 0 <= j < k < |rows| && rows[j].id.Given? ==> rows[j].id != rows[k].id)
  }

  function Read(row: RawRow): Session
    requires row.name.Given?
  {
    Session(row.name.value, if row.id.Given? then Some(row.id.value) else None)
  }

  /** The whole answer is refused unless every row is usable and no name or id repeats. */
  method NormalizeInventory(rows: seq<RawRow>) returns (result: Option<seq<Session>>)
    ensures result.Some? <==> Readable(rows)
    ensures result.Some? ==> |result.value| == |rows| &&
                             forall k :: 0 <= k < |rows| ==> result.value[k] == Read(rows[k])
  {
    var names: set<Name> := {};
    var ids: set<RemoteId> := {};
    var sessions: seq<Session> := [];
    for i := 0 to |rows|
      invariant Readable(rows[..i])
      invariant names == set k | 0 <= k < i :: rows[k].name.value
      invariant forall d :: d in ids <==> exists k :: 0 <= k < i && rows[k].id == Given(d)
      invariant |sessions| == i && forall k :: 0 <= k < i ==> sessions[k] == Read(rows[k])
    {
      var row := rows[i];
      if !row.name.Given? || row.id.Malformed? || row.name.value in names || (row.id.Given? && row.id.value in ids) {
        if row.name.Given? && row.name.value in names {
          var k :| 0 <= k < i && rows[k].name.value == row.name.value;
          assert rows[k].name == rows[i].name;
        }
        return None;
      }
      assert rows[..i + 1] == rows[..i] + [row];
      names := names + {row.name.value};
      if row.id.Given? { ids := ids + {row.id.value}; }
      sessions := sessions + [Read(row)];
    }
    assert rows[..|rows|] == rows;
    return Some(sessions);
  }
}
