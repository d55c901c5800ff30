/** Exactly which rows, in which orders, the merge of a host's sessions calls ambiguous. */
module Ambiguity {
  import opened Basics
  import opened Occupancy
  import opened Tables
  import opened Protocol
  import opened Invariants
  import opened Provisioning

  // ----- one order -----

  /** Where a name first occurs, or the length of the list. */
  function First(items: seq<Item>, n: Name): (k: nat)
    ensures k <= |items| && (forall j :: 0 <= j < k ==> items[j].name != n) && (k < |items| ==> items[k].name == n)
  {
    if items == [] then 0 else if items[0].name == n then 0 else 1 + First(items[1..], n)
  }

  /** One remote id under two names. */
  predicate SharesId(a: Item, b: Item) {
    a.remoteId.Some? && a.remoteId == b.remoteId && a.name != b.name
  }

  /** An id is met under a name, and then again under a name that came later. */
  ghost predicate Overtakes(items: seq<Item>, j: nat, k: nat) {
    j < k < |items| && SharesId(items[j], items[k]) && First(items, items[j].name) < First(items, items[k].name)
  }

  ghost predicate Overtaken(items: seq<Item>) {
    exists j: nat, k: nat :: Overtakes(items, j, k)
  }

  lemma FirstInFront(items: seq<Item>, k: nat, n: Name)
    requires k <= |items|
    ensures First(items[..k], n) == if First(items, n) < k then First(items, n) else k
  {
    hide First;
    var here, all := First(items[..k], n), First(items, n);
    if here < k { assert items[..k][here] == items[here]; }
    if all < k { assert items[..k][all] == items[all]; }
  }

  /** Groups stand in the order in which their names first occurred. */
  ghost predicate InOrder(groups: seq<Item>, items: seq<Item>) {
    forall g, h :: 0 <= g < h < |groups| ==> First(items, groups[g].name) < First(items, groups[h].name)
  }

  lemma {:induction false} MergeInOrder(items: seq<Item>)
    requires !MergeAll(items).ambiguous
    ensures InOrder(MergeAll(items).groups, items)
  {
    hide First, Find, InOrder, Faithful;
    if items == [] {
      EmptyInOrder();
    } else {
      var front, last := items[..|items| - 1], items[|items| - 1];
      assert items == front + [last];
      MergeInOrder(front);
      MergeIsFaithful(front);
      StaysInOrder(front, last, MergeAll(front).groups);
    }
  }

  lemma EmptyInOrder()
    ensures InOrder([], [])
  {}

  lemma StaysInOrder(front: seq<Item>, last: Item, groups: seq<Item>)
    requires Faithful(groups, Members(front)) && InOrder(groups, front)
    requires var k := Find(groups, last); k < |groups| ==> !Clash(groups[k], last)
    ensures var k := Find(groups, last);
            InOrder(if k == |groups| then groups + [last] else groups[k := Joined(groups[k], last)], front + [last])
  {
    hide First, Covered, Faithful, Clash;
    var items, k := front + [last], Find(groups, last);
    forall g | 0 <= g < |groups| ensures First(items, groups[g].name) == First(front, groups[g].name) < |front| {
      GroupOccurs(front, last, groups, g);
    }
    if k == |groups| { NewNameIsLast(front, last, groups); }
  }

  lemma GroupOccurs(front: seq<Item>, last: Item, groups: seq<Item>, g: nat)
    requires Faithful(groups, Members(front)) && g < |groups|
    ensures First(front + [last], groups[g].name) == First(front, groups[g].name) < |front|
  {
    hide First, Covered;
    assert Grounded(groups[g], Members(front));
    var i :| i in Members(front) && i.name == groups[g].name;
    var k :| 0 <= k < |front| && front[k] == i;
    assert (front + [last])[..|front|] == front;
    FirstInFront(front + [last], |front|, groups[g].name);
  }

  lemma NewNameIsLast(front: seq<Item>, last: Item, groups: seq<Item>)
    requires Faithful(groups, Members(front)) && Find(groups, last) == |groups|
    ensures First(front + [last], last.name) == |front|
  {
    hide First, Faithful, Find, Members;
    forall k | 0 <= k < |front| ensures front[k].name != last.name {
      IsMember(front, k);
      var g := FaithfulCover(groups, Members(front), front[k]);
      assert !Matches(groups[g], last);
    }
    var n := First(front + [last], last.name);
    assert (front + [last])[|front|] == last;
  }

  /** Once ambiguous, always ambiguous. */
  lemma {:induction false} AmbiguityStays(items: seq<Item>, k: nat)
    requires k <= |items| && MergeAll(items[..k]).ambiguous
    ensures MergeAll(items).ambiguous
  {
    if k < |items| {
      assert items[..|items| - 1][..k] == items[..k];
      AmbiguityStays(items[..|items| - 1], k);
    } else {
      assert items[..k] == items;
    }
  }

  lemma OvertakingIsAmbiguous(items: seq<Item>, j: nat, k: nat)
    requires Overtakes(items, j, k)
    ensures MergeAll(items).ambiguous
  {
    hide First, InOrder, Faithful, Find;
    var front, y, z := items[..k], items[j], items[k];
    if !MergeAll(front).ambiguous {
      MergeIsFaithful(front);
      MergeInOrder(front);
      FirstInFront(items, k, y.name);
      FirstInFront(items, k, z.name);
      assert front[j] == y;
      TakenByEarlierGroup(front, j, z, MergeAll(front).groups);
      assert items[..k + 1] == front + [z];
      assert (front + [z])[..k] == front;
      assert MergeAll(items[..k + 1]).ambiguous;
      AmbiguityStays(items, k + 1);
    } else {
      AmbiguityStays(items, k);
    }
  }

  /** The row meets the other name's group before any group of its own. */
  lemma TakenByEarlierGroup(front: seq<Item>, j: nat, z: Item, groups: seq<Item>)
    requires Faithful(groups, Members(front)) && InOrder(groups, front)
    requires j < |front| && SharesId(front[j], z) && First(front, front[j].name) < |front|
    requires First(front, z.name) == |front| || First(front, front[j].name) < First(front, z.name)
    ensures var f := Find(groups, z); f < |groups| && Clash(groups[f], z)
  {
    hide First, Find, Faithful, InOrder, Members;
    var y := front[j];
    IsMember(front, j);
    var g := FaithfulCover(groups, Members(front), y);
    var f := Find(groups, z);
    assert Matches(groups[g], z) && f <= g;
    if f < g { InOrderPair(groups, front, f, g); }
  }

  lemma NamesakesDoNotClash(group: Item, items: set<Item>, item: Item)
    requires Grounded(group, items) && group.name == item.name && SameNameAgrees(items + {item})
    ensures !Clash(group, item)
  {
    assert item in items + {item};
    if group.remoteId.Some? {
      var i :| i in items && i.name == group.name && i.remoteId == group.remoteId;
      assert i in items + {item} && !Clash(i, item);
    }
    if group.product.Some? {
      var i :| i in items && i.name == group.name && i.product == group.product;
      assert i in items + {item} && !Clash(i, item);
    }
  }

  lemma OvertakesLater(items: seq<Item>, n: nat, j: nat, k: nat)
    requires n <= |items| && Overtakes(items[..n], j, k)
    ensures Overtakes(items, j, k)
  {
    hide First;
    FirstInFront(items, n, items[j].name);
    FirstInFront(items, n, items[k].name);
  }

  lemma {:induction false} NotOvertakenIsUnambiguous(items: seq<Item>)
    requires SameNameAgrees(Members(items)) && !Overtaken(items)
    ensures !MergeAll(items).ambiguous
  {
    if items != [] {
      var front, last := items[..|items| - 1], items[|items| - 1];
      assert Members(items) == Members(front) + {last};
      if Overtaken(front) {
        var j: nat, k: nat :| Overtakes(front, j, k);
        OvertakesLater(items, |front|, j, k);
        assert false;
      }
      NotOvertakenIsUnambiguous(front);
      NoClashAtLast(items, front, last);
    }
  }

  lemma NoClashAtLast(items: seq<Item>, front: seq<Item>, last: Item)
    requires items == front + [last] && SameNameAgrees(Members(front) + {last}) && !Overtaken(items)
    requires !MergeAll(front).ambiguous
    ensures !Add(MergeAll(front), last).ambiguous
  {
    hide First, Faithful, InOrder, Overtakes, Clash, SameNameAgrees, Find;
    MergeIsFaithful(front);
    MergeInOrder(front);
    var groups := MergeAll(front).groups;
    var f := Find(groups, last);
    if f < |groups| {
      FaithfulGroup(groups, f, Members(front));
      if groups[f].name == last.name {
        NamesakesDoNotClash(groups[f], Members(front), last);
      } else {
        var j := TakesOver(front, groups, f, last);
        assert false;
      }
    }
  }

  lemma FaithfulGroup(groups: seq<Item>, f: nat, items: set<Item>)
    requires Faithful(groups, items) && f < |groups|
    ensures Grounded(groups[f], items)
  {}

  lemma IsMember(items: seq<Item>, k: nat)
    requires k < |items|
    ensures items[k] in Members(items)
  {}

  lemma InOrderPair(groups: seq<Item>, items: seq<Item>, f: nat, g: nat)
    requires InOrder(groups, items) && f < g < |groups|
    ensures First(items, groups[f].name) < First(items, groups[g].name)
  {
    hide First;
  }

  lemma FaithfulCover(groups: seq<Item>, items: set<Item>, i: Item) returns (g: nat)
    requires Faithful(groups, items) && i in items
    ensures g < |groups| && Covers(groups[g], i)
  {
    assert Covered(groups, i);
    g :| 0 <= g < |groups| && Covers(groups[g], i);
  }

  lemma TakesOver(front: seq<Item>, groups: seq<Item>, f: nat, last: Item) returns (j: nat)
    requires Faithful(groups, Members(front)) && InOrder(groups, front)
    requires f == Find(groups, last) < |groups| && groups[f].name != last.name
    ensures Overtakes(front + [last], j, |front|)
  {
    hide First, Faithful, InOrder;
    var items := front + [last];
    FaithfulGroup(groups, f, Members(front));
    var y :| y in Members(front) && y.name == groups[f].name && y.remoteId == groups[f].remoteId;
    j :| 0 <= j < |front| && front[j] == y;
    assert items[j] == y && items[|front|] == last && items[..|front|] == front;
    FirstInFront(items, |front|, y.name);
    FirstInFront(items, |front|, last.name);
    LaterGroup(front, groups, f, last);
  }

  /** The name of an item that another group takes stands in a later group, or is new. */
  lemma LaterGroup(front: seq<Item>, groups: seq<Item>, f: nat, last: Item)
    requires Faithful(groups, Members(front)) && InOrder(groups, front)
    requires f == Find(groups, last) < |groups| && groups[f].name != last.name
    ensures First(front, groups[f].name) < First(front, last.name) && First(front, groups[f].name) < |front|
  {
    hide First, Find, Faithful, InOrder, Members;
    var n := First(front, last.name);
    GroupOccurs(front, last, groups, f);
    if n < |front| {
      IsMember(front, n);
      var g := FaithfulCover(groups, Members(front), front[n]);
      assert Matches(groups[g], last) && f < g;
      InOrderPair(groups, front, f, g);
    }
  }

  /** One order is ambiguous exactly when two rows of a name contradict each other, or an id is overtaken. */
  lemma OrderDecides(items: seq<Item>)
    ensures MergeAll(items).ambiguous <==> !SameNameAgrees(Members(items)) || Overtaken(items)
  {
    if !MergeAll(items).ambiguous { UnambiguousRowsAgree(items); }
    if Overtaken(items) {
      var j: nat, k: nat :| Overtakes(items, j, k);
      OvertakingIsAmbiguous(items, j, k);
    }
    if SameNameAgrees(Members(items)) && !Overtaken(items) { NotOvertakenIsUnambiguous(items); }
  }

  // ----- every order -----

  /** A set of rows is unambiguous in every order exactly when no name contradicts itself and no id has two names. */
  lemma EveryOrder(s: set<Item>)
    ensures (forall xs :: Enumerates(xs, s) ==> !MergeAll(xs).ambiguous) <==> SameNameAgrees(s) && OneNamePerId(s)
  {
    if SameNameAgrees(s) && OneNamePerId(s) {
      forall xs | Enumerates(xs, s) ensures !MergeAll(xs).ambiguous {
        assert Members(xs) == s;
        ConsistentRowsMerge(xs);
      }
    } else if !SameNameAgrees(s) {
      var xs := Enumeration(s);
      assert Members(xs) == s;
      OrderDecides(xs);
    } else {
      var y, z :| y in s && z in s && y.remoteId.Some? && y.remoteId == z.remoteId && y.name != z.name;
      var rest := Enumeration(s - {y, z});
      var xs := [y, z] + rest;
      assert Enumerates(xs, s);
      assert xs[0] == y && xs[1] == z;
      assert Overtakes(xs, 0, 1);
      OrderDecides(xs);
    }
  }

  // ----- every listing of a host: remote rows, then instances, then open rows -----

  function RemoteRows(db: Db, h: Id): set<Item> {
    set e | e in Entries(db, h) :: RemoteItem(e)
  }

  function InstanceRows(db: Db, h: Id): set<Item> {
    set i | i in db.instances && InstanceOn(db, i, h) && !Absent(db, i, h) :: InstanceItem(db.instances[i])
  }

  function OpenRows(db: Db, h: Id): set<Item> {
    set r | r in db.rows && OpenOn(db, r, h) :: RowItem(db.rows[r])
  }

  predicate Named(items: set<Item>, n: Name) {
    exists i :: i in items && i.name == n
  }

  predicate NoId(items: set<Item>, n: Name) {
    forall i :: i in items && i.name == n ==> i.remoteId.None?
  }

  /**
   The one way for an id to have two names and never be noticed: the remote shows `m` without
   an id, only instances give the id to `n`, which the remote does not show, and only open
   rows give it to `m`. The merge has joined them to the remote row by then.
   */
  predicate Excused(remote: set<Item>, local: set<Item>, open: set<Item>, n: Name, m: Name) {
    Named(remote, m) && !Named(remote, n) && NoId(remote + open, n) && NoId(remote + local, m)
  }

  ghost predicate Settled(remote: set<Item>, local: set<Item>, open: set<Item>) {
    var all := remote + local + open;
    && SameNameAgrees(all)
    && forall y, z :: y in all && z in all && SharesId(y, z) ==>
         Excused(remote, local, open, y.name, z.name) || Excused(remote, local, open, z.name, y.name)
  }

  /** An excused pair is never overtaken, whatever the order within the three parts. */
  lemma ExcusedNotOvertaken(a: seq<Item>, b: seq<Item>, c: seq<Item>, j: nat, k: nat)
    requires Overtakes(a + b + c, j, k)
    ensures var y, z := (a + b + c)[j], (a + b + c)[k];
            && !Excused(Members(a), Members(b), Members(c), y.name, z.name)
            && !Excused(Members(a), Members(b), Members(c), z.name, y.name)
  {
    hide First;
    var xs := a + b + c;
    var y, z := xs[j], xs[k];
    NamedFirst(a, b + c, y.name);
    NamedFirst(a, b + c, z.name);
    assert xs == a + (b + c);
    Lies(a, b, c, j);
    Lies(a, b, c, k);
  }

  lemma NamedFirst(a: seq<Item>, rest: seq<Item>, n: Name)
    ensures Named(Members(a), n) <==> First(a + rest, n) < |a|
  {
    hide First;
    var p := First(a + rest, n);
    if p < |a| {
      assert (a + rest)[p] in Members(a);
    }
    if Named(Members(a), n) {
      var i :| i in Members(a) && i.name == n;
      var k :| 0 <= k < |a| && a[k] == i;
      assert (a + rest)[k].name == n;
    }
  }

  /** The part of a listing a position lies in. */
  lemma Lies(a: seq<Item>, b: seq<Item>, c: seq<Item>, k: nat)
    requires k < |a + b + c|
    ensures k < |a| ==> (a + b + c)[k] in Members(a)
    ensures |a| <= k < |a| + |b| ==> (a + b + c)[k] in Members(b)
    ensures |a| + |b| <= k ==> (a + b + c)[k] in Members(c)
  {}

  /** Rows of one name come before all others. */
  ghost predicate Leads(items: seq<Item>, n: Name) {
    forall i, j :: 0 <= i < j < |items| && items[j].name == n ==> items[i].name == n
  }

  /** In which order two of three parts come. */
  predicate NotAfter(a: set<Item>, b: set<Item>, c: set<Item>, y: Item, z: Item) {
    (y in a && z in a + b + c) || (y in b && z in b + c) || (y in c && z in c)
  }

  lemma LeadingOvertakes(a: seq<Item>, b: seq<Item>, c: seq<Item>, y: Item, z: Item)
    requires Leads(a, y.name) && Leads(b, y.name) && Leads(c, y.name)
    requires SharesId(y, z) && NotAfter(Members(a), Members(b), Members(c), y, z)
    requires Named(Members(a), z.name) ==> Named(Members(a), y.name)
    requires Named(Members(a + b), z.name) ==> Named(Members(a + b), y.name)
    ensures Overtaken(a + b + c)
  {
    hide First;
    var xs := a + b + c;
    var j, k := Placed(a, b, c, y, z);
    var q := First(xs, z.name);
    assert xs[q].name == z.name;
    Lies(a, b, c, q);
    if q < |a| + |b| { assert (a + b)[q] == xs[q] && xs[q] in Members(a + b); }
    assert y in Members(xs) by { assert xs[j] == y; }
    LeaderIsEarlier(a, b, c, q, y.name);
    assert Overtakes(xs, j, k);
  }

  lemma LeaderIsEarlier(a: seq<Item>, b: seq<Item>, c: seq<Item>, q: nat, n: Name)
    requires Leads(a, n) && Leads(b, n) && Leads(c, n)
    requires q < |a + b + c| && (a + b + c)[q].name != n && Named(Members(a + b + c), n)
    requires q < |a| ==> Named(Members(a), n)
    requires q < |a| + |b| ==> Named(Members(a + b), n)
    ensures First(a + b + c, n) < q
  {
    hide First;
    var xs := a + b + c;
    var part := if q < |a| then a else if q < |a| + |b| then a + b else xs;
    var i :| i in Members(part) && i.name == n;
    var m :| 0 <= m < |part| && part[m] == i;
    assert xs[m] == part[m];
    if m >= |a| + |b| {
      assert c[m - |a| - |b|].name == n && c[q - |a| - |b|].name != n;
    } else if m >= |a| && q < |a| + |b| {
      assert b[m - |a|].name == n && b[q - |a|].name != n;
    }
    assert m < q;
  }

  lemma Placed(a: seq<Item>, b: seq<Item>, c: seq<Item>, y: Item, z: Item) returns (j: nat, k: nat)
    requires Leads(a, y.name) && Leads(b, y.name) && Leads(c, y.name) && y.name != z.name
    requires NotAfter(Members(a), Members(b), Members(c), y, z)
    ensures j < k < |a + b + c| && (a + b + c)[j] == y && (a + b + c)[k] == z
  {
    var xs := a + b + c;
    if y in a {
      var p :| 0 <= p < |a| && a[p] == y;
      assert xs[p] == y;
      assert z in xs;
      var q :| 0 <= q < |xs| && xs[q] == z;
      assert q < |a| ==> a[q].name == z.name;
      return p, q;
    } else if y in b && z in b + c {
      var p :| 0 <= p < |b| && b[p] == y;
      assert xs[|a| + p] == y;
      var q :| 0 <= q < |b + c| && (b + c)[q] == z;
      assert xs[|a| + q] == z;
      assert q < |b| ==> b[q].name == z.name;
      return |a| + p, |a| + q;
    } else {
      var p :| 0 <= p < |c| && c[p] == y;
      var q :| 0 <= q < |c| && c[q] == z;
      assert xs[|a| + |b| + p] == y && xs[|a| + |b| + q] == z;
      return |a| + |b| + p, |a| + |b| + q;
    }
  }

  /** An id of two names without that excuse is overtaken in some order: the name to put first, and its row. */
  lemma Unexcused(remote: set<Item>, local: set<Item>, open: set<Item>, y: Item, z: Item) returns (u: Item, v: Item)
    requires SameNameAgrees(remote + local + open)
    requires y in remote + local + open && z in remote + local + open && SharesId(y, z)
    requires !Excused(remote, local, open, y.name, z.name) && !Excused(remote, local, open, z.name, y.name)
    ensures SharesId(u, v) && NotAfter(remote, local, open, u, v)
    ensures Named(remote, v.name) ==> Named(remote, u.name)
    ensures Named(remote + local, v.name) ==> Named(remote + local, u.name)
  {
    if Named(remote, y.name) && !Named(remote, z.name) {
      u, v := LaterName(remote, local, open, y, z);
    } else if Named(remote, z.name) && !Named(remote, y.name) {
      u, v := LaterName(remote, local, open, z, y);
    } else if Named(remote + local, y.name) && !Named(remote + local, z.name) {
      u, v := y, z;
    } else if Named(remote + local, z.name) && !Named(remote + local, y.name) {
      u, v := z, y;
    } else if NotAfter(remote, local, open, y, z) {
      u, v := y, z;
    } else {
      u, v := z, y;
    }
  }

  /** The remote shows only the first of the two names. */
  lemma LaterName(remote: set<Item>, local: set<Item>, open: set<Item>, y: Item, z: Item) returns (u: Item, v: Item)
    requires SameNameAgrees(remote + local + open)
    requires y in remote + local + open && z in remote + local + open && SharesId(y, z)
    requires Named(remote, y.name) && !Named(remote, z.name) && !Excused(remote, local, open, z.name, y.name)
    ensures u.name == y.name && v.name == z.name && SharesId(u, v) && NotAfter(remote, local, open, u, v)
  {
    u, v := y, z;
    if !NoId(remote + open, z.name) {
      v :| v in remote + open && v.name == z.name && v.remoteId.Some?;
      assert v in remote + local + open && !Clash(v, z);
    } else {
      u :| u in remote + local && u.name == y.name && u.remoteId.Some?;
      assert u in remote + local + open && !Clash(u, y);
    }
  }

  /** A listing that gives every row once, as the database does. */
  ghost predicate Once(l: Listing) {
    && (forall j, k :: 0 <= j < k < |l.remote| ==> l.remote[j] != l.remote[k])
    && (forall j, k :: 0 <= j < k < |l.instances| ==> l.instances[j] != l.instances[k])
    && (forall j, k :: 0 <= j < k < |l.rows| ==> l.rows[j] != l.rows[k])
  }

  lemma ListedMembers(db: Db, h: Id, l: Listing)
    requires Lists(db, h, l) && Known(db, l)
    ensures Members(RemoteItems(l.remote)) == RemoteRows(db, h)
    ensures Members(Present(InstanceItems(db, l.instances), AbsentOf(db, h, l.instances))) == InstanceRows(db, h)
    ensures Members(RowItems(db, l.rows)) == OpenRows(db, h)
  {
    var remote, rows := RemoteItems(l.remote), RowItems(db, l.rows);
    forall e | e in Entries(db, h) ensures RemoteItem(e) in Members(remote) {
      var k :| 0 <= k < |l.remote| && l.remote[k] == e;
      assert remote[k] in Members(remote);
    }
    forall r | OpenOn(db, r, h) ensures RowItem(db.rows[r]) in Members(rows) {
      var k :| 0 <= k < |l.rows| && l.rows[k] == r;
      assert rows[k] in Members(rows);
    }
    ListedInstances(db, h, l);
  }

  lemma ListedInstances(db: Db, h: Id, l: Listing)
    requires Lists(db, h, l) && Known(db, l)
    ensures Members(Present(InstanceItems(db, l.instances), AbsentOf(db, h, l.instances))) == InstanceRows(db, h)
  {
    var pairs, absent := InstanceItems(db, l.instances), AbsentOf(db, h, l.instances);
    PresentMembers(pairs, absent);
    forall i | InstanceOn(db, i, h) && !Absent(db, i, h)
      ensures InstanceItem(db.instances[i]) in set p | p in pairs && p.0 !in absent :: p.1
    {
      var k :| 0 <= k < |l.instances| && l.instances[k] == i;
      assert pairs[k] in pairs && pairs[k].0 !in absent;
    }
  }

  /** A listing with the rows of one name first in each of its parts. */
  lemma LeadingListing(db: Db, h: Id, n: Name) returns (l: Listing)
    ensures Lists(db, h, l) && Once(l) && Known(db, l)
    ensures Leads(RemoteItems(l.remote), n) && Leads(RowItems(db, l.rows), n)
    ensures Leads(Present(InstanceItems(db, l.instances), AbsentOf(db, h, l.instances)), n)
  {
    var remote := LeadingOrder(Entries(db, h), set e | e in Entries(db, h) && e.name == n);
    var on := set i | i in db.instances && InstanceOn(db, i, h);
    var instances := LeadingOrder(on, set i | i in on && db.instances[i].name == n);
    var open := set r | r in db.rows && OpenOn(db, r, h);
    var rows := LeadingOrder(open, set r | r in open && db.rows[r].name == n);
    l := Listing(remote, instances, rows);
    assert Lists(db, h, l) by {
      forall i ensures i in instances <==> InstanceOn(db, i, h) { assert i in instances <==> i in on; }
      forall r ensures r in rows <==> OpenOn(db, r, h) { assert r in rows <==> r in open; }
    }
    ListedAreKnown(db, h, l);
    var pairs := InstanceItems(db, instances);
    assert PairsLead(pairs, n);
    PresentLeads(pairs, AbsentOf(db, h, instances), n);
  }

  lemma LeadingOrder<T(!new)>(s: set<T>, first: set<T>) returns (xs: seq<T>)
    requires first <= s
    ensures Enumerates(xs, s)
    ensures forall i, j :: 0 <= i < j < |xs| && xs[j] in first ==> xs[i] in first
  {
    var a := Enumeration(first);
    var b := Enumeration(s - first);
    xs := a + b;
    forall i, j | 0 <= i < j < |xs| ensures xs[i] != xs[j] && (xs[j] in first ==> xs[i] in first) {
      assert xs[i] in first <==> i < |a|;
      assert xs[j] in first <==> j < |a|;
    }
  }

  ghost predicate PairsLead(pairs: seq<(Id, Item)>, n: Name) {
    forall i, j :: 0 <= i < j < |pairs| && pairs[j].1.name == n ==> pairs[i].1.name == n
  }

  lemma {:induction false} PresentLeads(pairs: seq<(Id, Item)>, absent: set<Id>, n: Name)
    requires PairsLead(pairs, n)
    ensures Leads(Present(pairs, absent), n)
  {
    if pairs != [] {
      var front, last := pairs[..|pairs| - 1], pairs[|pairs| - 1];
      PresentLeads(front, absent, n);
      PresentMembers(front, absent);
      forall i | 0 <= i < |Present(front, absent)| && last.1.name == n ensures Present(front, absent)[i].name == n {
        assert Present(front, absent)[i] in Members(Present(front, absent));
        var p :| p in front && p.1 == Present(front, absent)[i];
        var k :| 0 <= k < |front| && front[k] == p;
        assert pairs[k].1.name == n;
      }
    }
  }

  /** However a host's rows are listed the count can be trusted, exactly when its rows are settled. */
  lemma EveryListing(db: Db, h: Id)
    ensures (forall l :: Lists(db, h, l) && Once(l) && Known(db, l) ==> !Used(db, h, l).ambiguous) <==>
              Settled(RemoteRows(db, h), InstanceRows(db, h), OpenRows(db, h))
  {
    hide Lists, Known, Once, Used, Settled;
    if Settled(RemoteRows(db, h), InstanceRows(db, h), OpenRows(db, h)) {
      forall l | Lists(db, h, l) && Once(l) && Known(db, l) ensures !Used(db, h, l).ambiguous {
        SettledListing(db, h, l);
      }
    } else {
      var l := UnsettledListing(db, h);
    }
  }

  lemma SettledListing(db: Db, h: Id, l: Listing)
    requires Lists(db, h, l) && Known(db, l) && Settled(RemoteRows(db, h), InstanceRows(db, h), OpenRows(db, h))
    ensures !Used(db, h, l).ambiguous
  {
    hide Lists, Overtakes, SameNameAgrees, Excused, SharesId;
    ListedMembers(db, h, l);
    var a, b, c := RemoteItems(l.remote), Present(InstanceItems(db, l.instances), AbsentOf(db, h, l.instances)),
                   RowItems(db, l.rows);
    assert Members(a + b + c) == Members(a) + Members(b) + Members(c);
    OrderDecides(a + b + c);
    if Overtaken(a + b + c) {
      var j: nat, k: nat :| Overtakes(a + b + c, j, k);
      OvertakesSharesId(a + b + c, j, k);
      ExcusedNotOvertaken(a, b, c, j, k);
      assert false;
    }
  }

  lemma OvertakesSharesId(items: seq<Item>, j: nat, k: nat)
    requires Overtakes(items, j, k)
    ensures j < k < |items| && SharesId(items[j], items[k]) && items[j] in Members(items) && items[k] in Members(items)
  {}

  lemma UnsettledListing(db: Db, h: Id) returns (l: Listing)
    requires !Settled(RemoteRows(db, h), InstanceRows(db, h), OpenRows(db, h))
    ensures Lists(db, h, l) && Once(l) && Known(db, l) && Used(db, h, l).ambiguous
  {
    hide Lists, Once, Overtakes, Excused, SharesId, Leads;
    var remote, local, open := RemoteRows(db, h), InstanceRows(db, h), OpenRows(db, h);
    var all := remote + local + open;
    var n, y, z;
    if SameNameAgrees(all) {
      y, z :| y in all && z in all && SharesId(y, z) && !Excused(remote, local, open, y.name, z.name)
      && !Excused(remote, local, open, z.name, y.name);
      y, z := Unexcused(remote, local, open, y, z);
      n := y.name;
    } else {
      y :| y in all;
      n := y.name;
    }
    l := LeadingListing(db, h, n);
    ListedMembers(db, h, l);
    var a, b, c := RemoteItems(l.remote), Present(InstanceItems(db, l.instances), AbsentOf(db, h, l.instances)),
                   RowItems(db, l.rows);
    assert Members(a + b + c) == Members(a) + Members(b) + Members(c) && Members(a + b) == Members(a) + Members(b);
    OrderDecides(a + b + c);
    if SameNameAgrees(all) { LeadingOvertakes(a, b, c, y, z); }
  }

  // ----- one input, two listings -----

  /**
   A host with two remote sessions, `a` without an id and `b` with one, and an instance `a`
   that has the id of `b`.
   */
  function SharedId(a: Name, b: Name, id: RemoteId): Db {
    Db(map[0 := Product(true, Capacity, None, Evolution, false, 0, None)],
       map[0 := Host(true, true, true, Evolution, None, 0, Url(0, None), 0, None, false, true, None, Unknown, None, 0,
                     0, false, None)],
       map[(0, 0) := Link(true, 0, 0)],
       map[0 := Instance(0, 0, a, Some(id), 0)],
       map[], map[0 := {Session(a, None), Session(b, Some(id))}], map[], map[])
  }

  lemma SharedIdValid(a: Name, b: Name, id: RemoteId)
    requires a != b
    ensures Inv(SharedId(a, b, id))
  {
    var db := SharedId(a, b, id);
    assert LinksIntact(db) && RowsShaped(db) && Recorded(db);
  }

  lemma SharedIdListed(a: Name, b: Name, id: RemoteId, x: Session, y: Session)
    requires a != b && {x, y} == {Session(a, None), Session(b, Some(id))}
    ensures var db, l := SharedId(a, b, id), Listing([x, y], [0], []);
            && Lists(db, 0, l) && Once(l) && Known(db, l)
            && Used(db, 0, l) == MergeAll([RemoteItem(x), RemoteItem(y), Item(a, Some(id), Some(0))])
  {
    var db := SharedId(a, b, id);
    assert Session(a, None) in {x, y} && Session(b, Some(id)) in {x, y};
    assert forall e :: e in [x, y] <==> e in {x, y};
    UsedOfThree(db, x, y, InstanceItem(db.instances[0]));
  }

  /**
   The flag depends on the order alone: the remote may report these two sessions in either
   order, both of which are accepted, and the tables keep every invariant.
   */
  lemma AmbiguityDependsOnOrder(a: Name, b: Name, id: RemoteId)
    requires a != b
    ensures var x, y := RawRow(Given(a), Missing), RawRow(Given(b), Given(id));
            && Readable([x, y]) && Readable([y, x])
            && Read(x) == Session(a, None) && Read(y) == Session(b, Some(id))
    ensures var db, l, m := SharedId(a, b, id), Listing([Session(a, None), Session(b, Some(id))], [0], []),
                            Listing([Session(b, Some(id)), Session(a, None)], [0], []);
            && Inv(db)
            && Lists(db, 0, l) && Once(l) && Known(db, l) && Lists(db, 0, m) && Once(m) && Known(db, m)
            && !Used(db, 0, l).ambiguous && Used(db, 0, m).ambiguous
  {
    hide Inv, Lists, Once, SharedId, Used, MergeAll;
    var x, y, z := Session(a, None), Session(b, Some(id)), Item(a, Some(id), Some(0));
    SharedIdValid(a, b, id);
    SharedIdListed(a, b, id, x, y);
    assert {y, x} == {x, y};
    SharedIdListed(a, b, id, y, x);
    MergeOfThree(RemoteItem(x), RemoteItem(y), z);
    MergeOfThree(RemoteItem(y), RemoteItem(x), z);
  }

  lemma UsedOfThree(db: Db, x: Session, y: Session, z: Item)
    requires 0 in db.instances && z == InstanceItem(db.instances[0]) && !Absent(db, 0, 0)
    ensures Known(db, Listing([x, y], [0], []))
    ensures Used(db, 0, Listing([x, y], [0], [])) == MergeAll([RemoteItem(x), RemoteItem(y), z])
  {
    var l := Listing([x, y], [0], []);
    var pairs := InstanceItems(db, l.instances);
    assert pairs == [(0, z)] && pairs[..0] == [];
    assert Present(pairs[..0], AbsentOf(db, 0, l.instances)) == [];
    assert Present(pairs, AbsentOf(db, 0, l.instances)) == [z];
    assert RemoteItems(l.remote) + [z] + RowItems(db, l.rows) == [RemoteItem(x), RemoteItem(y), z];
  }

  lemma MergeOfThree(x: Item, y: Item, z: Item)
    ensures MergeAll([x, y, z]) == Add(Add(Add(Merge([], false), x), y), z)
  {
    assert [x, y, z][..2] == [x, y] && [x, y][..1] == [x] && [x][..0] == [];
    assert MergeAll([]) == Merge([], false);
    assert MergeAll([x]) == Add(Merge([], false), x);
    assert MergeAll([x, y]) == Add(MergeAll([x]), y);
  }
}
