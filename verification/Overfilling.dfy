/**
 The three kinds of step that take no admission: exactly when each of them keeps its host within
 its limit, and that each of them can put it above.
 */
module Overfilling {
  import opened Basics
  import opened Occupancy
  import opened Tables
  import opened Admission
  import opened Provisioning
  import opened Protocol
  import opened Guarantees
  import opened Capacity
  import opened Versions
  import opened Review
  import ChangeControl

  /** No more names taken than the host allows. */
  ghost predicate Within(db: Db, h: Id) {
    Limit(db, h).Some? ==> |Occupied(db, h)| <= Limit(db, h).value
  }

  function RemoteNames(remote: seq<Seen>): set<Name> {
    set k | 0 <= k < |remote| :: remote[k].session.name
  }

  /** The names open rows hold on the host. */
  ghost function OpenNames(db: Db, h: Id): set<Name> {
    set r | r in db.rows && OpenOn(db, r, h) :: db.rows[r].name
  }

  ghost predicate Creates(db: Db, now: Time, step: Step)
    requires Can(db, step) && step.DoImport?
  {
    Commit(db, Import(db, now, step.p, step.h, step.name, step.seenId, step.source, step.newId)).instances
    != db.instances
  }

  predicate Publishes(db: Db, now: Time, step: Step)
    requires step.DoPublish?
  {
    Publish(db, now, step.b, step.h, step.owner, step.started, step.remote).Done?
  }

  /**
   What must hold before a step. A creating import needs room for its name, unless the name is
   already taken; a publication room for all it shows and all that is reserved; an edit of a
   limit must not go below what is there.
   */
  ghost predicate Fits(db: Db, now: Time, step: Step, h: Id)
    requires Can(db, step)
  {
    match step
    case DoImport(_, g, name, _, _, _) =>
      g == h && Limit(db, h).Some? && Creates(db, now, step) ==>
        name in Occupied(db, h) || |Occupied(db, h)| < Limit(db, h).value
    case DoPublish(_, g, _, _, remote) =>
      g == h && Limit(db, h).Some? && Publishes(db, now, step) ==>
        |RemoteNames(remote) + OpenNames(db, h)| <= Limit(db, h).value
    case DoEditHost(g, host) =>
      g == h && h in db.hosts && host.maxInstances.Some? ==> |Occupied(db, h)| <= host.maxInstances.value
    case _ => true
  }

  // ----- each kind of step -----

  /** A creating import takes exactly its name. */
  lemma ImportTakes(db: Db, now: Time, p: Id, h: Id, name: Name, seenId: RemoteId, source: Source, newId: Id)
    requires newId !in db.instances && Unreported(db, newId)
    requires Commit(db, Import(db, now, p, h, name, seenId, source, newId)).instances != db.instances
    ensures var after := Commit(db, Import(db, now, p, h, name, seenId, source, newId));
            Occupied(after, h) == Occupied(db, h) + {name} && Limit(after, h) == Limit(db, h)
  {
    hide RowBlocksImport, Collides, SameImport;
    var after := Commit(db, Import(db, now, p, h, name, seenId, source, newId));
    assert InstanceOn(after, newId, h) && !Absent(after, newId, h);
    assert forall i :: i != newId ==> (InstanceOn(after, i, h) <==> InstanceOn(db, i, h));
    assert forall i :: InstanceOn(db, i, h) ==>
                         (Absent(after, i, h) <==> Absent(db, i, h)) && after.instances[i] == db.instances[i];
    assert forall r :: OpenOn(after, r, h) <==> OpenOn(db, r, h);
  }

  lemma OneMoreName(names: set<Name>, n: Name, limit: nat)
    requires |names| <= limit
    ensures |names + {n}| <= limit <==> n in names || |names| < limit
  {
    if n in names { assert names + {n} == names; }
  }

  lemma ImportFits(db: Db, cfg: Config, now: Time, step: Step, h: Id)
    requires Can(db, step) && step.DoImport? && step.h == h && Creates(db, now, step) && Within(db, h)
    ensures Within(After(db, cfg, now, step), h) <==> Fits(db, now, step, h)
  {
    hide Occupied, Import;
    ImportTakes(db, now, step.p, h, step.name, step.seenId, step.source, step.newId);
    if Limit(db, h).Some? { OneMoreName(Occupied(db, h), step.name, Limit(db, h).value); }
  }

  /** A publication leaves exactly what it shows and what is reserved. */
  lemma PublicationTakes(db: Db, now: Time, b: Budget, h: Id, owner: Token, started: Host, remote: seq<Seen>)
    requires Timely(db, now) && Publish(db, now, b, h, owner, started, remote).Done?
    ensures Occupied(Publish(db, now, b, h, owner, started, remote).db, h) == RemoteNames(remote) + OpenNames(db, h)
  {
    hide Occupied, Timely, Publish;
    PublicationOccupies(db, now, b, h, owner, started, remote);
  }

  lemma PublicationFits(db: Db, cfg: Config, now: Time, step: Step, h: Id)
    requires Can(db, step) && step.DoPublish? && step.h == h && Publishes(db, now, step) && Timely(db, now)
    ensures Within(After(db, cfg, now, step), h) <==> Fits(db, now, step, h)
  {
    hide Occupied, Timely, Unsettled, NotFoundIn;
    PublicationTakes(db, now, step.b, h, step.owner, step.started, step.remote);
  }

  lemma EditFits(db: Db, cfg: Config, now: Time, step: Step, h: Id)
    requires Can(db, step) && step.DoEditHost? && step.h == h && Within(db, h)
    ensures Within(After(db, cfg, now, step), h) <==> Fits(db, now, step, h)
  {
    hide Occupied;
    EditKeepsNames(db, h, step.host);
  }

  lemma EditKeepsNames(db: Db, h: Id, host: Host)
    ensures Occupied(EditHost(db, h, host), h) == Occupied(db, h)
  {
    if h in db.hosts {
      var kept :=
        host.(occupancyRevision := db.hosts[h].occupancyRevision, inventoryRevision := db.hosts[h].inventoryRevision);
      SettingsKeepNames(db, db.hosts[h := kept], h);
    }
  }

  /** What is counted on a host depends on its inventory revision alone of all its settings. */
  lemma SettingsKeepNames(db: Db, hosts: map<Id, Host>, h: Id)
    requires h in hosts <==> h in db.hosts
    requires h in db.hosts ==> hosts[h].inventoryRevision == db.hosts[h].inventoryRevision
    ensures Occupied(db.(hosts := hosts), h) == Occupied(db, h)
  {
    var after := db.(hosts := hosts);
    assert forall i :: Absent(after, i, h) <==> Absent(db, i, h);
    assert forall i :: InstanceOn(after, i, h) <==> InstanceOn(db, i, h);
    assert forall r :: OpenOn(after, r, h) <==> OpenOn(db, r, h);
  }

  // ----- every step, every run -----

  /** A step leaves a host within its limit exactly if it fits there. */
  lemma StepKeepsWithin(db: Db, cfg: Config, now: Time, step: Step, h: Id)
    requires Can(db, step) && Timely(db, now) && Within(db, h)
    ensures Within(After(db, cfg, now, step), h) <==> Fits(db, now, step, h)
  {
    hide Occupied, After, Can, Timely, Import, Publish, EditHost;
    if step.DoImport? && step.h == h && Creates(db, now, step) { ImportFits(db, cfg, now, step, h); }
    else if step.DoPublish? && step.h == h && Publishes(db, now, step) { PublicationFits(db, cfg, now, step, h); }
    else if step.DoEditHost? && step.h == h { EditFits(db, cfg, now, step, h); }
    else { StepWithinLimit(db, cfg, now, step, h); }
  }

  /**
   In every run from a state in which the host is within its limit: it stays there throughout
   exactly if every step fits when it is taken.
   */
  lemma WithinExactly(cfg: Config, states: seq<Db>, events: seq<Event>, start: Time, h: Id)
    requires IsRun(cfg, states, events) && Within(states[0], h)
    requires Timely(states[0], start) && (|events| > 0 ==> start <= events[0].now)
    ensures (forall k :: 0 <= k < |states| ==> Within(states[k], h)) <==> forall k :: 0 <= k < |events| ==>
              Can(states[k], events[k].step) && Fits(states[k], events[k].now, events[k].step, h)
  {
    hide Within, Fits, Can, After, Timely;
    if forall k :: 0 <= k < |states| ==> Within(states[k], h) {
      forall k | 0 <= k < |events|
        ensures Can(states[k], events[k].step) && Fits(states[k], events[k].now, events[k].step, h)
      {
        TurnFits(cfg, states, events, start, h, k);
      }
    }
    if forall k :: 0 <= k < |events| ==>
                     Can(states[k], events[k].step) && Fits(states[k], events[k].now, events[k].step, h) {
      forall k | 0 <= k < |states| ensures Within(states[k], h) {
        FittingStaysWithin(cfg, states, events, start, h, k);
      }
    }
  }

  lemma TurnFits(cfg: Config, states: seq<Db>, events: seq<Event>, start: Time, h: Id, k: nat)
    requires IsRun(cfg, states, events) && k < |events| && Within(states[k], h)
    requires Timely(states[0], start) && start <= events[0].now
    ensures Can(states[k], events[k].step)
    ensures Within(states[k + 1], h) <==> Fits(states[k], events[k].now, events[k].step, h)
  {
    hide Within, Fits, Can, After, Timely;
    assert StepsTo(cfg, states[k], events[k], states[k + 1]);
    RunKeepsTimely(cfg, states, events, start, k, events[k].now);
    StepKeepsWithin(states[k], cfg, events[k].now, events[k].step, h);
  }

  lemma {:induction false} FittingStaysWithin(cfg: Config, states: seq<Db>, events: seq<Event>, start: Time, h: Id,
        k: nat)
    requires IsRun(cfg, states, events) && k < |states| && Within(states[0], h)
    requires Timely(states[0], start) && (|events| > 0 ==> start <= events[0].now)
    requires forall j :: 0 <= j < |events| ==>
                           Can(states[j], events[j].step) && Fits(states[j], events[j].now, events[j].step, h)
    ensures Within(states[k], h)
  {
    hide Within, Fits, Can, After, Timely;
    if k > 0 {
      FittingStaysWithin(cfg, states, events, start, h, k - 1);
      TurnFits(cfg, states, events, start, h, k - 1);
    }
  }

  // ----- a whole draft -----

  /** Applying a draft takes and frees no name, and sets the limits it names. */
  lemma ApplicationKeepsNames(db: Db, setup: Setup, p: Id, d: Draft, h: Id)
    requires p in db.products && WellFormed(d) && Review.Applied(db, setup, p, d).Done?
    ensures var after := Review.Applied(db, setup, p, d).db;
            && Occupied(after, h) == Occupied(db, h)
            && Limit(after, h) == if h in db.hosts && h in d.limits then d.limits[h].maxInstances else Limit(db, h)
  {
    hide Occupied, DeliveriesPending, Detach, WrittenLinks, SameRoom;
    var after := Review.Applied(db, setup, p, d).db;
    if d.purpose == ToDetach {
      var pending := DeliveriesPending(db, setup, p, false, d.target.value);
      DetachKeepsRoom(db, p, d.target.value, pending, h);
      var detached := Detach(db, p, d.target.value, pending).db;
      ProductsKeepRoom(detached, after.products, h);
      SameRoomTwice(db, detached, after, h);
    } else if d.purpose == ToLegacy {
      ProductsKeepRoom(db, after.products, h);
      assert SameRoom(db, after, h);
      SameRoomTwice(db, db, after, h);
    } else {
      ConfiguredKeepsNames(db, p, d, h);
    }
  }

  lemma ProductsKeepRoom(db: Db, products: map<Id, Product>, h: Id)
    ensures SameRoom(db, db.(products := products), h)
  {
    hide SameRoom;
    SettingsKeepRoom(db, db.(products := products), h);
  }

  lemma SameRoomTwice(a: Db, b: Db, c: Db, h: Id)
    requires a == b || SameRoom(a, b, h)
    requires SameRoom(b, c, h)
    ensures Occupied(c, h) == Occupied(a, h) && Limit(c, h) == Limit(a, h)
  {
    hide Occupied;
  }

  lemma ConfiguredKeepsNames(db: Db, p: Id, d: Draft, h: Id)
    requires p in db.products && WellFormed(d)
    ensures var after := Configured(db, p, d);
            && Occupied(after, h) == Occupied(db, h)
            && Limit(after, h) == if h in db.hosts && h in d.limits then d.limits[h].maxInstances else Limit(db, h)
  {
    hide Occupied, SameRoom, WrittenLinks;
    var hosted, after := db.(hosts := WrittenHosts(db, d)), Configured(db, p, d);
    SettingsKeepNames(db, WrittenHosts(db, d), h);
    SettingsKeepRoom(hosted, after, h);
    SameRoomTwice(hosted, hosted, after, h);
  }

  /** So it leaves a host within its limit exactly if the limit it ends up with is not below the names there. */
  lemma ApplicationFits(db: Db, setup: Setup, p: Id, d: Draft, h: Id)
    requires p in db.products && WellFormed(d) && Review.Applied(db, setup, p, d).Done? && h in db.hosts
    ensures Within(Review.Applied(db, setup, p, d).db, h) <==>
              if h in d.limits
                then d.limits[h].maxInstances.Some? ==> |Occupied(db, h)| <= d.limits[h].maxInstances.value
              else Within(db, h)
  {
    hide Occupied, Review.Applied;
    ApplicationKeepsNames(db, setup, p, d, h);
  }

  // ----- and each of the three does overfill -----

  function ReadyHost(key: nat, limit: Option<nat>): Host {
    Host(true, true, true, Evolution, limit, 0, Url(key, Some(key)), 0, Some(key), true, true, Some(1),
         InventoryStatus.Ready, Some(1), 1, 2, true, None)
  }

  function OnFirst(n: Name): Instance {
    Instance(0, 0, n, None, 1)
  }

  /**
   A product with two hosts that lack nothing, the first of them limited and holding the given
   instances. Its inventory was collected before they came, and is being collected again.
   */
  function Placed(limit: nat, instances: map<Id, Instance>): Db {
    Db(map[0 := Product(true, Mode.Capacity, None, Evolution, false, 0, None)],
       map[0 := ReadyHost(0, Some(limit)), 1 := ReadyHost(1, None)],
       map[(0, 0) := Link(true, 0, 0), (0, 1) := Link(true, 1, 0)], instances, map[], map[],
       map[0 := Collection(true, 2, Some(0), Some(Lease(Budget(10, false), 1)), 1)],
       map[0 := Report(1, 0, {}), 1 := Report(1, 0, {})])
  }

  /** Instances of the product on its first host, under different names and without remote ids. */
  predicate Plain(instances: map<Id, Instance>) {
    && (forall i :: i in instances ==> instances[i] == OnFirst(instances[i].name))
    && (forall i, j :: i in instances && j in instances && i != j ==> instances[i].name != instances[j].name)
  }

  lemma PlacedHolds(limit: nat, instances: map<Id, Instance>)
    requires Plain(instances)
    ensures Inv(Placed(limit, instances)) && Timely(Placed(limit, instances), 1)
  {
    var db := Placed(limit, instances);
    assert LinksIntact(db);
  }

  lemma PlacedNames(limit: nat, instances: map<Id, Instance>)
    requires Plain(instances)
    ensures Occupied(Placed(limit, instances), 0) == set i | i in instances :: instances[i].name
    ensures OpenNames(Placed(limit, instances), 0) == {}
  {
    var db := Placed(limit, instances);
    forall i | i in instances ensures InstanceOn(db, i, 0) && !Absent(db, i, 0) {}
  }

  lemma OnePlaced(m: Name)
    ensures var db := Placed(1, map[0 := OnFirst(m)]);
            Inv(db) && Timely(db, 1) && Occupied(db, 0) == {m} && OpenNames(db, 0) == {} && Within(db, 0)
  {
    hide Inv, Timely, Occupied, OpenNames;
    var instances := map[0 := OnFirst(m)];
    PlacedHolds(1, instances);
    PlacedNames(1, instances);
    assert instances[0].name == m;
  }

  lemma TwoPlaced(m: Name, n: Name)
    requires m != n
    ensures Plain(map[0 := OnFirst(m), 1 := OnFirst(n)])
    ensures var db := Placed(2, map[0 := OnFirst(m), 1 := OnFirst(n)]);
            Inv(db) && Timely(db, 1) && Occupied(db, 0) == {m, n} && |{m, n}| == 2 && Within(db, 0)
  {
    hide Inv, Timely, Occupied, OpenNames;
    var instances := map[0 := OnFirst(m), 1 := OnFirst(n)];
    PlacedHolds(2, instances);
    PlacedNames(2, instances);
    assert instances[0].name == m && instances[1].name == n;
  }

  lemma ImportGoesThrough(m: Name, n: Name, id: RemoteId)
    requires m != n
    ensures var db := Placed(1, map[0 := OnFirst(m)]);
            var o := Import(db, 1, 0, 0, n, id, Source(Url(0, Some(0)), 0, 0), 1);
            o.Done? && o.db.instances != db.instances
  {
    var db, x := Placed(1, map[0 := OnFirst(m)]), Instance(0, 0, n, Some(id), 1);
    assert !Collides(db.instances[0], x);
    assert (set i | i in db.instances && Collides(db.instances[i], x)) == {};
    var o := Import(db, 1, 0, 0, n, id, Source(Url(0, Some(0)), 0, 0), 1);
    assert 1 in o.db.instances && 1 !in db.instances;
  }

  /** An import takes a name beyond the limit. */
  lemma ImportOverfills(cfg: Config, m: Name, n: Name, id: RemoteId)
    requires m != n
    ensures var db, step := Placed(1, map[0 := OnFirst(m)]), DoImport(0, 0, n, id, Source(Url(0, Some(0)), 0, 0), 1);
            && Inv(db) && Timely(db, 1) && Can(db, step) && Within(db, 0)
            && Occupied(After(db, cfg, 1, step), 0) == {m, n} && !Within(After(db, cfg, 1, step), 0)
  {
    hide Occupied, Inv, Timely;
    var db, step := Placed(1, map[0 := OnFirst(m)]), DoImport(0, 0, n, id, Source(Url(0, Some(0)), 0, 0), 1);
    OnePlaced(m);
    ImportGoesThrough(m, n, id);
    assert Creates(db, 1, step) by { hide Import; }
    ImportTakes(db, 1, 0, 0, n, id, step.source, 1);
    assert |{m, n}| == 2;
  }

  /** What the remote shows: the session that was placed, and another. */
  function Both(m: Name, n: Name): seq<Seen> {
    [Seen(Session(m, None), None), Seen(Session(n, None), None)]
  }

  lemma PublicationGoesThrough(m: Name, n: Name)
    ensures var db := Placed(1, map[0 := OnFirst(m)]);
            var o := Publish(db, 1, Budget(10, false), 0, 0, db.hosts[0], Both(m, n));
            o.Done? && Limit(o.db, 0) == Some(1)
  {
    hide Unsettled, NotFoundIn;
  }

  lemma BothNames(m: Name, n: Name)
    ensures RemoteNames(Both(m, n)) == {m, n}
  {
    assert Both(m, n)[0].session.name == m && Both(m, n)[1].session.name == n;
  }

  /** So does a publication that finds a session nobody placed. */
  lemma PublicationOverfills(cfg: Config, m: Name, n: Name)
    requires m != n
    ensures var db := Placed(1, map[0 := OnFirst(m)]);
            var step := DoPublish(Budget(10, false), 0, 0, db.hosts[0], Both(m, n));
            && Inv(db) && Timely(db, 1) && Can(db, step) && Within(db, 0)
            && Occupied(After(db, cfg, 1, step), 0) == {m, n} && !Within(After(db, cfg, 1, step), 0)
  {
    hide Occupied, Inv, Timely, Publish, OpenNames, RemoteNames, Both;
    var db := Placed(1, map[0 := OnFirst(m)]);
    OnePlaced(m);
    PublicationGoesThrough(m, n);
    BothNames(m, n);
    PublicationTakes(db, 1, Budget(10, false), 0, 0, db.hosts[0], Both(m, n));
    assert |{m, n}| == 2;
  }

  /** The draft that lowers the first host's limit to 1. */
  const LOWER: Draft := Draft(ToCapacity, None, map[], map[0 := LimitEdit(0, Some(1))], map[], map[])

  ghost predicate AllListed(db: Db, ls: Listings) {
    forall h :: h in db.hosts ==> h in ls && Known(db, ls[h]) && Lists(db, h, ls[h])
  }

  lemma NoneIn<T>(s: seq<T>)
    ensures s == [] <==> forall x :: x !in s
  {
    if s != [] { assert s[0] in s; }
  }

  /** Rows that carry no remote id and all belong to one product cannot contradict each other. */
  lemma NothingAmbiguous(db: Db, h: Id, l: Listing)
    requires Known(db, l) && Lists(db, h, l) && Entries(db, h) == {} && db.rows == map[]
    requires Plain(db.instances)
    ensures !Used(db, h, l).ambiguous
  {
    var pairs, absent := InstanceItems(db, l.instances), AbsentOf(db, h, l.instances);
    var items := RemoteItems(l.remote) + Present(pairs, absent) + RowItems(db, l.rows);
    PresentMembers(pairs, absent);
    NoneIn(l.remote);
    NoneIn(l.rows);
    assert items == Present(pairs, absent);
    forall x | x in Members(items) ensures x.remoteId.None? && x.product == Some(0) {
      var q :| q in pairs && q.0 !in absent && q.1 == x;
    }
    ConsistentRowsMerge(items);
  }

  lemma LoweringSnapshot(instances: map<Id, Instance>) returns (snap: Snapshot)
    ensures SnapshotOf(Placed(2, instances), 0, LOWER) == Some(snap) && ChangeControl.Valid(LOWER, 0, snap)
    ensures snap.links == OwnLinks(Placed(2, instances), 0) && snap.links.Keys == {0, 1} && 0 in snap.hosts
            && snap.hosts[0].members == {0}
  {
    var db := Placed(2, instances);
    assert OwnHosts(db, 0) == {0, 1} by {
      assert (0, 0) in db.links && (0, 1) in db.links && (0, 0).1 == 0 && (0, 1).1 == 1;
    }
    assert MembersOf(db, 0, LOWER, 0) == {0} by { assert 0 in db.products && (0, 0) in db.links; }
    snap := SnapshotOf(db, 0, LOWER).value;
  }

  /** Neither host shows any blocker. */
  lemma PlacedHostsFit(instances: map<Id, Instance>, cfg: Config, h: Id, host: Host, link: Link, l: Listing)
    requires Plain(instances)
    requires var db := Placed(2, instances);
             h in db.hosts && Known(db, l) && Lists(db, h, l) && host == db.hosts[h].(maxInstances := host.maxInstances)
    ensures forall c ::
              !LinkBlocks(Placed(2, instances), cfg, 1, Placed(2, instances).products[0], h, host, link, l, c)
  {
    hide Used, LinkBlocks, Lists, Known;
    var db := Placed(2, instances);
    NothingAmbiguous(db, h, l);
    NoBlockers(db, cfg, 1, db.products[0], h, host, link, l);
  }

  lemma NothingBlocks(db: Db, cfg: Config, product: Product, h: Id, host: Host, link: Link, l: Listing, c: Code)
    requires Known(db, l) && !product.hubRelay && !LinkBlocks(db, cfg, 1, product, h, host, link, l, c)
    ensures !Blocks(db, cfg, 1, h, host, false, l, c)
  {
    hide Blocks;
  }

  lemma LoweringIsReady(instances: map<Id, Instance>, cfg: Config, setup: Setup, snap: Snapshot, ls: Listings)
    requires Plain(instances) && AllListed(Placed(2, instances), ls)
    requires cfg.allocationEnabled && setup.consolidated && setup.writers
    requires SnapshotOf(Placed(2, instances), 0, LOWER) == Some(snap)
             && snap.links == OwnLinks(Placed(2, instances), 0) && snap.links.Keys == {0, 1}
             && 0 in snap.hosts && snap.hosts[0].members == {0}
    ensures Reviewable(Placed(2, instances), 0, LOWER, snap, ls)
            && ReviewedReady(Placed(2, instances), cfg, setup, 1, 0, LOWER, snap, ls)
  {
    hide Used, RaisedForLinks, RaisedForLimit, SnapshotOf, Lists, Known, Plain;
    var db := Placed(2, instances);
    assert Reviewable(db, 0, LOWER, snap, ls);
    forall c: Check | Raised(db, cfg, setup, 1, 0, LOWER, snap, ls, c) ensures !c.blocking {
      if c.blocking { LinksRaiseNothing(instances, cfg, snap.links, ls, c); }
      LimitRaisesNothing(instances, cfg, snap, ls, c);
    }
  }

  lemma LinksRaiseNothing(instances: map<Id, Instance>, cfg: Config, links: map<Id, Link>, ls: Listings, c: Check)
    requires Plain(instances) && AllListed(Placed(2, instances), ls) && c.blocking
             && links == OwnLinks(Placed(2, instances), 0) && links.Keys == {0, 1}
    ensures AllKnown(Placed(2, instances), ls)
            && !RaisedForLinks(Placed(2, instances), cfg, 1, 0, links, LOWER, ls, c)
  {
    hide Used, LinkBlocks, Lists, Known, Vacant, Full, Plain;
    var db := Placed(2, instances);
    SecondHasRoom(instances, cfg, links, ls);
    if c.host.Some? && c.host.value in {0, 1} {
      var h := c.host.value;
      PlacedHostsFit(instances, cfg, h, OverlaidHost(db.hosts[h], LOWER, h), OverlaidLink(links, LOWER, h), ls[h]);
    }
  }

  lemma LimitRaisesNothing(instances: map<Id, Instance>, cfg: Config, snap: Snapshot, ls: Listings, c: Check)
    requires Plain(instances) && AllListed(Placed(2, instances), ls)
             && 0 in snap.hosts && snap.hosts[0].members == {0}
    ensures AllKnown(Placed(2, instances), ls)
            && !RaisedForLimit(Placed(2, instances), cfg, 1, LOWER, snap, ls, c)
  {
    hide Used, LinkBlocks, Blocks, Lists, Known, Plain;
    var db := Placed(2, instances);
    PlacedHostsFit(instances, cfg, 0, db.hosts[0], Link(true, 0, 0), ls[0]);
    NothingBlocks(db, cfg, db.products[0], 0, db.hosts[0], Link(true, 0, 0), ls[0], c.code);
  }

  lemma SecondHasRoom(instances: map<Id, Instance>, cfg: Config, links: map<Id, Link>, ls: Listings)
    requires Plain(instances) && AllListed(Placed(2, instances), ls)
             && links == OwnLinks(Placed(2, instances), 0) && links.Keys == {0, 1}
    ensures AllKnown(Placed(2, instances), ls) && Vacant(Placed(2, instances), cfg, 1, 0, links, LOWER, ls, 1)
  {
    hide Used, LinkBlocks, Lists, Known, Plain;
    var db := Placed(2, instances);
    PlacedHostsFit(instances, cfg, 1, OverlaidHost(db.hosts[1], LOWER, 1), OverlaidLink(links, LOWER, 1), ls[1]);
  }

  /**
   A review finds nothing against lowering a limit below the names already there, however the
   rows are listed; the draft is one that can be made, and it is applied.
   */
  lemma LoweredLimitOverfills(cfg: Config, setup: Setup, m: Name, n: Name, ls: Listings) returns (snap: Snapshot)
    requires m != n && cfg.allocationEnabled && setup.consolidated && setup.writers
    requires AllListed(Placed(2, map[0 := OnFirst(m), 1 := OnFirst(n)]), ls)
    ensures var db := Placed(2, map[0 := OnFirst(m), 1 := OnFirst(n)]);
            && Inv(db) && Timely(db, 1) && Within(db, 0)
            && SnapshotOf(db, 0, LOWER) == Some(snap) && ChangeControl.Valid(LOWER, 0, snap)
            && Reviewable(db, 0, LOWER, snap, ls) && ReviewedReady(db, cfg, setup, 1, 0, LOWER, snap, ls)
            && Review.Applied(db, setup, 0, LOWER).Done?
            && Occupied(Review.Applied(db, setup, 0, LOWER).db, 0) == {m, n}
            && !Within(Review.Applied(db, setup, 0, LOWER).db, 0)
  {
    hide Occupied, Inv, Timely, Review.Applied, ReviewedReady, Reviewable, Placed, SnapshotOf, ChangeControl.Valid,
         AllListed;
    var instances := map[0 := OnFirst(m), 1 := OnFirst(n)];
    TwoPlaced(m, n);
    snap := LoweringSnapshot(instances);
    LoweringIsReady(instances, cfg, setup, snap, ls);
    LoweringGoesThrough(instances, setup);
  }

  lemma LoweringGoesThrough(instances: map<Id, Instance>, setup: Setup)
    ensures var db := Placed(2, instances);
            && Review.Applied(db, setup, 0, LOWER).Done?
            && Occupied(Review.Applied(db, setup, 0, LOWER).db, 0) == Occupied(db, 0)
            && Limit(Review.Applied(db, setup, 0, LOWER).db, 0) == Some(1)
  {
    hide Occupied, Configured;
    ApplicationKeepsNames(Placed(2, instances), setup, 0, LOWER, 0);
  }
}
