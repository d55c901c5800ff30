/** Whether some delivery that could belong to a product is still unresolved on given hosts. */
module Deliveries {
  import opened Basics
  import opened Tables

  /**
   A relay event as stored: what it was bound or matched to, what it said of its session, where
   it may have come from.
   */
  datatype StoredEvent = StoredEvent(
    delivered: bool, host: Option<Id>, instance: Option<Id>, provisioning: Option<Id>,
    name: Option<Name>, remoteId: Option<RemoteId>, origins: seq<Id>)

  datatype BatchRow = BatchRow(product: Id, ended: bool, instance: Option<Id>)

  function Origins(e: StoredEvent): seq<Id> {
    if e.host.Some? then [e.host.value] else e.origins
  }

  /** An instance, where the event may have come from, that the event may be about. */
  predicate AboutInstance(db: Db, hosts: set<Id>, e: StoredEvent, i: Id) {
    && i in db.instances
    && (if Origins(e) == [] then db.instances[i].host in hosts else db.instances[i].host in Origins(e))
    && ((e.name.Some? && db.instances[i].name == e.name.value)
        || (e.remoteId.Some? && db.instances[i].remoteId == e.remoteId))
  }

  /**
   What the instance or the row an event is tied to says decides; only without either do its
   origins and its names.
   */
  ghost predicate MayConcern(db: Db, p: Id, hosts: set<Id>, e: StoredEvent) {
    if e.instance.Some? && e.instance.value in db.instances then db.instances[e.instance.value].product == p
    else if e.provisioning.Some? && e.provisioning.value in db.rows then db.rows[e.provisioning.value].product == p
    else
      && (Origins(e) == [] || exists h :: h in Origins(e) && h in hosts)
      && ((exists i :: AboutInstance(db, hosts, e, i) && db.instances[i].product == p) || !exists i ::
            AboutInstance(db, hosts, e, i))
  }

  predicate Undelivered(hosts: set<Id>, e: StoredEvent) {
    !e.delivered && (e.host.None? || e.host.value in hosts)
  }

  predicate Unended(db: Db, p: Id, hosts: set<Id>, b: BatchRow) {
    b.product == p && !b.ended
    && (b.instance.None? || b.instance.value !in db.instances || db.instances[b.instance.value].host in hosts)
  }

  /** Some undelivered event or unended batch may still need one of the hosts for the product. */
  ghost predicate Awaited(db: Db, events: seq<StoredEvent>, batches: seq<BatchRow>, p: Id, hosts: set<Id>) {
    || (exists e :: e in events && Undelivered(hosts, e) && MayConcern(db, p, hosts, e))
    || (exists b :: b in batches && Unended(db, p, hosts, b))
  }

  /** Looks at one event after the other, until one may concern the product; then at its batches. */
  method PendingDeliveries(db: Db, events: seq<StoredEvent>, batches: seq<BatchRow>, p: Id, hosts: set<Id>)
    returns (pending: bool)
    ensures pending <==> Awaited(db, events, batches, p, hosts)
  {
    for k := 0 to |events|
      invariant forall j :: 0 <= j < k ==> !(Undelivered(hosts, events[j]) && MayConcern(db, p, hosts, events[j]))
    {
      var e := events[k];
      if !Undelivered(hosts, e) { continue; }
      if e.instance.Some? && e.instance.value in db.instances {
        if db.instances[e.instance.value].product == p { return true; }
        continue;
      }
      if e.provisioning.Some? && e.provisioning.value in db.rows {
        if db.rows[e.provisioning.value].product == p { return true; }
        continue;
      }
      var origins := if e.host.Some? then [e.host.value] else e.origins;
      if origins != [] && !exists h :: h in origins && h in hosts { continue; }
      if e.name.Some? || e.remoteId.Some? {
        var matches := set i | i in db.instances && AboutInstance(db, hosts, e, i);
        if matches != {} && forall i :: i in matches ==> db.instances[i].product != p { continue; }
        Matched(db, p, hosts, e, matches);
      }
      return true;
    }
    for k := 0 to |batches|
      invariant forall j :: 0 <= j < k ==> !Unended(db, p, hosts, batches[j])
    {
      if Unended(db, p, hosts, batches[k]) { return true; }
    }
    return false;
  }

  lemma Matched(db: Db, p: Id, hosts: set<Id>, e: StoredEvent, matches: set<Id>)
    requires matches == set i | i in db.instances && AboutInstance(db, hosts, e, i)
    requires matches == {} || exists i :: i in matches && db.instances[i].product == p
    ensures (exists i :: AboutInstance(db, hosts, e, i) && db.instances[i].product == p) || !exists i ::
              AboutInstance(db, hosts, e, i)
  {
    if i :| AboutInstance(db, hosts, e, i) { assert i in matches; }
  }

  /** Where an undelivered event can have come from: its host, or any of its origins, or, without any, anywhere. */
  ghost predicate CameFrom(e: StoredEvent, h: Id) {
    if e.host.Some? then h == e.host.value else e.origins == [] || h in e.origins
  }

  /** An instance that the event can be about: there, and under the name or the remote id it gave. */
  ghost predicate CanBe(db: Db, hosts: set<Id>, e: StoredEvent, i: Id) {
    && i in db.instances && CameFrom(e, db.instances[i].host)
    && (e.host.None? && e.origins == [] ==> db.instances[i].host in hosts)
    && (e.name == Some(db.instances[i].name)
        || (e.remoteId.Some? && e.remoteId == db.instances[i].remoteId))
  }

  /**
   What counts as pending for a product: an undelivered event that is of one of the hosts or of
   none, and whose instance is the product's; or that has no instance any more, but a row of the
   product's; or neither, and came from the hosts and can be about an instance of the product, or
   about none at all. And a batch of the product that has not ended and is not on another host.
   */
  lemma AwaitedExactly(db: Db, events: seq<StoredEvent>, batches: seq<BatchRow>, p: Id, hosts: set<Id>)
    ensures Awaited(db, events, batches, p, hosts) <==>
              || (exists e :: e in events && !e.delivered && (e.host.Some? ==> e.host.value in hosts)
                              && Concerns(db, p, hosts, e))
              || (exists b :: b in batches && b.product == p && !b.ended
                              && !(b.instance.Some? && b.instance.value in db.instances
                                   && db.instances[b.instance.value].host !in hosts))
  {
    hide MayConcern, Concerns;
    forall e ensures MayConcern(db, p, hosts, e) <==> Concerns(db, p, hosts, e) { ConcernsExactly(db, p, hosts, e); }
    forall e ensures Undelivered(hosts, e) <==> !e.delivered && (e.host.Some? ==> e.host.value in hosts) {}
  }

  /** Told by its instance, or else by its row, or else by what it can be about. */
  ghost predicate Concerns(db: Db, p: Id, hosts: set<Id>, e: StoredEvent) {
    && (e.instance.Some? && e.instance.value in db.instances ==> db.instances[e.instance.value].product == p)
    && (!(e.instance.Some? && e.instance.value in db.instances) ==>
          && (e.provisioning.Some? && e.provisioning.value in db.rows ==> db.rows[e.provisioning.value].product == p)
          && (!(e.provisioning.Some? && e.provisioning.value in db.rows) ==>
                && ((e.host.None? && e.origins == []) || exists h :: h in hosts && CameFrom(e, h))
                && ((forall i :: !CanBe(db, hosts, e, i))
                    || exists i :: CanBe(db, hosts, e, i) && db.instances[i].product == p)))
  }

  lemma ConcernsExactly(db: Db, p: Id, hosts: set<Id>, e: StoredEvent)
    ensures MayConcern(db, p, hosts, e) <==> Concerns(db, p, hosts, e)
  {
    forall h ensures h in Origins(e) <==> CameFrom(e, h) && !(e.host.None? && e.origins == []) {}
    forall i ensures AboutInstance(db, hosts, e, i) <==> CanBe(db, hosts, e, i) {}
    if e.host.None? && e.origins == [] { assert Origins(e) == []; }
  }

  /**
   When nothing is pending on all of a product's hosts, no undelivered event of one of them is
   bound to an instance of the product, or waits for a provisioning row of it.
   */
  lemma NothingPendingMeansNothingHeld(db: Db, events: seq<StoredEvent>, batches: seq<BatchRow>, p: Id,
        hosts: set<Id>, e: StoredEvent)
    requires e in events && !e.delivered && e.host.Some? && e.host.value in hosts
    requires !Awaited(db, events, batches, p, hosts)
    ensures e.instance.Some? && e.instance.value in db.instances ==> db.instances[e.instance.value].product != p
    ensures e.instance.None? && e.provisioning.Some? && e.provisioning.value in db.rows ==>
              db.rows[e.provisioning.value].product != p
  {
    assert !MayConcern(db, p, hosts, e);
  }
}
