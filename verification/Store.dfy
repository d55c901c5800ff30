/**
 The transactions as the services run them: reads and writes of the tables in the services'
 order, a throw anywhere undoing what was written. Each is proved to be the step of the
 protocol it stands for.
 */
module Transactions {
  import opened Basics
  import opened Occupancy
  import opened Tables
  import opened Admission
  import opened Provisioning
  import opened Protocol

  /** What a caller of a transaction sees. */
  datatype Reply<+T> = Answered(value: T) | Threw(why: Refusal)

  function ReplyOf<T>(o: Outcome<T>): Reply<T> {
    if o.Done? then Answered(o.value) else Threw(o.why)
  }

  class Store {
    var products: map<Id, Product>
    var hosts: map<Id, Host>
    var links: map<(Id, Id), Link>
    var instances: map<Id, Instance>
    var rows: map<Id, Row>
    var entries: map<Id, set<Session>>
    var collections: map<Id, Collection>
    var reports: map<Id, Report>

    constructor (image: Db)
      ensures Image() == image
    {
      products, hosts, links, instances := image.products, image.hosts, image.links, image.instances;
      rows, entries, collections, reports := image.rows, image.entries, image.collections, image.reports;
    }

    function Image(): Db
      reads this
    {
      Db(products, hosts, links, instances, rows, entries, collections, reports)
    }

    method Rollback(image: Db)
      modifies this
      ensures Image() == image
    {
      products, hosts, links, instances := image.products, image.hosts, image.links, image.instances;
      rows, entries, collections, reports := image.rows, image.entries, image.collections, image.reports;
    }

    method AdvanceOccupancy(h: Id)
      requires h in hosts
      modifies this`hosts
      ensures Image() == Tables.Advance(old(Image()), h)
    {
      hosts := hosts[h := hosts[h].(occupancyRevision := hosts[h].occupancyRevision + 1)];
    }

    /** Reads a host's sessions, instances and open rows as the database listed them, and merges them. */
    method ReadOccupancy(h: Id, l: Listing) returns (effective: nat, ambiguous: bool)
      requires Known(Image(), l)
      ensures var used := Used(Image(), h, l); effective == |used.groups| && ambiguous == used.ambiguous
    {
      var byProduct;
      var image := Image();
      effective, ambiguous,
      byProduct :=
        CountSessions(RemoteItems(l.remote), InstanceItems(image, l.instances), RowItems(image, l.rows),
                      AbsentOf(image, h, l.instances));
    }

    /** On success the tables are as admission leaves them; after a throw the caller rolls back. */
    method Admission(cfg: Config, now: Time, p: Id, h: Id, own: bool, l: Listing) returns (reply: Reply<()>)
      requires Known(Image(), l)
      modifies this`links
      ensures reply == ReplyOf(Admit(old(Image()), cfg, now, p, h, own, l))
      ensures reply.Answered? ==> Image() == Admit(old(Image()), cfg, now, p, h, own, l).db
    {
      if p !in products || h !in hosts { return Threw(NotFound); }
      var product, host := products[p], hosts[h];
      var capacity := product.mode == Capacity;
      if !product.active { return Threw(BadRequest); }
      if !capacity && product.defaultHost.None? { return Threw(BadRequest); }
      if !capacity && product.defaultHost != Some(h) { return Threw(Unavailable); }
      if capacity && !cfg.allocationEnabled { return Threw(Unavailable); }
      if !host.active {
        if !capacity { return Threw(NotFound); }
        return Threw(Unavailable);
      }
      if host.adapter != product.adapter { return Threw(BadRequest); }
      if !capacity && (p, h) !in links { links := links[(p, h) := Link(true, 0, 0)]; }
      if !host.accepting || (p, h) !in links || !links[(p, h)].accepting { return Threw(Unavailable); }
      if capacity || host.maxInstances.Some? {
        if !ControlledIdentity(hosts, h, host) { return Threw(Unavailable); }
        if !host.vpsActive || !Fresh(host, cfg, now) { return Threw(Unavailable); }
        if capacity && product.hubRelay && !host.callbackReady { return Threw(Unavailable); }
        LinksDoNotCount(old(Image()), Image(), h, l);
        var effective, ambiguous := ReadOccupancy(h, l);
        if ambiguous || (host.maxInstances.Some? && effective + (if own then 0 else 1) > host.maxInstances.value) {
          return Threw(Unavailable);
        }
      }
      return Answered(());
    }

    method NameInUse(p: Id, h: Id, n: Name) returns (taken: bool)
      ensures taken <==> NameTaken(Image(), p, h, n)
    {
      var conflict := exists i ::
                        i in instances
                        && SharesName(instances[i].product, instances[i].host, instances[i].name, p, h, n);
      var unresolved := exists r ::
                          r in rows && Open(rows[r].state)
                          && SharesName(rows[r].product, rows[r].host, rows[r].name, p, h, n);
      var external := exists e :: e in Entries(Image(), h) && e.name == n;
      taken := conflict || unresolved || external;
    }

    /** The transaction `prepare` runs for one candidate host. */
    method PrepareOn(cfg: Config, now: Time, b: Budget, q: Request, seen: Observed, l: Listing)
      returns (reply: Reply<Ticket>)
      requires Known(Image(), l) && q.row !in rows
      modifies this
      ensures var o := Reserve(old(Image()), cfg, now, b, q, seen, l);
                       Image() == Commit(old(Image()), o) && reply == ReplyOf(o)
    {
      hide WithinControls, NameTaken, CandidateOrder;
      var begun := Image();
      var admitted := Admission(cfg, now, q.product, q.host, false, l);
      if admitted.Threw? { Rollback(begun); return Threw(admitted.why); }
      if !Unchanged(Image(), q, seen) { Rollback(begun); return Threw(Unavailable); }
      if !Active(b, now) { Rollback(begun); return Threw(Timeout); }
      var taken := NameInUse(q.product, q.host, q.name);
      LinksTakeNoNames(begun, Image(), q.product, q.host, q.name);
      if taken { Rollback(begun); return Threw(Conflict); }
      rows := rows[q.row := Row(q.product, q.host, Some((q.product, q.host)), q.name, Reserved, None, None,
                                Some(q.payload),
                                Some(q.owner), Some(now + Remaining(b, now) + LEASE_MARGIN), 0)];
      AdvanceOccupancy(q.host);
      return Answered(Ticket(q.row, q.product, q.host, q.owner));
    }

    /** `owned`: finds the row, or throws. */
    method Owned(t: Ticket) returns (reply: Reply<Row>)
      ensures reply == if Provisioning.Owns(Image(), t) then Answered(rows[t.row]) else Threw(Disowned(Image(), t))
    {
      if t.row !in rows { return Threw(NotFound); }
      var row := rows[t.row];
      if row.leaseOwner != Some(t.owner) || !Open(row.state) { return Threw(Conflict); }
      return Answered(row);
    }

    method MarkCreating(cfg: Config, now: Time, b: Budget, t: Ticket, l: Listing) returns (reply: Reply<()>)
      requires Known(Image(), l)
      modifies this
      ensures var o := Provisioning.MarkCreating(old(Image()), cfg, now, b, t, l);
                       Image() == Commit(old(Image()), o) && reply == ReplyOf(o)
    {
      var begun := Image();
      var admitted := Admission(cfg, now, t.product, t.host, true, l);
      if admitted.Threw? { Rollback(begun); return admitted; }
      var owned := Owned(t);
      if owned.Threw? { Rollback(begun); return Threw(owned.why); }
      var row := owned.value;
      if !Active(b, now) { Rollback(begun); return Threw(Timeout); }
      if row.state != Reserved || row.leaseExpiresAt.None? || row.leaseExpiresAt.value <= now {
        Rollback(begun); return Threw(Conflict);
      }
      rows := rows[t.row := row.(state := Creating, revision := row.revision + 1)];
      return Answered(());
    }

    method RecordCreated(now: Time, t: Ticket, newId: Id, remoteId: Option<RemoteId>) returns (reply: Reply<Id>)
      requires newId !in instances
      modifies this
      ensures var o := Provisioning.RecordCreated(old(Image()), now, t, newId, remoteId);
                       Image() == Commit(old(Image()), o) && reply == ReplyOf(o)
    {
      if t.product !in products || t.host !in hosts { return Threw(NotFound); }
      var owned := Owned(t);
      if owned.Threw? { return Threw(owned.why); }
      var row := owned.value;
      if row.payload.None? { return Threw(Internal); }
      if row.state != Creating && row.state != Uncertain { return Threw(Conflict); }
      if row.instance.Some? {
        if row.instance.value !in instances { return Threw(NotFound); }
        return Answered(row.instance.value);
      }
      var x := Instance(row.product, row.host, row.name, remoteId, now);
      if (exists i :: i in instances && Collides(instances[i], x)) || row.host !in hosts { return Threw(Internal); }
      instances := instances[newId := x];
      rows := rows[t.row := row.(instance := Some(newId), remoteId := remoteId, revision := row.revision + 1)];
      AdvanceOccupancy(row.host);
      return Answered(newId);
    }

    method MarkWebhookApplied(t: Ticket) returns (reply: Reply<()>)
      modifies this
      ensures var o := Provisioning.MarkWebhookApplied(old(Image()), t);
                       Image() == Commit(old(Image()), o) && reply == ReplyOf(o)
    {
      if t.host !in hosts { return Threw(NotFound); }
      var owned := Owned(t);
      if owned.Threw? { return Threw(owned.why); }
      var row := owned.value;
      if row.payload.None? { return Threw(Internal); }
      rows := rows[t.row := row.(payload := Some(row.payload.value.(webhookApplied := true)),
                                            revision := row.revision + 1)];
      return Answered(());
    }

    method Finish(now: Time, t: Ticket) returns (reply: Reply<()>)
      modifies this
      ensures var o := Provisioning.Finish(old(Image()), now, t);
                       Image() == Commit(old(Image()), o) && reply == ReplyOf(o)
    {
      if t.product !in products || t.host !in hosts { return Threw(NotFound); }
      var owned := Owned(t);
      if owned.Threw? { return Threw(owned.why); }
      var row := owned.value;
      if (row.state != Creating && row.state != Uncertain) || row.instance.None? { return Threw(Conflict); }
      if row.payload.None? { return Threw(Internal); }
      if !row.payload.value.webhookApplied || row.host !in hosts { return Threw(Conflict); }
      rows := rows[t.row := row.(state := Committed, link := None, leaseOwner := None, leaseExpiresAt := None,
          payload := None, revision := row.revision + 1)];
      if row.product in products && products[row.product].mode == Capacity
         && products[row.product].firstCapacityUse.None? {
        products := products[row.product := products[row.product].(firstCapacityUse := Some(now))];
      }
      AdvanceOccupancy(row.host);
      return Answered(());
    }

    method MarkCleanup(t: Ticket) returns (reply: Reply<()>)
      modifies this
      ensures var o := Provisioning.MarkCleanup(old(Image()), t);
                       Image() == Commit(old(Image()), o) && reply == ReplyOf(o)
    {
      if t.host !in hosts { return Threw(NotFound); }
      var owned := Owned(t);
      if owned.Threw? { return Threw(owned.why); }
      var row := owned.value;
      if row.state != Creating && row.state != Uncertain && row.state != CleanupPending { return Threw(Conflict); }
      rows := rows[t.row := row.(state := CleanupPending, revision := row.revision + 1)];
      return Answered(());
    }

    method Abandon(cfg: Config, now: Time, t: Ticket) returns (reply: Reply<()>)
      modifies this
      ensures var o := Provisioning.Abandon(old(Image()), cfg, now, t);
                       Image() == Commit(old(Image()), o) && reply == ReplyOf(o)
    {
      if t.host !in hosts { return Threw(NotFound); }
      if t.row !in rows || rows[t.row].leaseOwner != Some(t.owner) || !Open(rows[t.row].state) { return Answered(()); }
      var row := rows[t.row];
      if row.host !in hosts { return Threw(NotFound); }
      if row.state == Reserved {
        rows := rows[t.row := row.(state := Released, link := None, payload := None,
                                   leaseOwner := None, leaseExpiresAt := Some(now + cfg.recoveryInterval),
                                       revision := row.revision + 1)];
      } else {
        var state := if row.state == CleanupPending then CleanupPending else Uncertain;
        rows := rows[t.row := row.(state := state, leaseOwner := None,
            leaseExpiresAt := Some(now + cfg.recoveryInterval), revision := row.revision + 1)];
      }
      AdvanceOccupancy(row.host);
      return Answered(());
    }

    method DropEntries(h: Id, name: Name)
      modifies this`entries
      ensures Image() == Tables.DropEntries(old(Image()), h, name)
    {
      entries := entries[h := set e | e in Entries(Image(), h) && e.name != name];
    }

    /** Rows that referred to the instance lose the reference. */
    method DeleteInstance(i: Id)
      modifies this`instances, this`rows
      ensures Image() == Tables.DeleteInstance(old(Image()), i)
    {
      instances := map j | j in instances && j != i :: instances[j];
      rows := map r | r in rows :: Forget(rows[r], i);
    }

    method RemoveConfirmed(i: Id, p: Id, h: Id, t: Option<Ticket>) returns (reply: Reply<Option<Instance>>)
      modifies this
      ensures var o := Provisioning.RemoveConfirmed(old(Image()), i, p, h, t);
                       Image() == Commit(old(Image()), o) && reply == ReplyOf(o)
    {
      if p !in products || h !in hosts { return Threw(NotFound); }
      if t.Some? {
        var owned := Owned(t.value);
        if owned.Threw? { return Threw(owned.why); }
      } else if exists r :: r in rows && Open(rows[r].state) && rows[r].instance == Some(i) {
        return Threw(Conflict);
      }
      if i !in instances || instances[i].product != p || instances[i].host != h { return Answered(None); }
      var x := instances[i];
      DropEntries(h, x.name);
      DeleteInstance(i);
      if t.Some? {
        var row := rows[t.value.row];
        rows := rows[t.value.row := row.(state := Failed, link := None, leaseOwner := None, leaseExpiresAt := None,
            payload := None, revision := row.revision + 1)];
      }
      AdvanceOccupancy(h);
      return Answered(Some(x));
    }

    method Claim(now: Time, b: Budget, r: Id, owner: Token) returns (reply: Reply<Option<Ticket>>)
      modifies this
      ensures var o := Provisioning.Claim(old(Image()), now, b, r, owner);
                       Image() == Commit(old(Image()), o) && reply == ReplyOf(o)
    {
      if r !in rows { return Answered(None); }
      var row := rows[r];
      if row.host !in hosts { return Threw(NotFound); }
      if !Open(row.state) || (row.leaseExpiresAt.Some? && now < row.leaseExpiresAt.value) { return Answered(None); }
      if !Active(b, now) { return Threw(Timeout); }
      if row.state == Reserved {
        rows := rows[r := row.(state := Released, link := None, leaseOwner := None, leaseExpiresAt := None,
            payload := None, revision := row.revision + 1)];
        AdvanceOccupancy(row.host);
        return Answered(None);
      }
      rows := rows[r := row.(leaseOwner := Some(owner),
                                           leaseExpiresAt := Some(now + Remaining(b, now) + LEASE_MARGIN),
                                                             revision := row.revision + 1)];
      return Answered(Some(Ticket(r, row.product, row.host, owner)));
    }
  
    method Import(now: Time, p: Id, h: Id, name: Name, remoteId: RemoteId, source: Source, newId: Id)
      returns (reply: Reply<Imported>)
      requires newId !in instances
      modifies this
      ensures var o := Provisioning.Import(old(Image()), now, p, h, name, remoteId, source, newId);
                       Image() == Commit(old(Image()), o) && reply == ReplyOf(o)
    {
      if p !in products || h !in hosts { return Threw(NotFound); }
      var host := hosts[h];
      if !products[p].active { return Threw(BadRequest); }
      if host.url != source.url || host.apiKey != source.apiKey || host.configRevision != source.configRevision {
        return Threw(Conflict);
      }
      if (p, h) !in links { return Threw(BadRequest); }
      if exists r :: r in rows && Open(rows[r].state) && RowBlocksImport(rows[r], p, h, name, remoteId) {
        return Threw(Conflict);
      }
      var x := Instance(p, h, name, Some(remoteId), now);
      var existing := set i | i in instances && Collides(instances[i], x);
      if existing == {} {
        instances := instances[newId := x];
        AdvanceOccupancy(h);
        return Answered(Imported.Created(newId));
      }
      if exists i :: i in existing && existing == {i} && SameImport(instances[i], x) {
        var i :| i in existing && existing == {i} && SameImport(instances[i], x);
        return Answered(Skipped(i));
      }
      return Threw(Conflict);
    }

    method StartCollection(now: Time, b: Budget, h: Id, owner: Token) returns (reply: Reply<Host>)
      modifies this
      ensures var o := Provisioning.StartCollection(old(Image()), now, b, h, owner);
                       Image() == Commit(old(Image()), o) && reply == ReplyOf(o)
    {
      if h !in hosts { return Threw(NotFound); }
      if h in collections && collections[h].leaseExpiresAt.Some? && now < collections[h].leaseExpiresAt.value {
        return Threw(Unavailable);
      }
      collections :=
        collections[h := Collection(true, hosts[h].occupancyRevision, Some(owner),
                                    Some(now + Remaining(b, now) + LEASE_MARGIN), now)];
      return Answered(hosts[h]);
    }

    /** Counts what the remote showed that the hub cannot explain, and what contradicts it. */
    method Classify(h: Id, remote: seq<Seen>) returns (unknown: nat, conflicts: nat)
      ensures unknown + conflicts > 0 <==> Unsettled(Image(), h, remote)
    {
      unknown, conflicts := 0, 0;
      for k := 0 to |remote|
        invariant unknown + conflicts > 0 <==>
                    exists j :: 0 <= j < k && (Contradicted(Image(), h, remote[j]) || !Explained(Image(), h, remote[j]))
      {
        var session := remote[k].session;
        if exists i :: i in instances && instances[i].host == h && instances[i].name == session.name {
          if exists i ::
               i in instances && instances[i].host == h && instances[i].name == session.name
               && !SameIdentity(instances[i], session) {
            conflicts := conflicts + 1;
          }
        } else if !exists r ::
                 r in rows && Open(rows[r].state) && rows[r].host == h && rows[r].name == session.name
                 && Proven(rows[r], remote[k]) {
          unknown := unknown + 1;
        }
        ClassifiedAs(Image(), h, remote[k]);
      }
    }

    method PublishCollection(now: Time, b: Budget, h: Id, owner: Token, started: Host, remote: seq<Seen>)
      returns (reply: Reply<()>)
      modifies this
      ensures var o := Provisioning.Publish(old(Image()), now, b, h, owner, started, remote);
                       Image() == Commit(old(Image()), o) && reply == ReplyOf(o)
    {
      hide Unsettled;
      if h !in hosts || h !in collections { return Threw(NotFound); }
      var current, lease := hosts[h], collections[h];
      if lease.owner != Some(owner) || !lease.running { return Threw(Unavailable); }
      if current.occupancyRevision != lease.observedRevision || current.configRevision != started.configRevision ||
         current.url != started.url || current.apiKey != started.apiKey { return Threw(Unavailable); }
      if !Active(b, now) { return Threw(Timeout); }
      var unknown, conflicts := Classify(h, remote);
      var absent := set i | i in instances && instances[i].host == h && !exists k ::
                      0 <= k < |remote| && SameIdentity(instances[i], remote[k].session);
      assert absent == NotFoundIn(Image(), h, remote);
      var status := if unknown > 0 || conflicts > 0 then Unresolved else Ready;
      entries := entries[h := set k | 0 <= k < |remote| :: remote[k].session];
      hosts :=
        hosts[h := current.(inventoryRevision := current.inventoryRevision + 1, observedAt := Some(now),
            inventoryStatus := status, healthy := true, lastHealthAt := Some(now))];
      collections := collections - {h};
      reports := reports[h := Report(current.inventoryRevision + 1, lease.startedAt, absent)];
      return Answered(());
    }

    method FailCollection(h: Id, owner: Token)
      modifies this`collections
      ensures Image() == Provisioning.FailCollection(old(Image()), h, owner)
    {
      if h in collections && collections[h].running && collections[h].owner == Some(owner) {
        collections := collections - {h};
      }
    }

    method DetachEmptyLink(p: Id, h: Id, deliveriesPending: bool) returns (reply: Reply<()>)
      modifies this
      ensures var o := Protocol.Detach(old(Image()), p, h, deliveriesPending);
                       Image() == Commit(old(Image()), o) && reply == ReplyOf(o)
    {
      if p !in products || h !in hosts || (p, h) !in links { return Threw(NotFound); }
      var blocked := products[p].defaultHost == Some(h);
      blocked := blocked || exists i :: i in instances && instances[i].product == p && instances[i].host == h;
      blocked := blocked || exists r :: r in rows && rows[r].product == p && rows[r].host == h && Pending(rows[r]);
      if blocked || deliveriesPending { return Threw(Conflict); }
      rows := map r | r in rows :: Unlink(rows[r], p, h);
      links := links - {(p, h)};
      return Answered(());
    }
  }

  lemma LinksTakeNoNames(db: Db, after: Db, p: Id, h: Id, n: Name)
    requires after == db.(links := after.links)
    ensures NameTaken(after, p, h, n) <==> NameTaken(db, p, h, n)
  {
    assert forall r :: OpenRow(after, r) <==> OpenRow(db, r);
  }

  lemma ClassifiedAs(db: Db, h: Id, s: Seen)
    ensures Contradicted(db, h, s) ==> NamedOn(db, h, s.session.name)
    ensures NamedOn(db, h, s.session.name) ==> Explained(db, h, s)
  {}

  /** Adding a link does not change what is counted. */
  lemma LinksDoNotCount(db: Db, after: Db, h: Id, l: Listing)
    requires after == db.(links := after.links) && Known(db, l)
    ensures Known(after, l) && Used(after, h, l) == Used(db, h, l)
  {
    assert AbsentOf(after, h, l.instances) == AbsentOf(db, h, l.instances);
    assert InstanceItems(after, l.instances) == InstanceItems(db, l.instances);
    assert RowItems(after, l.rows) == RowItems(db, l.rows);
  }
}
