/**
 When each transaction goes through, in terms of the tables alone, and what it leaves behind.
 None of the protocol's own tests is mentioned here, so each statement is a second account of one.
 */
module Outcomes {
  import opened Basics
  import opened Occupancy
  import opened Tables
  import opened Admission
  import opened Provisioning
  import opened Protocol
  import opened Guarantees
  import opened Frames

  // ----- admission and reservation -----

  /** No other registered host stands for the same installation. */
  predicate OnlyInstallation(db: Db, h: Id)
    requires h in db.hosts
  {
    forall g :: g in db.hosts && g != h ==> db.hosts[g].url.endpoint != db.hosts[h].url.endpoint
  }

  /** Health and inventory confirmed, and recently. */
  predicate KnownOfLate(host: Host, cfg: Config, now: Time) {
    && host.healthy && host.lastHealthAt.Some? && now <= host.lastHealthAt.value + cfg.healthMaxAge
    && host.inventoryStatus == InventoryStatus.Ready
    && host.observedAt.Some? && now <= host.observedAt.value + cfg.inventoryMaxAge
  }

  /** One installation, verified and known of late, whose sessions can be counted and leave room for `more`. */
  ghost predicate Roomy(db: Db, cfg: Config, now: Time, h: Id, more: nat, l: Listing)
    requires h in db.hosts && Known(db, l)
  {
    var host := db.hosts[h];
    && host.url.endpoint.Some? && host.canonicalEndpoint == host.url.endpoint && host.verified
    && OnlyInstallation(db, h)
    && host.vpsActive && KnownOfLate(host, cfg, now)
    && !Used(db, h, l).ambiguous
    && (host.maxInstances.Some? ==> |Occupied(db, h)| + more <= host.maxInstances.value)
  }

  ghost predicate MayTake(db: Db, cfg: Config, now: Time, p: Id, h: Id, more: nat, l: Listing)
    requires Known(db, l)
  {
    && p in db.products && h in db.hosts
    && var product, host := db.products[p], db.hosts[h];
       && product.active && host.active && host.accepting && host.adapter == product.adapter
       && (if product.mode == Legacy
             then product.defaultHost == Some(h) && ((p, h) in db.links ==> db.links[(p, h)].accepting)
           else
             cfg.allocationEnabled && (p, h) in db.links && db.links[(p, h)].accepting
             && (product.hubRelay ==> host.callbackReady))
       && (product.mode == Mode.Capacity || host.maxInstances.Some? ==> Roomy(db, cfg, now, h, more, l))
  }

  /** Admission goes through exactly so, however the rows are listed, and at most links a legacy product's default. */
  lemma AdmittedExactly(db: Db, cfg: Config, now: Time, p: Id, h: Id, own: bool, l: Listing)
    requires Known(db, l) && Lists(db, h, l)
    ensures Admit(db, cfg, now, p, h, own, l).Done? <==> MayTake(db, cfg, now, p, h, if own then 0 else 1, l)
    ensures Admit(db, cfg, now, p, h, own, l).Done? ==>
              Admit(db, cfg, now, p, h, own, l).db ==
                if (p, h) in db.links then db else db.(links := db.links[(p, h) := Link(true, 0, 0)])
  {
    hide Used, Occupied, Lists, Aliased, Fresh;
    if p in db.products && h in db.hosts {
      ControlsExactly(db, cfg, now, db.products[p], h, own, l);
    }
  }

  /**
   A refusal is 503, which lets the walk go on, except for these: no product or no host, an
   inactive product, a legacy product without default, on an inactive one, or another adapter.
   */
  lemma RefusalExactly(db: Db, cfg: Config, now: Time, p: Id, h: Id, own: bool, l: Listing)
    requires Known(db, l) && Lists(db, h, l)
    ensures p !in db.products || h !in db.hosts ==> Admit(db, cfg, now, p, h, own, l) == Refused(NotFound)
    ensures p in db.products && h in db.hosts ==>
            var product, host := db.products[p], db.hosts[h];
            var meant := if product.mode == Legacy then product.defaultHost == Some(h) else cfg.allocationEnabled;
            var o := Admit(db, cfg, now, p, h, own, l);
            && (o.Refused? && o.why != Unavailable <==>
                  || !product.active || (product.mode == Legacy && product.defaultHost.None?)
                  || (meant && !host.active && product.mode == Legacy)
                  || (meant && host.active && host.adapter != product.adapter))
            && (o.Refused? && o.why != Unavailable ==>
                  o.why == if product.active && product.defaultHost.Some? && product.mode == Legacy && !host.active
                             then NotFound else BadRequest)
  {
    hide WithinControls;
  }

  lemma ControlsExactly(db: Db, cfg: Config, now: Time, product: Product, h: Id, own: bool, l: Listing)
    requires Known(db, l) && Lists(db, h, l) && h in db.hosts
    ensures WithinControls(db, cfg, now, product, h, own, l) <==>
              Roomy(db, cfg, now, h, if own then 0 else 1, l)
              && (product.mode == Mode.Capacity && product.hubRelay ==> db.hosts[h].callbackReady)
  {
    hide Used, Occupied, Lists, Recent;
    if !Used(db, h, l).ambiguous { UsedCountsOccupied(db, h, l); }
    RecentExactly(db.hosts[h].lastHealthAt, now, cfg.healthMaxAge);
    RecentExactly(db.hosts[h].observedAt, now, cfg.inventoryMaxAge);
    assert db.hosts[h].url.endpoint.Some? ==> (Aliased(db.hosts, h, db.hosts[h].url) <==> !OnlyInstallation(db, h));
  }

  lemma RecentExactly(at: Option<Time>, now: Time, maxAge: nat)
    ensures Recent(at, now, maxAge) <==> at.Some? && now <= at.value + maxAge
  {}

  /** The product's destinations that accept, best priority first and by id among equals. */
  ghost predicate InOrder(db: Db, p: Id, order: seq<Id>) {
    && (forall h :: h in order <==> (p, h) in db.links && db.links[(p, h)].accepting)
    && (forall j, k :: 0 <= j < k < |order| && (p, order[j]) in db.links && (p, order[k]) in db.links ==>
                         var a, b := db.links[(p, order[j])].priority, db.links[(p, order[k])].priority;
                         a < b || (a == b && order[j] < order[k]))
  }

  lemma OrderExactly(db: Db, p: Id, order: seq<Id>)
    ensures CandidateOrder(db, p, order) <==> InOrder(db, p, order)
  {
    if InOrder(db, p, order) {
      forall key | key in db.links && key.0 == p && db.links[key].accepting ensures key.1 in order {
        assert key == (p, key.1);
      }
      forall k | 0 <= k < |order| ensures Accepting(db, p, order[k]) { assert order[k] in order; }
    }
    if CandidateOrder(db, p, order) {
      forall h ensures h in order <==> (p, h) in db.links && db.links[(p, h)].accepting {
        if (p, h) in db.links && db.links[(p, h)].accepting { assert (p, h).1 in order; }
        if h in order { var k :| 0 <= k < |order| && order[k] == h; assert Accepting(db, p, order[k]); }
      }
    }
  }

  /** What the preflight saw is still so: the same policy, the same destination, the same candidates. */
  ghost predicate AsSeen(db: Db, q: Request, seen: Observed) {
    && q.product in db.products && q.host in db.hosts
    && var product, host := db.products[q.product], db.hosts[q.host];
       && product.revision == seen.product.revision && product.mode == seen.product.mode
       && product.defaultHost == seen.product.defaultHost
       && host.configRevision == seen.host.configRevision && host.url == seen.host.url
       && host.adapter == seen.host.adapter
       && (product.mode == Mode.Capacity ==> InOrder(db, q.product, seen.candidates))
  }

  /** No instance or open row of the product or of the host has the name, and the host shows no session of it. */
  ghost predicate Unused(db: Db, p: Id, h: Id, n: Name) {
    && (forall i :: i in db.instances && db.instances[i].name == n ==>
                      db.instances[i].product != p && db.instances[i].host != h)
    && (forall r :: OpenRow(db, r) && db.rows[r].name == n ==> db.rows[r].product != p && db.rows[r].host != h)
    && (h in db.entries ==> forall e :: e in db.entries[h] ==> e.name != n)
  }

  /** A reservation goes through exactly so; a name in use is a conflict, which no other candidate can mend. */
  lemma ReservedExactly(db: Db, cfg: Config, now: Time, b: Budget, q: Request, seen: Observed, l: Listing)
    requires q.row !in db.rows && Known(db, l) && Lists(db, q.host, l)
    ensures var o := Reserve(db, cfg, now, b, q, seen, l);
            var ready := MayTake(db, cfg, now, q.product, q.host, 1, l) && AsSeen(db, q, seen);
            var inTime := !b.aborted && now < b.deadline;
            && (o.Done? <==> ready && inTime && Unused(db, q.product, q.host, q.name))
            && (ready && inTime && !Unused(db, q.product, q.host, q.name) ==> o.Refused? && o.why == Conflict)
            && (ready && !inTime ==> o.Refused? && o.why == Timeout)
            && (MayTake(db, cfg, now, q.product, q.host, 1, l) && !AsSeen(db, q, seen) ==>
                  o.Refused? && o.why == Unavailable)
  {
    hide MayTake, Lists, AsSeen, Unchanged, Admit, SharesName, Unused;
    AdmittedExactly(db, cfg, now, q.product, q.host, false, l);
    if MayTake(db, cfg, now, q.product, q.host, 1, l) {
      var linked := Admit(db, cfg, now, q.product, q.host, false, l).db;
      InBoth(db, cfg, now, q.product, q.host, l);
      SeenExactly(linked, q, seen);
      SameOrder(db, linked, q, seen);
      UnusedExactly(linked, q.product, q.host, q.name);
      UnusedInBoth(db, linked, q.product, q.host, q.name);
    }
  }

  /** What is reserved is the request, for its own product and host, leased until its deadline and five seconds more. */
  lemma ReservedRow(db: Db, cfg: Config, now: Time, b: Budget, q: Request, seen: Observed, l: Listing)
    requires q.row !in db.rows && Known(db, l) && Reserve(db, cfg, now, b, q, seen, l).Done?
    ensures var o := Reserve(db, cfg, now, b, q, seen, l);
            && o.value == Ticket(q.row, q.product, q.host, q.owner) && q.row in o.db.rows
            && o.db.rows == db.rows[q.row := o.db.rows[q.row]]
            && q.host in db.hosts && q.host in o.db.hosts
            && o.db.hosts[q.host].occupancyRevision == db.hosts[q.host].occupancyRevision + 1
            && o.db.rows[q.row] == Row(q.product, q.host, Some((q.product, q.host)), q.name, Reserved, None, None,
                                       Some(q.payload), Some(q.owner), Some(b.deadline + 5000), 0)
  {
    hide Admit, Unchanged, NameTaken;
    ReserveWrites(db, cfg, now, b, q, seen, l);
  }

  lemma InBoth(db: Db, cfg: Config, now: Time, p: Id, h: Id, l: Listing)
    requires Known(db, l) && MayTake(db, cfg, now, p, h, 1, l)
    ensures p in db.products && h in db.hosts
    ensures db.products[p].mode == Mode.Capacity ==> (p, h) in db.links
  {}

  lemma SeenExactly(db: Db, q: Request, seen: Observed)
    requires q.product in db.products && q.host in db.hosts
    ensures Unchanged(db, q, seen) <==> AsSeen(db, q, seen)
  {
    hide CandidateOrder, InOrder;
    OrderExactly(db, q.product, seen.candidates);
  }

  lemma SameOrder(db: Db, linked: Db, q: Request, seen: Observed)
    requires q.product in db.products && q.host in db.hosts
    requires linked == db.(links := linked.links)
    requires db.products[q.product].mode == Mode.Capacity ==> linked == db
    ensures AsSeen(linked, q, seen) <==> AsSeen(db, q, seen)
  {
    hide InOrder;
  }

  lemma UnusedExactly(db: Db, p: Id, h: Id, n: Name)
    ensures NameTaken(db, p, h, n) <==> !Unused(db, p, h, n)
  {}

  lemma UnusedInBoth(db: Db, after: Db, p: Id, h: Id, n: Name)
    requires after == db.(links := after.links)
    ensures Unused(after, p, h, n) <==> Unused(db, p, h, n)
  {
    assert forall r :: OpenRow(after, r) <==> OpenRow(db, r);
  }

  // ----- the holder's steps -----

  /** The ticket's row is open and leased to the ticket. */
  predicate Holder(db: Db, t: Ticket) {
    && t.row in db.rows && db.rows[t.row].leaseOwner == Some(t.owner)
    && var state := db.rows[t.row].state;
       state == Reserved || state == Creating || state == Uncertain || state == CleanupPending
  }

  /**
   What a step of a ticket is told when it is refused: not found where the product, the host or the
   row is gone; a conflict where the row is another's or in another state; an internal error where
   the request is gone from the row, or an instance is in the way of the one to be recorded.
   */
  lemma RefusedAs(db: Db, now: Time, t: Ticket, newId: Id, remoteId: Option<RemoteId>)
    requires newId !in db.instances && Genuine(db, t)
    ensures var o := RecordCreated(db, now, t, newId, remoteId);
            o.Refused? ==>
              var sent := Holder(db, t) && db.rows[t.row].payload.Some?
                          && (db.rows[t.row].state == Creating || db.rows[t.row].state == Uncertain);
              o.why == if t.product in db.products && t.host in db.hosts && sent
                         then (if db.rows[t.row].instance.Some? then NotFound else Internal)
                       else RefusedTo(db, t, t.product in db.products && t.host in db.hosts)
    ensures var o := MarkWebhookApplied(db, t); o.Refused? ==> o.why == RefusedTo(db, t, t.host in db.hosts)
    ensures var o := MarkCleanup(db, t);
            o.Refused? ==> o.why == if t.host in db.hosts && t.row in db.rows then Conflict else NotFound
    ensures var o := Finish(db, now, t);
            o.Refused? ==>
              o.why == if t.product in db.products && t.host in db.hosts && Holder(db, t)
                         then (if db.rows[t.row].payload.None? && db.rows[t.row].instance.Some?
                                  && (db.rows[t.row].state == Creating || db.rows[t.row].state == Uncertain)
                                 then Internal else Conflict)
                       else RefusedTo(db, t, t.product in db.products && t.host in db.hosts)
  {
    hide InstanceCollides;
  }

  /** A holder's row without a request is an error of the hub's own. */
  function RefusedTo(db: Db, t: Ticket, there: bool): Refusal {
    if !there || t.row !in db.rows then NotFound
    else if Holder(db, t) && db.rows[t.row].payload.None? then Internal
    else Conflict
  }

  /** A creation is authorised exactly for a row still reserved under a live lease, on a host that may hold it. */
  lemma AuthorisedExactly(db: Db, cfg: Config, now: Time, b: Budget, t: Ticket, l: Listing)
    requires Known(db, l) && Lists(db, t.host, l)
    ensures var o := MarkCreating(db, cfg, now, b, t, l);
            && (o.Done? <==>
                  && MayTake(db, cfg, now, t.product, t.host, 0, l) && Holder(db, t)
                  && db.rows[t.row].state == Reserved
                  && db.rows[t.row].leaseExpiresAt.Some? && now < db.rows[t.row].leaseExpiresAt.value
                  && !b.aborted && now < b.deadline)
            && (o.Refused? && MayTake(db, cfg, now, t.product, t.host, 0, l) ==>
                  o.why == if t.row !in db.rows then NotFound
                           else if Holder(db, t) && (b.aborted || b.deadline <= now) then Timeout else Conflict)
            && (o.Done? ==>
                  o.db.rows == db.rows[t.row := db.rows[t.row].(state := Creating,
                                                                revision := db.rows[t.row].revision + 1)])
  {
    hide MayTake, Lists, Admit;
    AdmittedExactly(db, cfg, now, t.product, t.host, true, l);
  }

  /**
   Recovery may go on with a row exactly while it holds it under a live lease. Whoever lost its row
   is told a conflict, and that it is gone only if it is.
   */
  lemma OwnedExactly(db: Db, now: Time, t: Ticket)
    ensures AssertOwned(db, now, t).Done? <==>
              t.host in db.hosts && Holder(db, t) && db.rows[t.row].leaseExpiresAt.Some?
              && now < db.rows[t.row].leaseExpiresAt.value
    ensures AssertOwned(db, now, t).Refused? ==>
              AssertOwned(db, now, t).why == if t.host in db.hosts && t.row in db.rows then Conflict else NotFound
  {}

  /** An instance that a session of the row would clash with. */
  predicate InTheWay(db: Db, i: Id, row: Row, remoteId: Option<RemoteId>)
    requires i in db.instances
  {
    var x := db.instances[i];
    || (x.name == row.name && (x.product == row.product || x.host == row.host))
    || (x.host == row.host && x.remoteId.Some? && x.remoteId == remoteId)
  }

  /**
   A created session is recorded exactly by the holder of a sent row that has no instance yet, where
   no instance is in its way; a row that has one is answered with it, and nothing is written.
   */
  lemma RecordedExactly(db: Db, now: Time, t: Ticket, newId: Id, remoteId: Option<RemoteId>)
    requires newId !in db.instances && Genuine(db, t)
    ensures var o := RecordCreated(db, now, t, newId, remoteId);
            var ready := t.product in db.products && t.host in db.hosts && Holder(db, t)
                         && db.rows[t.row].payload.Some?
                         && (db.rows[t.row].state == Creating || db.rows[t.row].state == Uncertain);
            && (o.Done? <==>
                  ready && if db.rows[t.row].instance.Some? then db.rows[t.row].instance.value in db.instances
                           else forall i :: i in db.instances ==> !InTheWay(db, i, db.rows[t.row], remoteId))
            && (o.Done? && db.rows[t.row].instance.Some? ==>
                  o.db == db && Some(o.value) == db.rows[t.row].instance)
            && (o.Done? && db.rows[t.row].instance.None? ==>
                  && o.value == newId && t.row in o.db.rows
                  && o.db.rows[t.row] == db.rows[t.row].(instance := Some(newId), remoteId := remoteId,
                                                         revision := db.rows[t.row].revision + 1)
                  && o.db.instances ==
                       db.instances[newId := Instance(t.product, t.host, db.rows[t.row].name, remoteId, now)])
  {
    if Holder(db, t) {
      var row := db.rows[t.row];
      var x := Instance(row.product, row.host, row.name, remoteId, now);
      assert forall i :: i in db.instances ==> (Collides(db.instances[i], x) <==> InTheWay(db, i, row, remoteId));
    }
  }

  /** An accepted webhook and the start of a cleanup are noted exactly by the holder. */
  lemma NotedExactly(db: Db, t: Ticket)
    ensures var o := MarkWebhookApplied(db, t);
            && (o.Done? <==> t.host in db.hosts && Holder(db, t) && db.rows[t.row].payload.Some?)
            && (o.Done? ==> t.row in o.db.rows
                            && o.db.rows[t.row] == db.rows[t.row].(
                                 payload := Some(db.rows[t.row].payload.value.(webhookApplied := true)),
                                 revision := db.rows[t.row].revision + 1))
    ensures var o := MarkCleanup(db, t);
            && (o.Done? <==> t.host in db.hosts && Holder(db, t) && db.rows[t.row].state != Reserved)
            && (o.Done? ==> t.row in o.db.rows
                            && o.db.rows[t.row] == db.rows[t.row].(state := CleanupPending,
                                                                   revision := db.rows[t.row].revision + 1))
  {}

  /**
   A row is committed exactly by its holder, sent, recorded and with its webhook applied; the
   first commitment of a product in capacity mode is dated, later ones leave the date.
   */
  lemma CommittedExactly(db: Db, now: Time, t: Ticket)
    requires Genuine(db, t)
    ensures var o := Finish(db, now, t);
            && (o.Done? <==>
                  && t.product in db.products && t.host in db.hosts && Holder(db, t)
                  && (db.rows[t.row].state == Creating || db.rows[t.row].state == Uncertain)
                  && db.rows[t.row].instance.Some? && db.rows[t.row].payload.Some?
                  && db.rows[t.row].payload.value.webhookApplied)
            && (o.Done? ==>
                  && t.row in o.db.rows
                  && o.db.rows[t.row] == db.rows[t.row].(
                       state := Committed, link := None, leaseOwner := None, leaseExpiresAt := None, payload := None,
                       revision := db.rows[t.row].revision + 1)
                  && t.product in o.db.products
                  && o.db.products[t.product].firstCapacityUse ==
                       if db.products[t.product].mode == Mode.Capacity && db.products[t.product].firstCapacityUse.None?
                         then Some(now) else db.products[t.product].firstCapacityUse)
  {}

  /** Abandoning releases a row not sent; a sent one stays, without an owner until its retry comes due. */
  lemma AbandonedExactly(db: Db, cfg: Config, now: Time, t: Ticket)
    requires Genuine(db, t)
    ensures var o := Abandon(db, cfg, now, t);
            && (o.Refused? <==> t.host !in db.hosts) && (o.Refused? ==> o.why == NotFound)
            && (o.Done? && !Holder(db, t) ==> o.db == db)
            && (o.Done? && Holder(db, t) ==>
                  && t.row in o.db.rows && o.db.rows[t.row].leaseOwner.None?
                  && o.db.rows[t.row].leaseExpiresAt == Some(now + cfg.recoveryInterval)
                  && o.db.rows[t.row].revision == db.rows[t.row].revision + 1
                  && o.db.rows[t.row].instance == db.rows[t.row].instance
                  && (if db.rows[t.row].state == Reserved
                        then o.db.rows[t.row].link.None? && o.db.rows[t.row].payload.None?
                      else o.db.rows[t.row].link == db.rows[t.row].link
                           && o.db.rows[t.row].payload == db.rows[t.row].payload)
                  && o.db.rows[t.row].state == match db.rows[t.row].state
                                               case Reserved => Released
                                               case CleanupPending => CleanupPending
                                               case _ => Uncertain)
  {}

  /**
   A removal takes an instance away exactly where it is the product's own on that host, and the
   caller holds the row it names or no open row has recorded the instance.
   */
  lemma RemovedExactly(db: Db, i: Id, p: Id, h: Id, holder: Option<Ticket>)
    ensures var o := RemoveConfirmed(db, i, p, h, holder);
            && (o.Done? && o.value.Some? <==>
                  && p in db.products && h in db.hosts && i in db.instances
                  && db.instances[i].product == p && db.instances[i].host == h
                  && (if holder.Some? then Holder(db, holder.value)
                      else forall r :: OpenRow(db, r) ==> db.rows[r].instance != Some(i)))
            && (o.Refused? ==>
                  o.why == if p in db.products && h in db.hosts
                              && (holder.Some? ==> holder.value.row in db.rows) then Conflict else NotFound)
            && (o.Done? && o.value.Some? ==>
                  && o.value.value == db.instances[i] && i !in o.db.instances
                  && forall r :: r in o.db.rows ==> o.db.rows[r].instance != Some(i))
  {}

  // ----- recovery -----

  /**
   A claim takes a row over exactly when it is open, was sent, and its lease is over; one that
   was never sent is released instead. Nothing else happens, and nothing at all out of time.
   */
  lemma ClaimedExactly(db: Db, now: Time, b: Budget, r: Id, owner: Token)
    requires r in db.rows ==> db.rows[r].host in db.hosts
    ensures var o := Claim(db, now, b, r, owner);
            var due := r in db.rows && (db.rows[r].leaseExpiresAt.Some? ==> db.rows[r].leaseExpiresAt.value <= now);
            (o.Refused? <==> due && OpenRow(db, r) && (b.aborted || b.deadline <= now))
            && (o.Refused? ==> o.why == Timeout)
    ensures var o := Claim(db, now, b, r, owner);
            var due := r in db.rows && (db.rows[r].leaseExpiresAt.Some? ==> db.rows[r].leaseExpiresAt.value <= now);
            o.Done? ==>
            && (o.value.Some? <==> due && (db.rows[r].state == Creating || db.rows[r].state == Uncertain
                                           || db.rows[r].state == CleanupPending))
            && (o.value.Some? ==>
                  && o.value.value == Ticket(r, db.rows[r].product, db.rows[r].host, owner)
                  && o.db.rows[r] == db.rows[r].(leaseOwner := Some(owner), leaseExpiresAt := Some(b.deadline + 5000),
                                                 revision := db.rows[r].revision + 1))
            && (due && db.rows[r].state == Reserved ==>
                  && r in o.db.rows && o.db.rows[r].state == Released && o.db.rows[r].link.None?
                  && o.db.rows[r].leaseExpiresAt.None? && o.db.rows[r].payload.None?)
            && (!due || db.rows[r].state == Committed || db.rows[r].state == Released || db.rows[r].state == Failed ==>
                  o.db == db)
  {}

  // ----- import -----

  /** An instance that an import would clash with: by name at the product or the host, or by remote id at the host. */
  predicate Clashes(db: Db, i: Id, p: Id, h: Id, name: Name, remoteId: RemoteId)
    requires i in db.instances
  {
    var x := db.instances[i];
    (x.name == name && (x.product == p || x.host == h)) || (x.host == h && x.remoteId == Some(remoteId))
  }

  /** What an import needs before it looks at the instances. */
  ghost predicate Importable(db: Db, p: Id, h: Id, name: Name, remoteId: RemoteId, source: Source) {
    && p in db.products && h in db.hosts && db.products[p].active && (p, h) in db.links
    && db.hosts[h].url == source.url && db.hosts[h].apiKey == source.apiKey
       && db.hosts[h].configRevision == source.configRevision
    && forall r :: OpenRow(db, r) ==>
                     && (db.rows[r].name == name ==> db.rows[r].product != p && db.rows[r].host != h)
                     && (db.rows[r].host == h ==> db.rows[r].remoteId != Some(remoteId))
  }

  /**
   An import creates exactly where nothing clashes, and recognises its session exactly where the
   one instance that clashes is this very session of this product on this host.
   */
  lemma ImportedExactly(db: Db, now: Time, p: Id, h: Id, name: Name, remoteId: RemoteId, source: Source, newId: Id)
    requires newId !in db.instances
    ensures var o := Import(db, now, p, h, name, remoteId, source, newId);
            var ready := Importable(db, p, h, name, remoteId, source);
            && (o.Done? && o.value.Created? <==>
                  ready && forall i :: i in db.instances ==> !Clashes(db, i, p, h, name, remoteId))
            && (o.Refused? ==>
                  o.why == if p !in db.products || h !in db.hosts then NotFound
                           else if !db.products[p].active then BadRequest
                           else if db.hosts[h].url != source.url || db.hosts[h].apiKey != source.apiKey
                                   || db.hosts[h].configRevision != source.configRevision then Conflict
                           else if (p, h) !in db.links then BadRequest else Conflict)
            && (o.Done? && o.value.Created? ==>
                  o.value.id == newId
                  && o.db.instances == db.instances[newId := Instance(p, h, name, Some(remoteId), now)])
            && forall i :: i in db.instances ==>
                 (o.Done? && o.value == Skipped(i) <==>
                    && ready && db.instances[i].product == p && db.instances[i].host == h
                    && db.instances[i].name == name && db.instances[i].remoteId == Some(remoteId)
                    && forall j :: j in db.instances && Clashes(db, j, p, h, name, remoteId) ==> j == i)
  {
    hide RowBlocksImport;
    var o := Import(db, now, p, h, name, remoteId, source, newId);
    var x := Instance(p, h, name, Some(remoteId), now);
    var existing := set i | i in db.instances && Collides(db.instances[i], x);
    if p in db.products && h in db.hosts && db.products[p].active && (p, h) in db.links
       && Source(db.hosts[h].url, db.hosts[h].apiKey, db.hosts[h].configRevision) == source {
      ImportableExactly(db, p, h, name, remoteId, source);
    }
    assert forall i :: i in db.instances ==> (Clashes(db, i, p, h, name, remoteId) <==> i in existing);
    forall i | i in db.instances && i in existing
      ensures existing == {i} <==> forall j :: j in db.instances && Clashes(db, j, p, h, name, remoteId) ==> j == i {}
  }

  lemma ImportableExactly(db: Db, p: Id, h: Id, name: Name, remoteId: RemoteId, source: Source)
    requires p in db.products && h in db.hosts && db.products[p].active && (p, h) in db.links
             && Source(db.hosts[h].url, db.hosts[h].apiKey, db.hosts[h].configRevision) == source
    ensures Importable(db, p, h, name, remoteId, source) <==>
              !exists r :: r in db.rows && OpenRow(db, r) && RowBlocksImport(db.rows[r], p, h, name, remoteId)
  {}

  // ----- inventory -----

  /** A collection begins exactly where none is running under a live lease. */
  lemma StartedExactly(db: Db, now: Time, b: Budget, h: Id, owner: Token)
    ensures var o := StartCollection(db, now, b, h, owner);
            && (o.Done? <==> h in db.hosts && (h in db.collections && db.collections[h].leaseExpiresAt.Some? ==>
                                                 db.collections[h].leaseExpiresAt.value <= now))
            && (o.Refused? ==> o.why == if h in db.hosts then Unavailable else NotFound)
            && (o.Done? ==>
                  && o.value == db.hosts[h] && h in o.db.collections
                  && o.db.collections[h].owner == Some(owner) && o.db.collections[h].running
                  && o.db.collections[h].observedRevision == db.hosts[h].occupancyRevision
                  && o.db.collections[h].leaseExpiresAt.Some? && now < o.db.collections[h].leaseExpiresAt.value)
  {}

  /** It is closed without a result exactly by its own owner. */
  lemma ClosedExactly(db: Db, h: Id, owner: Token, g: Id)
    ensures g in FailCollection(db, h, owner).collections <==>
              g in db.collections
              && !(g == h && db.collections[h].running && db.collections[h].owner == Some(owner))
  {}

  /** A session of that name on the host that cannot be told apart from the one shown. */
  predicate SameSessionAs(x: Instance, s: Session) {
    x.name == s.name && !(x.remoteId.Some? && s.remoteId.Some? && x.remoteId.value != s.remoteId.value)
  }

  /**
   Nobody else can have put the session there: all instances of its name on the host may be it
   and there is one, or there is none and an open row of the host and name recorded its id, or
   holds a secret that only the hub knew and the session shows.
   */
  ghost predicate Accounted(db: Db, h: Id, s: Seen) {
    || ((exists i :: InstanceOn(db, i, h) && db.instances[i].name == s.session.name)
        && forall i :: InstanceOn(db, i, h) && db.instances[i].name == s.session.name ==>
                         SameSessionAs(db.instances[i], s.session))
    || ((forall i :: InstanceOn(db, i, h) ==> db.instances[i].name != s.session.name)
        && exists r :: OpenOn(db, r, h) && db.rows[r].name == s.session.name &&
                       ((db.rows[r].remoteId.Some? && s.session.remoteId == db.rows[r].remoteId)
                        || (db.rows[r].payload.Some? && db.rows[r].payload.value.generated
                            && s.secret == Some(db.rows[r].payload.value.secret))))
  }

  /**
   A publication goes through exactly for the owner of the running collection, in time, with the
   version the collection began at and the destination it asked still current.
   */
  lemma PublishedExactly(db: Db, now: Time, b: Budget, h: Id, owner: Token, started: Host, remote: seq<Seen>)
    ensures Publish(db, now, b, h, owner, started, remote).Done? <==>
              && h in db.hosts && h in db.collections
              && db.collections[h].owner == Some(owner) && db.collections[h].running
              && db.hosts[h].occupancyRevision == db.collections[h].observedRevision
              && db.hosts[h].configRevision == started.configRevision && db.hosts[h].url == started.url
              && db.hosts[h].apiKey == started.apiKey
              && !b.aborted && now < b.deadline
    ensures var o := Publish(db, now, b, h, owner, started, remote);
            && (o.Refused? ==> (o.why == NotFound <==> h !in db.hosts || h !in db.collections))
            && (o.Refused? ==> o.why == NotFound || o.why == Unavailable || o.why == Timeout)
            && (o.Refused? && o.why == Timeout ==> b.aborted || b.deadline <= now)
            && (o.Refused? && !b.aborted && now < b.deadline ==> o.why != Timeout)
            && (o.Refused? && o.why == Unavailable ==>
                  || db.collections[h].owner != Some(owner) || !db.collections[h].running
                  || db.hosts[h].occupancyRevision != db.collections[h].observedRevision
                  || db.hosts[h].configRevision != started.configRevision || db.hosts[h].url != started.url
                  || db.hosts[h].apiKey != started.apiKey)
  {
    hide Unsettled, NotFoundIn;
  }

  /**
   It makes the inventory ready exactly if every session shown is accounted for, unresolved
   otherwise; it reports absent exactly the host's instances that no session shown can be; and
   it says when it was made.
   */
  lemma ReadyExactly(db: Db, now: Time, b: Budget, h: Id, owner: Token, started: Host, remote: seq<Seen>)
    requires Publish(db, now, b, h, owner, started, remote).Done?
    ensures var after := Publish(db, now, b, h, owner, started, remote).db;
            && h in after.hosts && h in after.reports && h in after.entries
            && (forall e :: e in after.entries[h] <==> exists k :: 0 <= k < |remote| && remote[k].session == e)
            && (after.hosts[h].inventoryStatus == Ready <==>
                  forall k :: 0 <= k < |remote| ==> Accounted(db, h, remote[k]))
            && (after.hosts[h].inventoryStatus != Ready ==> after.hosts[h].inventoryStatus == Unresolved)
            && after.hosts[h].healthy && after.hosts[h].lastHealthAt == after.hosts[h].observedAt == Some(now)
            && after.reports[h].inventoryRevision == after.hosts[h].inventoryRevision
               == db.hosts[h].inventoryRevision + 1
            && after.reports[h].startedAt == db.collections[h].startedAt
            && (forall i :: i in after.reports[h].absent <==>
                              InstanceOn(db, i, h)
                              && forall k :: 0 <= k < |remote| ==>
                                               !SameSessionAs(db.instances[i], remote[k].session))
            && h !in after.collections
  {
    hide Accounted, Contradicted, Explained;
    forall k | 0 <= k < |remote|
      ensures Accounted(db, h, remote[k]) <==> !Contradicted(db, h, remote[k]) && Explained(db, h, remote[k])
    {
      AccountedExactly(db, h, remote[k]);
    }
  }

  lemma AccountedExactly(db: Db, h: Id, s: Seen)
    ensures Accounted(db, h, s) <==> !Contradicted(db, h, s) && Explained(db, h, s)
  {
    if NamedOn(db, h, s.session.name) {
      var i :| i in db.instances && InstanceOn(db, i, h) && db.instances[i].name == s.session.name;
    }
  }

  // ----- occupancy -----

  /** The last inventory says that the instance was not there, and it is no newer than that inventory. */
  predicate ReportedGone(db: Db, i: Id)
    requires i in db.instances
  {
    var x := db.instances[i];
    && x.host in db.hosts && x.host in db.reports && i in db.reports[x.host].absent
    && db.reports[x.host].inventoryRevision == db.hosts[x.host].inventoryRevision
    && !(db.reports[x.host].startedAt < x.updatedAt)
  }

  /** A name is taken on a host exactly by a session shown there, an instance not reported gone, or an open row. */
  lemma TakenExactly(db: Db, h: Id, n: Name)
    ensures n in Occupied(db, h) <==>
              || (exists e :: e in Entries(db, h) && e.name == n)
              || (exists i :: i in db.instances && db.instances[i].host == h && db.instances[i].name == n
                              && !ReportedGone(db, i))
              || (exists r :: r in db.rows && db.rows[r].host == h && db.rows[r].name == n && Open(db.rows[r].state))
  {
    forall i | i in db.instances && db.instances[i].host == h ensures Absent(db, i, h) <==> ReportedGone(db, i) {}
  }

  // ----- administration -----

  /** A row still counts against its product: it has not ended, or kept an owner or a date. */
  predicate Outstanding(row: Row) {
    || (row.state != Committed && row.state != Released && row.state != RowState.Failed)
    || row.leaseOwner.Some? || row.leaseExpiresAt.Some?
  }

  /**
   A host is detached exactly if nothing of the product depends on it: not its default, none of its
   instances, no outstanding row, no event on its way. The link goes, and with it the last rows'.
   */
  lemma DetachedExactly(db: Db, p: Id, h: Id, deliveries: bool)
    ensures var o := Detach(db, p, h, deliveries);
            && (o.Done? <==>
                  && p in db.products && h in db.hosts && (p, h) in db.links && db.products[p].defaultHost != Some(h)
                  && (forall i :: i in db.instances ==> !(db.instances[i].product == p && db.instances[i].host == h))
                  && (forall r :: r in db.rows && Outstanding(db.rows[r]) ==>
                                    !(db.rows[r].product == p && db.rows[r].host == h))
                  && !deliveries)
            && (o.Refused? ==>
                  o.why == if p in db.products && h in db.hosts && (p, h) in db.links then Conflict else NotFound)
            && (o.Done? ==>
                  && o.db.links == db.links - {(p, h)} && o.db.rows.Keys == db.rows.Keys
                  && forall r :: r in db.rows ==>
                       o.db.rows[r] == if db.rows[r].link == Some((p, h)) && db.rows[r].product == p
                                          && db.rows[r].host == h
                                         then db.rows[r].(link := None) else db.rows[r])
  {}

  /**
   Legacy mode is restored exactly if the destination is usable, linked and of the product's adapter,
   all instances of the product are there, and nothing of it is outstanding or on its way.
   */
  lemma RestoredExactly(db: Db, p: Id, target: Id, deliveries: bool)
    ensures var o := RestoreLegacy(db, p, target, deliveries);
            && (o.Done? <==>
                  && p in db.products && target in db.hosts && (p, target) in db.links
                  && db.hosts[target].active && db.hosts[target].vpsActive
                  && db.hosts[target].adapter == db.products[p].adapter
                  && (forall i :: i in db.instances && db.instances[i].product == p ==> db.instances[i].host == target)
                  && (forall r :: r in db.rows && db.rows[r].product == p ==> !Outstanding(db.rows[r]))
                  && !deliveries)
            && (o.Refused? ==> o.why == if p in db.products then Conflict else NotFound)
            && (o.Done? ==>
                  o.db == db.(products := db.products[p := db.products[p].(
                                                             mode := Legacy, defaultHost := Some(target),
                                                             revision := db.products[p].revision + 1)]))
  {}

  /**
   An edit of a product can only name a host there is; it leaves the mode and the date of its first
   use, counts as an edit, and links a new default host, open to sessions in legacy mode only.
   */
  lemma EditedExactly(db: Db, p: Id, product: Product)
    ensures var o := EditProduct(db, p, product);
            && (o.Done? <==>
                  p in db.products && (product.defaultHost.Some? ==> product.defaultHost.value in db.hosts))
            && (o.Refused? ==> o.why == if p in db.products then BadRequest else NotFound)
            && (o.Done? ==>
                  && p in o.db.products
                  && o.db.products == db.products[p := o.db.products[p]]
                  && o.db.products[p].revision == db.products[p].revision + 1
                  && o.db.products[p].mode == db.products[p].mode
                  && o.db.products[p].firstCapacityUse == db.products[p].firstCapacityUse
                  && o.db.products[p].defaultHost == product.defaultHost
                  && o.db.products[p].active == product.active && o.db.products[p].adapter == product.adapter
                  && o.db.products[p].hubRelay == product.hubRelay
                  && o.db.links ==
                       if product.defaultHost.Some? && (p, product.defaultHost.value) !in db.links
                         then db.links[(p, product.defaultHost.value) := Link(db.products[p].mode == Legacy, 0, 0)]
                       else db.links)
  {}

  /** Links are put between what there is, as they are given; a switch of mode counts as an edit and changes no more. */
  lemma SwitchedExactly(db: Db, p: Id, h: Id, link: Link, mode: Mode)
    ensures PutLink(db, p, h, link).links ==
              if p in db.products && h in db.hosts then db.links[(p, h) := link] else db.links
    ensures p in db.products ==>
              SetMode(db, p, mode).products ==
                db.products[p := db.products[p].(mode := mode, revision := db.products[p].revision + 1)]
  {}

  // ----- what only some steps may do -----

  /** Only a switch of mode, or the restore of legacy mode, changes a product's mode. */
  lemma ModeChangesOnlySo(db: Db, cfg: Config, now: Time, step: Step, p: Id)
    requires Can(db, step) && p in db.products && p in After(db, cfg, now, step).products
    requires After(db, cfg, now, step).products[p].mode != db.products[p].mode
    ensures (step.DoSetMode? && step.p == p && After(db, cfg, now, step).products[p].mode == step.mode)
            || (step.DoRestoreLegacy? && step.p == p && After(db, cfg, now, step).products[p].mode == Legacy)
  {
    hide After, Can, Finish, EditProduct, RestoreLegacy, SetMode;
    if !WritesProducts(step) { StepLeaves(db, cfg, now, step); }
    else { ProductStepsMode(db, cfg, now, step, p); }
  }

  lemma ProductStepsMode(db: Db, cfg: Config, now: Time, step: Step, p: Id)
    requires Can(db, step) && WritesProducts(step) && p in db.products && p in After(db, cfg, now, step).products
    requires After(db, cfg, now, step).products[p].mode != db.products[p].mode
    ensures (step.DoSetMode? && step.p == p && After(db, cfg, now, step).products[p].mode == step.mode)
            || (step.DoRestoreLegacy? && step.p == p && After(db, cfg, now, step).products[p].mode == Legacy)
  {
    hide LegacyBlocked;
  }
}
