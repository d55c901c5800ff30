/**
 What one visit of the walk comes to, in terms of the tables and of what the remote said: when a
 host's inventory is collected again, when a name is refused, and when the session is placed.
 */
module Placement {
  import opened Basics
  import opened Occupancy
  import opened Tables
  import opened Admission
  import opened Provisioning
  import opened Transactions
  import Protocol
  import opened Guarantees
  import opened Outcomes
  import opened Allocator

  // ----- looking at the host -----

  /** The host's sessions are counted: the product is distributed over hosts, or the host has a limit. */
  predicate Counted(order: Order, host: Host) {
    order.seen.mode == Capacity || host.maxInstances.Some?
  }

  /**
   A counted host is taken as it stands if it is known of late, and collected again if not. Of
   any other host the remote is asked for the name, unless that was done before: a name it
   shows is refused, and so is a remote that does not answer.
   */
  lemma PreflightExactly(db: Db, cfg: Config, order: Order, h: Id, v: Visit)
    requires h in db.hosts
    ensures var (after, reply) := Preflight(db, cfg, order, h, v);
            var host := db.hosts[h];
            var late := KnownOfLate(host, cfg, v.opening.now);
            var asked := !Counted(order, host) && order.checked != Some(h);
            var shown := v.answer.Gave? && exists k :: 0 <= k < |v.answer.sessions|
                                                       && v.answer.sessions[k].session.name == order.name;
            && (Counted(order, host) && !late ==> (after, reply) == Refresh(db, h, v))
            && (!Counted(order, host) || late ==> after == db && (reply.Answered? ==> reply.value == host))
            && (!Counted(order, host) || late ==> (reply.Threw? <==> asked && (shown || !v.answer.Gave?)))
            && (asked && reply.Threw? ==>
                  reply.why == match v.answer
                               case Gave(_) => Conflict
                               case CircuitOpen => Unavailable
                               case Broken => Internal)
  {
    hide Refresh;
    RecentExactly(db.hosts[h].lastHealthAt, v.opening.now, cfg.healthMaxAge);
    RecentExactly(db.hosts[h].observedAt, v.opening.now, cfg.inventoryMaxAge);
  }

  /** No collection of the host is under way with its lease running. */
  predicate MayCollect(db: Db, now: Time, h: Id) {
    && h in db.hosts
    && (h in db.collections && db.collections[h].leaseExpiresAt.Some? ==>
          db.collections[h].leaseExpiresAt.value <= now)
  }

  /** The collection `owner` began is still its own, of the version and destination it began with. */
  predicate StillCollecting(db: Db, h: Id, owner: Token, started: Host) {
    && h in db.hosts && h in db.collections
    && db.collections[h].owner == Some(owner) && db.collections[h].running
    && db.hosts[h].occupancyRevision == db.collections[h].observedRevision
    && db.hosts[h].configRevision == started.configRevision
    && db.hosts[h].url == started.url && db.hosts[h].apiKey == started.apiKey
  }

  /**
   Collecting again answers exactly if it could begin, the remote answered, and in time the
   collection was still its own: the host is then as published just now, with exactly the
   sessions shown. Otherwise no collection of its own is left running, and nothing is published.
   */
  lemma RefreshExactly(db: Db, h: Id, v: Visit)
    ensures var (after, reply) := Refresh(db, h, v);
            var before := v.others(Collecting, db);
            var begun := StartCollection(before, v.opening.now, v.opening.b, h, v.collector);
            && (begun.Done? <==> MayCollect(before, v.opening.now, h))
            && (begun.Refused? ==> after == before && reply.Threw?)
            && (begun.Done? ==>
                  var publishing := v.others(Publishing, begun.db);
                  && (reply.Answered? <==>
                        v.answer.Gave? && StillCollecting(publishing, h, v.collector, before.hosts[h])
                        && InTime(v.closing))
                  && (reply.Answered? ==>
                        && h in after.hosts && reply.value == after.hosts[h]
                        && reply.value.observedAt == reply.value.lastHealthAt == Some(v.closing.now)
                        && after.entries ==
                             publishing.entries[h := set k | 0 <= k < |v.answer.sessions| ::
                                                       v.answer.sessions[k].session])
                  && (reply.Threw? ==>
                        && (h in after.collections && after.collections[h].owner == Some(v.collector) ==>
                              !after.collections[h].running)
                        && var closing := if v.answer.Gave? then v.others(Closing, publishing) else publishing;
                           after == closing.(collections := after.collections)))
  {
    hide Provisioning.Publish;
    var before := v.others(Collecting, db);
    var begun := StartCollection(before, v.opening.now, v.opening.b, h, v.collector);
    if begun.Done? && v.answer.Gave? {
      var publishing := v.others(Publishing, begun.db);
      PublishedExactly(publishing, v.closing.now, v.closing.b, h, v.collector, begun.value, v.answer.sessions);
      if Publish(publishing, v.closing.now, v.closing.b, h, v.collector, begun.value, v.answer.sessions).Done? {
        ReadyExactly(publishing, v.closing.now, v.closing.b, h, v.collector, begun.value, v.answer.sessions);
        PublishedEntries(publishing, v.closing.now, v.closing.b, h, v.collector, begun.value, v.answer.sessions);
      }
    }
  }

  lemma PublishedEntries(db: Db, now: Time, b: Budget, h: Id, owner: Token, started: Host, remote: seq<Seen>)
    requires Publish(db, now, b, h, owner, started, remote).Done?
    ensures Publish(db, now, b, h, owner, started, remote).db.entries ==
              db.entries[h := set k | 0 <= k < |remote| :: remote[k].session]
  {
    hide Unsettled, NotFoundIn;
  }

  // ----- the visit as a whole -----

  /** The product's webhook is redirected, so the host must still be there. */
  predicate Relayable(db: Db, order: Order, h: Id) {
    order.hubRelay ==> h in db.hosts
  }

  /**
   A visit places the session exactly if: the request is in time before and after the remote
   is asked, the host is there and active, looking at it gave an answer, and at the moment of the
   reservation the host may take it, nothing the request had seen has changed, and the name is
   unused. In time, a refusal of the reservation is the visit's; and a request that ran out is told so.
   */
  lemma VisitExactly(db: Db, cfg: Config, order: Order, payload: Payload, h: Id, v: Visit)
    requires Allocator.Ready(v) && forall t: Db :: Lists(t, h, v.listing(t))
    ensures var turn := Visited(db, cfg, order, payload, h, v);
            var reading := v.others(Reading, db);
            && (!InTime(v.opening) ==> turn.reply == Threw(Timeout) && turn.db == db)
            && (InTime(v.opening) && !(h in reading.hosts && reading.hosts[h].active) ==>
                  turn.reply == Threw(if order.seen.mode == Capacity then Unavailable else NotFound)
                  && turn.db == reading)
            && (InTime(v.opening) && h in reading.hosts && reading.hosts[h].active ==>
                  var (looked, host) := Preflight(reading, cfg, order, h, v);
                  var relaying := v.others(Relaying, looked);
                  && (!InTime(v.closing) ==> turn.reply == Threw(Timeout) && turn.db == looked)
                  && (InTime(v.closing) && host.Threw? ==> turn.reply == Threw(host.why) && turn.db == looked)
                  && (InTime(v.closing) && host.Answered? && !Relayable(relaying, order, h) ==>
                        turn.reply == Threw(NotFound) && turn.db == relaying)
                  && (InTime(v.closing) && host.Answered? && Relayable(relaying, order, h) ==>
                        var reserving :=
                          v.others(Reserving, if order.hubRelay then WithToken(relaying, h, v.freshToken)
                                              else relaying);
                        var q := RequestFor(order, h, v, turn.payload, reserving);
                        var seen := Observed(order.seen, host.value, order.candidates);
                        && (turn.reply.Answered? <==>
                              && MayTake(reserving, cfg, v.closing.now, order.product, h, 1, v.listing(reserving))
                              && AsSeen(reserving, q, seen) && Unused(reserving, order.product, h, order.name))
                        && (turn.reply.Threw? ==> turn.db == reserving)))
  {
    hide Preflight, Reserve, AsSeen, MayTake, Unused, Lists, Retarget, WithToken;
    var turn := Visited(db, cfg, order, payload, h, v);
    var reading := v.others(Reading, db);
    if InTime(v.opening) && Usable(reading, h) {
      var (looked, host) := Preflight(reading, cfg, order, h, v);
      if InTime(v.closing) && host.Answered? {
        SettledExactly(looked, cfg, order, payload, h, host.value, v);
      }
    }
  }

  lemma SettledExactly(db: Db, cfg: Config, order: Order, payload: Payload, h: Id, host: Host, v: Visit)
    requires Allocator.Ready(v) && InTime(v.closing) && forall t: Db :: Lists(t, h, v.listing(t))
    ensures var turn := Settled(db, cfg, order, payload, h, host, v);
            var relaying := v.others(Relaying, db);
            && (!Relayable(relaying, order, h) ==> turn.reply == Threw(NotFound) && turn.db == relaying)
            && (Relayable(relaying, order, h) ==>
                  var reserving :=
                    v.others(Reserving, if order.hubRelay then WithToken(relaying, h, v.freshToken) else relaying);
                  var q := RequestFor(order, h, v, turn.payload, reserving);
                  && (turn.reply.Answered? <==>
                        && MayTake(reserving, cfg, v.closing.now, order.product, h, 1, v.listing(reserving))
                        && AsSeen(reserving, q, Observed(order.seen, host, order.candidates))
                        && Unused(reserving, order.product, h, order.name))
                  && (turn.reply.Threw? ==> turn.db == reserving))
  {
    hide Reserve, AsSeen, MayTake, Unused, Lists, Retarget, WithToken;
    var turn := Settled(db, cfg, order, payload, h, host, v);
    var relaying := v.others(Relaying, db);
    if Relayable(relaying, order, h) {
      var reserving :=
        v.others(Reserving, if order.hubRelay then WithToken(relaying, h, v.freshToken) else relaying);
      ReservedExactly(reserving, cfg, v.closing.now, v.closing.b, RequestFor(order, h, v, turn.payload, reserving),
                      Observed(order.seen, host, order.candidates), v.listing(reserving));
    }
  }

  // ----- the host's token -----

  /** Others never take a stored token away or change it. */
  ghost predicate LeavesTokens(v: Visit) {
    forall point, db: Db, g :: g in db.hosts && db.hosts[g].callbackToken.Some? ==>
                                 g in v.others(point, db).hosts
                                 && v.others(point, db).hosts[g].callbackToken == db.hosts[g].callbackToken
  }

  /** A token once stored stays, wherever the walk goes. */
  lemma {:induction false} TokensStay(db: Db, cfg: Config, order: Order, visits: seq<Visit>, k: nat, g: Id)
    requires k <= |order.candidates| == |visits| && AllReady(visits)
    requires forall j :: 0 <= j < |visits| ==> LeavesTokens(visits[j])
    requires g in db.hosts && db.hosts[g].callbackToken.Some?
    ensures var after := Allocator.Before(db, cfg, order, visits, k).db;
            g in after.hosts && after.hosts[g].callbackToken == db.hosts[g].callbackToken
  {
    hide Visited, LeavesTokens;
    if k > 0 {
      TokensStay(db, cfg, order, visits, k - 1, g);
      var was := Allocator.Before(db, cfg, order, visits, k - 1);
      VisitKeepsToken(was.db, cfg, order, was.payload, order.candidates[k - 1], visits[k - 1], g);
    }
  }

  lemma VisitKeepsToken(db: Db, cfg: Config, order: Order, payload: Payload, h: Id, v: Visit, g: Id)
    requires Allocator.Ready(v) && LeavesTokens(v) && g in db.hosts && db.hosts[g].callbackToken.Some?
    ensures var after := Visited(db, cfg, order, payload, h, v).db;
            g in after.hosts && after.hosts[g].callbackToken == db.hosts[g].callbackToken
  {
    hide Preflight, Settled;
    var reading := v.others(Reading, db);
    if InTime(v.opening) && Usable(reading, h) {
      PreflightKeepsToken(reading, cfg, order, h, v, g);
      var (looked, host) := Preflight(reading, cfg, order, h, v);
      if host.Answered? { SettledKeepsToken(looked, cfg, order, payload, h, host.value, v, g); }
    }
  }

  lemma PreflightKeepsToken(db: Db, cfg: Config, order: Order, h: Id, v: Visit, g: Id)
    requires LeavesTokens(v) && h in db.hosts && g in db.hosts && db.hosts[g].callbackToken.Some?
    ensures var after := Preflight(db, cfg, order, h, v).0;
            g in after.hosts && after.hosts[g].callbackToken == db.hosts[g].callbackToken
  {
    hide Unsettled, NotFoundIn;
  }

  lemma SettledKeepsToken(db: Db, cfg: Config, order: Order, payload: Payload, h: Id, host: Host, v: Visit, g: Id)
    requires Allocator.Ready(v) && LeavesTokens(v) && g in db.hosts && db.hosts[g].callbackToken.Some?
    ensures var after := Settled(db, cfg, order, payload, h, host, v).db;
            g in after.hosts && after.hosts[g].callbackToken == db.hosts[g].callbackToken
  {
    hide Reserve, Retarget;
    var relaying := v.others(Relaying, db);
    if Relayable(relaying, order, h) {
      var tabled := if order.hubRelay then WithToken(relaying, h, v.freshToken) else relaying;
      assert g in tabled.hosts && tabled.hosts[g].callbackToken == db.hosts[g].callbackToken;
      var reserving := v.others(Reserving, tabled);
      var q := RequestFor(order, h, v, Settled(db, cfg, order, payload, h, host, v).payload, reserving);
      ReservationKeepsToken(reserving, cfg, v.closing.now, v.closing.b, q,
                            Observed(order.seen, host, order.candidates), v.listing(reserving), g);
    }
  }

  lemma ReservationKeepsToken(db: Db, cfg: Config, now: Time, b: Budget, q: Request, seen: Observed, l: Listing, g: Id)
    requires Known(db, l) && q.row !in db.rows && g in db.hosts
    ensures var after := Protocol.Commit(db, Reserve(db, cfg, now, b, q, seen, l));
            g in after.hosts && after.hosts[g].callbackToken == db.hosts[g].callbackToken
  {
    hide Reserve, Admit;
    if Reserve(db, cfg, now, b, q, seen, l).Done? { ReserveWrites(db, cfg, now, b, q, seen, l); }
  }

  // ----- before the walk -----

  /** In time, for an active product without an open row of the name. */
  ghost predicate MayAsk(db: Db, p: Id, n: Name, o: Opening) {
    && InTime(o.opening) && p in db.products && db.products[p].active
    && forall r :: OpenRow(db, r) ==> !(db.rows[r].product == p && db.rows[r].name == n)
  }

  /** The product's instance of the name. */
  predicate HasNamesake(db: Db, p: Id, n: Name, i: Id) {
    i in db.instances && db.instances[i].product == p && db.instances[i].name == n
  }

  ghost predicate StillShown(n: Name, o: Opening) {
    o.answer.Gave? && exists k :: 0 <= k < |o.answer.sessions| && o.answer.sessions[k].session.name == n
  }

  /**
   A request may go on exactly if its product is active, has no open row of the name, and either
   no instance of it, or one that the remote, asked in time, no longer shows and that no open row
   recorded; that one is removed. A session the remote still shows is a conflict.
   */
  lemma ClearedExactly(db: Db, p: Id, n: Name, i: Id, o: Opening)
    requires (exists j :: HasNamesake(db, p, n, j)) ==> HasNamesake(db, p, n, i)
    ensures var (cleared, reply) := Cleared(db, p, n, i, o);
            && (reply.Answered? <==>
                  && MayAsk(db, p, n, o)
                  && (HasNamesake(db, p, n, i) ==>
                        && db.instances[i].host in db.hosts && o.answer.Gave? && !StillShown(n, o) && InTime(o.closing)
                        && forall r :: OpenRow(db, r) ==> db.rows[r].instance != Some(i)))
            && (reply.Answered? && !HasNamesake(db, p, n, i) ==> cleared == db && reply == Answered(None))
            && (reply.Answered? && HasNamesake(db, p, n, i) ==>
                  reply.value == Some(db.instances[i].host) && i !in cleared.instances)
            && (reply.Threw? ==> cleared == db)
  {
    hide InTime;
    if p in db.products && i in db.instances && db.instances[i].product == p {
      RemovedExactly(db, i, p, db.instances[i].host, None);
    }
  }

  /** And what it is told otherwise. */
  lemma NotClearedAs(db: Db, p: Id, n: Name, i: Id, o: Opening)
    requires (exists j :: HasNamesake(db, p, n, j)) ==> HasNamesake(db, p, n, i)
    requires Cleared(db, p, n, i, o).1.Threw?
    ensures var why := Cleared(db, p, n, i, o).1.why;
            if !MayAsk(db, p, n, o)
              then why == if !InTime(o.opening) then Timeout else if p !in db.products then NotFound
                          else if !db.products[p].active then BadRequest else Conflict
            else
              HasNamesake(db, p, n, i)
              && why == if db.instances[i].host !in db.hosts then NotFound
                        else
                          match o.answer
                          case CircuitOpen => Unavailable
                          case Broken => Internal
                          case Gave(_) => if !StillShown(n, o) && !InTime(o.closing) then Timeout else Conflict
  {
    hide InTime;
    ClearedExactly(db, p, n, i, o);
    if p in db.products && i in db.instances && db.instances[i].product == p {
      RemovedExactly(db, i, p, db.instances[i].host, None);
    }
  }

  /** Without a default host, or with allocation switched off, no candidate is visited. */
  lemma NothingToVisit(db: Db, cfg: Config, order: Order, i: Id, o: Opening, visits: seq<Visit>)
    requires |order.candidates| == |visits| && AllReady(visits)
    requires Cleared(db, order.product, order.name, i, o).1.Answered?
    ensures var (cleared, checked) := Cleared(db, order.product, order.name, i, o);
            Requested(db, cfg, order, i, o, visits) ==
              match order.seen.mode
              case Legacy => if order.seen.defaultHost.None? then Turn(cleared, order.payload, Threw(BadRequest))
                             else Placed(cleared, cfg, order.(checked := checked.value), visits)
              case Capacity => if cfg.allocationEnabled
                                 then Placed(cleared, cfg, order.(checked := checked.value), visits)
                               else Turn(cleared, order.payload, Threw(Unavailable))
  {
    hide Cleared, Placed;
  }
}
