/**
 `occupancyRevision` is a version of what the hub itself knows about a host. An
 inventory collection reads it before it asks the remote and again before it publishes.
 */
module Versions {
  import opened Basics
  import opened Occupancy
  import opened Tables
  import opened Admission
  import opened Provisioning
  import opened Protocol
  import opened Guarantees
  import opened Frames

  /** What a collection uses of an open row: whose it is, its name, and the evidence it can prove a session with. */
  datatype Claimant = Claimant(product: Id, name: Name, remoteId: Option<RemoteId>, secret: Option<Secret>)

  function AsClaimant(row: Row): Claimant {
    Claimant(row.product, row.name, row.remoteId,
             if row.payload.Some? && row.payload.value.generated then Some(row.payload.value.secret) else None)
  }

  /** The same instances and the same open reservations on the host. */
  ghost predicate SameLocal(db: Db, after: Db, h: Id) {
    && (forall i :: InstanceOn(db, i, h) <==> InstanceOn(after, i, h))
    && (forall i :: InstanceOn(db, i, h) ==> db.instances[i] == after.instances[i])
    && (forall r :: OpenOn(db, r, h) <==> OpenOn(after, r, h))
    && (forall r :: OpenOn(db, r, h) ==> AsClaimant(db.rows[r]) == AsClaimant(after.rows[r]))
  }

  /** No version goes back, and one that stands still stands for the same local state. */
  ghost predicate Versioned(db: Db, after: Db) {
    forall h :: h in db.hosts ==>
                  && h in after.hosts
                  && db.hosts[h].occupancyRevision <= after.hosts[h].occupancyRevision
                  && (db.hosts[h].occupancyRevision == after.hosts[h].occupancyRevision ==> SameLocal(db, after, h))
  }

  /**
   Instances are only ever written at the present, and a collection in the tables stood there
   before or has just begun.
   */
  ghost predicate Framed(db: Db, after: Db, now: Time) {
    && (forall i :: i in after.instances ==>
                      (i in db.instances && after.instances[i] == db.instances[i])
                      || after.instances[i].updatedAt == now)
    && (forall h :: h in after.collections ==>
                      (h in db.collections && after.collections[h] == db.collections[h])
                      || JustBegun(db, after.collections[h], h, now))
    && (forall h :: h in after.hosts ==> h in db.hosts)
  }

  predicate JustBegun(db: Db, c: Collection, h: Id, now: Time) {
    h in db.hosts && c.observedRevision == db.hosts[h].occupancyRevision && c.startedAt == now
  }

  ghost predicate SameVersions(db: Db, after: Db) {
    forall h :: h in db.hosts ==> h in after.hosts && after.hosts[h].occupancyRevision == db.hosts[h].occupancyRevision
  }

  /** Local state changed on one host at most, and no version moved yet. */
  ghost predicate Confined(db: Db, after: Db, g: Id) {
    SameVersions(db, after) && forall h :: h != g ==> SameLocal(db, after, h)
  }

  lemma AdvanceVersions(db: Db, after: Db, g: Id)
    requires Confined(db, after, g) && g in after.hosts
    ensures Versioned(db, Advance(after, g))
  {
    var advanced := Advance(after, g);
    forall h | h in db.hosts && h != g ensures SameLocal(db, advanced, h) {
      SameTablesSameLocal(db, after, advanced, h);
    }
  }

  lemma SameTablesSameLocal(db: Db, after: Db, other: Db, h: Id)
    requires SameLocal(db, after, h) && other.instances == after.instances && other.rows == after.rows
    ensures SameLocal(db, other, h)
  {
    assert forall i :: InstanceOn(other, i, h) <==> InstanceOn(after, i, h);
    assert forall r :: OpenOn(other, r, h) <==> OpenOn(after, r, h);
  }

  lemma UntouchedVersions(db: Db, after: Db, now: Time)
    requires SameVersions(db, after) && after.instances == db.instances && after.rows == db.rows
    requires forall h :: h in after.hosts ==> h in db.hosts
    requires forall h :: h in after.collections ==>
                           (h in db.collections && after.collections[h] == db.collections[h])
                           || JustBegun(db, after.collections[h], h, now)
    ensures Versioned(db, after) && Framed(db, after, now)
  {
    forall h ensures SameLocal(db, after, h) { SameTablesSameLocal(db, db, after, h); }
  }

  /** A row may change at will on its own host. */
  lemma SetRowConfined(db: Db, r: Id, row: Row)
    requires r in db.rows && row.host == db.rows[r].host
    ensures Confined(db, SetRow(db, r, row), row.host)
  {}

  /** And anywhere, as long as it stays open with the same evidence, or closed. */
  lemma SetRowVersions(db: Db, r: Id, row: Row)
    requires r in db.rows && row.host == db.rows[r].host && AsClaimant(row) == AsClaimant(db.rows[r])
    requires Open(row.state) <==> Open(db.rows[r].state)
    ensures Versioned(db, SetRow(db, r, row))
  {
    var after := SetRow(db, r, row);
    forall h ensures SameLocal(db, after, h) {
      assert forall s :: OpenOn(after, s, h) <==> OpenOn(db, s, h);
    }
  }

  lemma ReserveVersions(db: Db, cfg: Config, now: Time, b: Budget, q: Request, seen: Observed, l: Listing)
    requires Known(db, l) && q.row !in db.rows
    ensures Versioned(db, Commit(db, Reserve(db, cfg, now, b, q, seen, l)))
            && Framed(db, Commit(db, Reserve(db, cfg, now, b, q, seen, l)), now)
  {
    hide Reserve, Admit, Versioned, Confined;
    UntouchedVersions(db, db, now);
    if Reserve(db, cfg, now, b, q, seen, l).Done? {
      ReserveWrites(db, cfg, now, b, q, seen, l);
      var linked := Admit(db, cfg, now, q.product, q.host, false, l).db;
      InsertRowConfined(db, linked, q.row, NewRow(q, b, now));
      AdvanceVersions(db, SetRow(linked, q.row, NewRow(q, b, now)), q.host);
    }
  }

  lemma InsertRowConfined(db: Db, linked: Db, r: Id, row: Row)
    requires linked == db.(links := linked.links) && r !in db.rows
    ensures Confined(db, SetRow(linked, r, row), row.host)
  {}

  lemma MarkCreatingVersions(db: Db, cfg: Config, now: Time, b: Budget, t: Ticket, l: Listing)
    requires Known(db, l)
    ensures Versioned(db, Commit(db, MarkCreating(db, cfg, now, b, t, l)))
            && Framed(db, Commit(db, MarkCreating(db, cfg, now, b, t, l)), now)
  {
    hide WithinControls, SameLocal;
    UntouchedVersions(db, db, now);
    if MarkCreating(db, cfg, now, b, t, l).Done? {
      var row := db.rows[t.row];
      var creating := row.(state := Creating, revision := row.revision + 1);
      SetRowVersions(db, t.row, creating);
      var after := MarkCreating(db, cfg, now, b, t, l).db;
      forall h | h in db.hosts ensures SameLocal(db, after, h) {
        SameTablesSameLocal(db, SetRow(db, t.row, creating), after, h);
      }
    }
  }

  lemma RecordCreatedVersions(db: Db, now: Time, t: Ticket, newId: Id, remoteId: Option<RemoteId>)
    requires newId !in db.instances
    ensures Versioned(db, Commit(db, RecordCreated(db, now, t, newId, remoteId)))
            && Framed(db, Commit(db, RecordCreated(db, now, t, newId, remoteId)), now)
  {
    hide Versioned, Confined;
    UntouchedVersions(db, db, now);
    if RecordCreated(db, now, t, newId, remoteId).Done? && db.rows[t.row].instance.None? {
      var row := db.rows[t.row];
      var x := Instance(row.product, row.host, row.name, remoteId, now);
      var recorded := row.(instance := Some(newId), remoteId := remoteId, revision := row.revision + 1);
      RecordConfined(db, t.row, recorded, newId, x);
      AdvanceVersions(db, SetRow(db.(instances := db.instances[newId := x]), t.row, recorded), row.host);
    }
  }

  lemma RecordConfined(db: Db, r: Id, row: Row, i: Id, x: Instance)
    requires r in db.rows && row.host == db.rows[r].host == x.host && i !in db.instances
    ensures Confined(db, SetRow(db.(instances := db.instances[i := x]), r, row), row.host)
  {}

  lemma WebhookVersions(db: Db, now: Time, t: Ticket)
    ensures Versioned(db, Commit(db, MarkWebhookApplied(db, t)))
            && Framed(db, Commit(db, MarkWebhookApplied(db, t)), now)
  {
    hide Versioned;
    UntouchedVersions(db, db, now);
    if Owns(db, t) && db.rows[t.row].payload.Some? {
      var row := db.rows[t.row];
      SetRowVersions(db, t.row,
                     row.(payload := Some(row.payload.value.(webhookApplied := true)), revision := row.revision + 1));
    }
  }

  lemma CleanupVersions(db: Db, now: Time, t: Ticket)
    ensures Versioned(db, Commit(db, MarkCleanup(db, t))) && Framed(db, Commit(db, MarkCleanup(db, t)), now)
  {
    hide Versioned;
    UntouchedVersions(db, db, now);
    if Owns(db, t) {
      var row := db.rows[t.row];
      SetRowVersions(db, t.row, row.(state := CleanupPending, revision := row.revision + 1));
    }
  }

  lemma AbandonVersions(db: Db, cfg: Config, now: Time, t: Ticket)
    ensures Versioned(db, Commit(db, Abandon(db, cfg, now, t))) && Framed(db, Commit(db, Abandon(db, cfg, now, t)), now)
  {
    hide Versioned, Confined;
    UntouchedVersions(db, db, now);
    if Owns(db, t) && db.rows[t.row].host in db.hosts {
      var row := db.rows[t.row];
      SetRowConfined(db, t.row, Abandoned(row, cfg, now));
      AdvanceVersions(db, SetRow(db, t.row, Abandoned(row, cfg, now)), row.host);
    }
  }

  lemma FinishVersions(db: Db, now: Time, t: Ticket)
    ensures Versioned(db, Commit(db, Finish(db, now, t))) && Framed(db, Commit(db, Finish(db, now, t)), now)
  {
    hide Versioned, SameLocal;
    UntouchedVersions(db, db, now);
    if Finish(db, now, t).Done? {
      var row := db.rows[t.row];
      var committed := Closed(row, Committed);
      SetRowConfined(db, t.row, committed);
      var used := FirstUse(SetRow(db, t.row, committed), now, row.product);
      forall h | h != row.host ensures SameLocal(db, used, h) {
        SameTablesSameLocal(db, SetRow(db, t.row, committed), used, h);
      }
      AdvanceVersions(db, used, row.host);
    }
  }

  lemma RemoveVersions(db: Db, now: Time, i: Id, p: Id, h: Id, holder: Option<Ticket>)
    requires holder.Some? ==> Genuine(db, holder.value) && holder.value.host == h
    ensures Versioned(db, Commit(db, RemoveConfirmed(db, i, p, h, holder)))
            && Framed(db, Commit(db, RemoveConfirmed(db, i, p, h, holder)), now)
  {
    hide Versioned, Confined;
    UntouchedVersions(db, db, now);
    var o := RemoveConfirmed(db, i, p, h, holder);
    if o.Done? && o.value.Some? {
      var removed := DeleteInstance(DropEntries(db, h, db.instances[i].name), i);
      DeleteConfined(db, i, h);
      if holder.None? {
        AdvanceVersions(db, removed, h);
      } else {
        var r := holder.value.row;
        var cleaned := Closed(removed.rows[r], Failed);
        CloseConfined(db, removed, r, cleaned, h);
        AdvanceVersions(db, SetRow(removed, r, cleaned), h);
      }
    }
  }

  lemma DeleteConfined(db: Db, i: Id, h: Id)
    requires InstanceOn(db, i, h)
    ensures Confined(db, DeleteInstance(DropEntries(db, h, db.instances[i].name), i), h)
  {
    var after := DeleteInstance(DropEntries(db, h, db.instances[i].name), i);
    assert forall g, r :: OpenOn(after, r, g) <==> OpenOn(db, r, g);
  }

  lemma CloseConfined(db: Db, removed: Db, r: Id, row: Row, h: Id)
    requires Confined(db, removed, h) && r in removed.rows && removed.rows[r].host == row.host == h
    ensures Confined(db, SetRow(removed, r, row), h)
  {
    var after := SetRow(removed, r, row);
    forall g | g != h ensures SameLocal(db, after, g) {
      assert SameLocal(db, removed, g);
      assert forall s :: OpenOn(after, s, g) <==> OpenOn(removed, s, g);
      assert forall s :: InstanceOn(after, s, g) <==> InstanceOn(removed, s, g);
    }
  }

  lemma ClaimVersions(db: Db, now: Time, b: Budget, r: Id, owner: Token)
    ensures Versioned(db, Commit(db, Claim(db, now, b, r, owner)))
            && Framed(db, Commit(db, Claim(db, now, b, r, owner)), now)
  {
    hide Versioned, Confined;
    UntouchedVersions(db, db, now);
    if r in db.rows && Open(db.rows[r].state) {
      var row := db.rows[r];
      var released := Closed(row, Released);
      SetRowConfined(db, r, released);
      if row.host in db.hosts { AdvanceVersions(db, SetRow(db, r, released), row.host); }
      SetRowVersions(db, r, Claimed(row, now, b, owner));
    }
  }

  lemma ImportVersions(db: Db, now: Time, p: Id, h: Id, name: Name, seenId: RemoteId, source: Source, newId: Id)
    requires newId !in db.instances
    ensures Versioned(db, Commit(db, Import(db, now, p, h, name, seenId, source, newId)))
            && Framed(db, Commit(db, Import(db, now, p, h, name, seenId, source, newId)), now)
  {
    hide Versioned, Confined;
    UntouchedVersions(db, db, now);
    var o := Import(db, now, p, h, name, seenId, source, newId);
    if o.Done? && o.value.Created? {
      var x := Instance(p, h, name, Some(seenId), now);
      InsertInstanceConfined(db, newId, x);
      AdvanceVersions(db, db.(instances := db.instances[newId := x]), h);
    }
  }

  lemma InsertInstanceConfined(db: Db, i: Id, x: Instance)
    requires i !in db.instances
    ensures Confined(db, db.(instances := db.instances[i := x]), x.host)
  {
    var after := db.(instances := db.instances[i := x]);
    assert forall g, r :: OpenOn(after, r, g) <==> OpenOn(db, r, g);
  }

  lemma DetachVersions(db: Db, now: Time, p: Id, h: Id, deliveries: bool)
    ensures Versioned(db, Commit(db, Detach(db, p, h, deliveries)))
            && Framed(db, Commit(db, Detach(db, p, h, deliveries)), now)
  {
    hide DetachBlocked;
    var after := Commit(db, Detach(db, p, h, deliveries));
    forall g ensures SameLocal(db, after, g) {
      assert forall r :: OpenOn(after, r, g) <==> OpenOn(db, r, g);
      assert forall i :: InstanceOn(after, i, g) <==> InstanceOn(db, i, g);
    }
  }

  lemma EditVersions(db: Db, after: Db, now: Time)
    requires after.hosts == db.hosts && after.instances == db.instances && after.rows == db.rows
             && after.collections == db.collections
    ensures Versioned(db, after) && Framed(db, after, now)
  {
    UntouchedVersions(db, after, now);
  }

  lemma SetHostVersions(db: Db, now: Time, h: Id, host: Host)
    requires h in db.hosts && host.occupancyRevision == db.hosts[h].occupancyRevision
    ensures Versioned(db, db.(hosts := db.hosts[h := host])) && Framed(db, db.(hosts := db.hosts[h := host]), now)
  {
    hide Versioned, Framed, SameLocal;
    UntouchedVersions(db, db.(hosts := db.hosts[h := host]), now);
  }

  lemma HostEditVersions(db: Db, now: Time, h: Id, host: Host)
    ensures Versioned(db, EditHost(db, h, host)) && Framed(db, EditHost(db, h, host), now)
  {
    hide Versioned, Framed;
    UntouchedVersions(db, db, now);
    if h in db.hosts {
      SetHostVersions(db, now, h,
                      host.(occupancyRevision := db.hosts[h].occupancyRevision,
                                                 inventoryRevision := db.hosts[h].inventoryRevision));
    }
  }

  lemma ProductEditVersions(db: Db, now: Time, p: Id, product: Product)
    ensures Versioned(db, Commit(db, EditProduct(db, p, product)))
            && Framed(db, Commit(db, EditProduct(db, p, product)), now)
  {
    hide Versioned, Framed;
    EditVersions(db, Commit(db, EditProduct(db, p, product)), now);
  }

  lemma ModeEditVersions(db: Db, now: Time, p: Id, mode: Mode)
    ensures Versioned(db, SetMode(db, p, mode)) && Framed(db, SetMode(db, p, mode), now)
  {
    EditVersions(db, SetMode(db, p, mode), now);
  }

  lemma LegacyVersions(db: Db, now: Time, p: Id, target: Id, deliveries: bool)
    ensures Versioned(db, Commit(db, RestoreLegacy(db, p, target, deliveries)))
            && Framed(db, Commit(db, RestoreLegacy(db, p, target, deliveries)), now)
  {
    hide LegacyBlocked, Versioned, Framed;
    EditVersions(db, Commit(db, RestoreLegacy(db, p, target, deliveries)), now);
  }

  lemma LinkEditVersions(db: Db, now: Time, p: Id, h: Id, link: Link)
    ensures Versioned(db, PutLink(db, p, h, link)) && Framed(db, PutLink(db, p, h, link), now)
  {
    EditVersions(db, PutLink(db, p, h, link), now);
  }

  lemma StartCollectionVersions(db: Db, now: Time, b: Budget, h: Id, owner: Token)
    ensures Versioned(db, Commit(db, StartCollection(db, now, b, h, owner)))
            && Framed(db, Commit(db, StartCollection(db, now, b, h, owner)), now)
  {
    hide Versioned, Framed;
    UntouchedVersions(db, Commit(db, StartCollection(db, now, b, h, owner)), now);
  }

  lemma FailCollectionVersions(db: Db, now: Time, h: Id, owner: Token)
    ensures Versioned(db, FailCollection(db, h, owner)) && Framed(db, FailCollection(db, h, owner), now)
  {
    hide Versioned, Framed;
    UntouchedVersions(db, FailCollection(db, h, owner), now);
  }

  lemma PublishVersions(db: Db, now: Time, b: Budget, h: Id, owner: Token, started: Host, remote: seq<Seen>)
    ensures Versioned(db, Commit(db, Publish(db, now, b, h, owner, started, remote)))
            && Framed(db, Commit(db, Publish(db, now, b, h, owner, started, remote)), now)
  {
    hide Unsettled, NotFoundIn, Versioned;
    UntouchedVersions(db, Commit(db, Publish(db, now, b, h, owner, started, remote)), now);
  }

  lemma StepVersions(db: Db, cfg: Config, now: Time, step: Step)
    requires Can(db, step)
    ensures Versioned(db, After(db, cfg, now, step)) && Framed(db, After(db, cfg, now, step), now)
  {
    hide Versioned, Framed, EditHost, EditProduct, SetMode, RestoreLegacy, PutLink, StartCollection, FailCollection,
         Publish, Reserve, MarkCreating, RecordCreated, Finish, MarkWebhookApplied, MarkCleanup, Abandon,
         RemoveConfirmed, Claim, Import, Detach, Lists, Unreported;
    match step
    case DoReserve(b, q, seen, l) => ReserveVersions(db, cfg, now, b, q, seen, l);
    case DoMarkCreating(b, t, l) => MarkCreatingVersions(db, cfg, now, b, t, l);
    case DoRecordCreated(t, newId, remoteId) => RecordCreatedVersions(db, now, t, newId, remoteId);
    case DoMarkWebhookApplied(t) => WebhookVersions(db, now, t);
    case DoFinish(t) => FinishVersions(db, now, t);
    case DoMarkCleanup(t) => CleanupVersions(db, now, t);
    case DoAbandon(t) => AbandonVersions(db, cfg, now, t);
    case DoRemove(i, p, h, holder) => RemoveVersions(db, now, i, p, h, holder);
    case DoClaim(b, r, owner) => ClaimVersions(db, now, b, r, owner);
    case DoImport(p, h, name, seenId, source, newId) => ImportVersions(db, now, p, h, name, seenId, source, newId);
    case DoDetach(p, h, deliveries) => DetachVersions(db, now, p, h, deliveries);
    case DoPublish(b, h, owner, started, remote) => PublishVersions(db, now, b, h, owner, started, remote);
    case DoStartCollection(b, h, owner) => StartCollectionVersions(db, now, b, h, owner);
    case DoFailCollection(h, owner) => FailCollectionVersions(db, now, h, owner);
    case DoEditHost(h, host) => HostEditVersions(db, now, h, host);
    case DoEditProduct(p, product) => ProductEditVersions(db, now, p, product);
    case DoSetMode(p, mode) => ModeEditVersions(db, now, p, mode);
    case DoRestoreLegacy(p, target, deliveries) => LegacyVersions(db, now, p, target, deliveries);
    case DoPutLink(p, h, link) => LinkEditVersions(db, now, p, h, link);
  }

  /** Along any run, a version seen twice means nothing local changed in between. */
  lemma {:induction false} EqualVersionsEqualState(cfg: Config, states: seq<Db>, events: seq<Event>, h: Id, i: nat,
        j: nat)
    requires IsRun(cfg, states, events) && i <= j < |states| && h in states[i].hosts
    ensures h in states[j].hosts
    ensures states[i].hosts[h].occupancyRevision <= states[j].hosts[h].occupancyRevision
    ensures states[i].hosts[h].occupancyRevision == states[j].hosts[h].occupancyRevision ==>
              SameLocal(states[i], states[j], h)
    decreases j - i
  {
    hide After, Can;
    if i < j {
      EqualVersionsEqualState(cfg, states, events, h, i, j - 1);
      assert StepsTo(cfg, states[j - 1], events[j - 1], states[j]);
      StepVersions(states[j - 1], cfg, events[j - 1].now, events[j - 1].step);
      if states[i].hosts[h].occupancyRevision == states[j].hosts[h].occupancyRevision {
        SameLocalChains(states[i], states[j - 1], states[j], h);
      }
    }
  }

  lemma SameLocalChains(a: Db, b: Db, c: Db, h: Id)
    requires SameLocal(a, b, h) && SameLocal(b, c, h)
    ensures SameLocal(a, c, h)
  {}

  // ----- what a publication means -----

  /** Nothing local is newer than the clock, and a collection still current started after everything it will judge. */
  ghost predicate Timely(db: Db, now: Time) {
    && (forall i :: i in db.instances ==> db.instances[i].updatedAt <= now)
    && (forall h :: h in db.collections && h in db.hosts ==> CollectionTimely(db, h))
  }

  ghost predicate CollectionTimely(db: Db, h: Id)
    requires h in db.collections && h in db.hosts
  {
    && db.collections[h].observedRevision <= db.hosts[h].occupancyRevision
    && (db.collections[h].observedRevision == db.hosts[h].occupancyRevision ==>
          forall i :: InstanceOn(db, i, h) ==> db.instances[i].updatedAt <= db.collections[h].startedAt)
  }

  lemma FramedKeepsTimely(db: Db, after: Db, now: Time)
    requires Timely(db, now) && Versioned(db, after) && Framed(db, after, now)
    ensures Timely(after, now)
  {
    forall h | h in after.collections && h in after.hosts ensures CollectionTimely(after, h) {
      if h in db.collections && after.collections[h] == db.collections[h] {
        assert CollectionTimely(db, h);
        if after.collections[h].observedRevision == after.hosts[h].occupancyRevision {
          assert SameLocal(db, after, h);
        }
      } else {
        assert JustBegun(db, after.collections[h], h, now);
        if after.collections[h].observedRevision == after.hosts[h].occupancyRevision {
          assert SameLocal(db, after, h);
        }
      }
    }
  }

  lemma StepKeepsTimely(db: Db, cfg: Config, now: Time, step: Step)
    requires Can(db, step) && Timely(db, now)
    ensures Timely(After(db, cfg, now, step), now)
  {
    hide Timely, Versioned, Framed, Can, After;
    StepVersions(db, cfg, now, step);
    FramedKeepsTimely(db, After(db, cfg, now, step), now);
  }

  /** Nothing has been collected or placed yet. */
  lemma TimelyAtFirst(db: Db, now: Time)
    requires db.instances == map[] && db.collections == map[]
    ensures Timely(db, now)
  {}

  lemma TimelyLater(db: Db, now: Time, later: Time)
    requires Timely(db, now) && now <= later
    ensures Timely(db, later)
  {}

  /** Every state of a run is timely, at the clock of the event that led to it and at any later one. */
  lemma {:induction false} RunKeepsTimely(cfg: Config, states: seq<Db>, events: seq<Event>, start: Time, k: nat,
        now: Time)
    requires IsRun(cfg, states, events) && k < |states|
    requires Timely(states[0], start) && (|events| > 0 ==> start <= events[0].now)
    requires if k == 0 then start <= now else events[k - 1].now <= now
    ensures Timely(states[k], now)
  {
    hide Timely, After;
    if k == 0 {
      TimelyLater(states[0], start, now);
    } else {
      var e := events[k - 1];
      assert k > 1 ==> events[k - 2].now <= e.now;
      RunKeepsTimely(cfg, states, events, start, k - 1, e.now);
      assert StepsTo(cfg, states[k - 1], e, states[k]);
      StepKeepsTimely(states[k - 1], cfg, e.now, e.step);
      TimelyLater(states[k], e.now, now);
    }
  }

  /**
   In any run, right after a publication its host is occupied by exactly what the remote
   showed, plus the open reservations.
   */
  lemma PublishedOccupancy(cfg: Config, states: seq<Db>, events: seq<Event>, start: Time, k: nat)
    requires IsRun(cfg, states, events) && k < |events| && events[k].step.DoPublish?
    requires Timely(states[0], start) && start <= events[0].now
    requires var s := events[k].step; Publish(states[k], events[k].now, s.b, s.h, s.owner, s.started, s.remote).Done?
    ensures var s := events[k].step;
            Occupied(states[k + 1], s.h) ==
            (set j | 0 <= j < |s.remote| :: s.remote[j].session.name)
            + (set r | r in states[k].rows && OpenOn(states[k], r, s.h) :: states[k].rows[r].name)
  {
    hide Timely, Publish, Occupied;
    var s := events[k].step;
    RunKeepsTimely(cfg, states, events, start, k, events[k].now);
    assert StepsTo(cfg, states[k], events[k], states[k + 1]);
    PublicationOccupies(states[k], events[k].now, s.b, s.h, s.owner, s.started, s.remote);
  }

  /** So it is in any run that starts before anything was placed or collected, at every publication. */
  lemma PublishedFromNothing(cfg: Config, states: seq<Db>, events: seq<Event>, k: nat)
    requires IsRun(cfg, states, events) && k < |events| && events[k].step.DoPublish?
    requires states[0].instances == map[] && states[0].collections == map[]
    requires var s := events[k].step; Publish(states[k], events[k].now, s.b, s.h, s.owner, s.started, s.remote).Done?
    ensures var s := events[k].step;
            Occupied(states[k + 1], s.h) ==
            (set j | 0 <= j < |s.remote| :: s.remote[j].session.name)
            + (set r | r in states[k].rows && OpenOn(states[k], r, s.h) :: states[k].rows[r].name)
  {
    hide Timely, Publish, Occupied;
    TimelyAtFirst(states[0], 0);
    PublishedOccupancy(cfg, states, events, 0, k);
  }

  lemma PublicationOccupies(db: Db, now: Time, b: Budget, h: Id, owner: Token, started: Host, remote: seq<Seen>)
    requires Timely(db, now)
    requires Publish(db, now, b, h, owner, started, remote).Done?
    ensures var after := Publish(db, now, b, h, owner, started, remote).db;
            Occupied(after, h) ==
            (set k | 0 <= k < |remote| :: remote[k].session.name)
            + (set r | r in db.rows && OpenOn(db, r, h) :: db.rows[r].name)
  {
    var after := Publish(db, now, b, h, owner, started, remote).db;
    assert CollectionTimely(db, h);
    assert forall r :: OpenOn(after, r, h) <==> OpenOn(db, r, h) by { hide Unsettled; }
    forall i | InstanceOn(after, i, h) && !Absent(after, i, h)
      ensures exists k :: 0 <= k < |remote| && remote[k].session.name == after.instances[i].name
    {
      assert InstanceOn(db, i, h) && i !in NotFoundIn(db, h, remote);
    }
    assert forall k :: 0 <= k < |remote| ==> remote[k].session in Entries(after, h);
  }

  /**
   The collection the step at `i` began on host `h`, still under way at state `k` if its owner
   is still the one named.
   */
  ghost predicate Began(states: seq<Db>, events: seq<Event>, i: nat, h: Id, owner: Token) {
    && i < |events| && i + 1 < |states| && events[i].step.DoStartCollection? && events[i].step.h == h
       && events[i].step.owner == owner
    && h in states[i].hosts && h in states[i + 1].collections && states[i + 1].collections[h].owner == Some(owner)
    && states[i + 1].collections[h].observedRevision == states[i].hosts[h].occupancyRevision
  }

  /** Owners of collections are random: none is given out twice. */
  ghost predicate OwnedOnce(events: seq<Event>, i: nat, owner: Token) {
    forall k :: i < k < |events| && events[k].step.DoStartCollection? ==> events[k].step.owner != owner
  }

  lemma CollectionStep(db: Db, cfg: Config, now: Time, step: Step, h: Id)
    requires Can(db, step) && h in After(db, cfg, now, step).collections
    ensures || (h in db.collections && After(db, cfg, now, step).collections[h] == db.collections[h])
            || (step.DoStartCollection? && After(db, cfg, now, step).collections[h].owner == Some(step.owner))
  {
    hide Publish, StartCollection, FailCollection, Can;
    if step.DoStartCollection? {
      StartedIsOwned(db, now, step.b, step.h, step.owner, h);
    } else if step.DoPublish? {
      PublishedIsGone(db, now, step.b, step.h, step.owner, step.started, step.remote, h);
    } else if step.DoFailCollection? {
      FailedIsGone(db, step.h, step.owner, h);
    } else {
      hide After;
      StepLeaves(db, cfg, now, step);
    }
  }

  lemma StartedIsOwned(db: Db, now: Time, b: Budget, g: Id, owner: Token, h: Id)
    requires h in Commit(db, StartCollection(db, now, b, g, owner)).collections
    ensures var c := Commit(db, StartCollection(db, now, b, g, owner)).collections[h];
                     (h in db.collections && c == db.collections[h]) || c.owner == Some(owner)
  {}

  lemma PublishedIsGone(db: Db, now: Time, b: Budget, g: Id, owner: Token, started: Host, remote: seq<Seen>, h: Id)
    requires h in Commit(db, Publish(db, now, b, g, owner, started, remote)).collections
    ensures h in db.collections
            && Commit(db, Publish(db, now, b, g, owner, started, remote)).collections[h] == db.collections[h]
  {
    hide Unsettled, NotFoundIn, Active;
  }

  lemma FailedIsGone(db: Db, g: Id, owner: Token, h: Id)
    requires h in FailCollection(db, g, owner).collections
    ensures h in db.collections && FailCollection(db, g, owner).collections[h] == db.collections[h]
  {}

  lemma {:induction false} CollectionKept(cfg: Config, states: seq<Db>, events: seq<Event>, i: nat, j: nat, h: Id,
        owner: Token)
    requires IsRun(cfg, states, events) && i < j < |states| && Began(states, events, i, h, owner)
             && OwnedOnce(events, i, owner)
    requires h in states[j].collections && states[j].collections[h].owner == Some(owner)
    ensures states[j].collections[h] == states[i + 1].collections[h]
    decreases j
  {
    hide After, Can;
    if j > i + 1 {
      assert StepsTo(cfg, states[j - 1], events[j - 1], states[j]);
      CollectionStep(states[j - 1], cfg, events[j - 1].now, events[j - 1].step, h);
      CollectionKept(cfg, states, events, i, j - 1, h, owner);
    }
  }

  /** A publication classifies the remote answer against the very state its collection started from. */
  lemma PublishedAgainstStart(cfg: Config, states: seq<Db>, events: seq<Event>, i: nat, j: nat, b: Budget, now: Time,
        h: Id, owner: Token, started: Host, remote: seq<Seen>)
    requires IsRun(cfg, states, events) && i < j < |states| && Began(states, events, i, h, owner)
             && OwnedOnce(events, i, owner)
    requires Publish(states[j], now, b, h, owner, started, remote).Done?
    ensures SameLocal(states[i], states[j], h)
  {
    hide After, Can, SameLocal, Unsettled, NotFoundIn;
    CollectionKept(cfg, states, events, i, j, h, owner);
    EqualVersionsEqualState(cfg, states, events, h, i, j);
  }

  /** `ready` means every remote session is a known instance without contradiction, or proven to be an open row's. */
  lemma ReadyExplainsRemote(db: Db, now: Time, b: Budget, h: Id, owner: Token, started: Host, remote: seq<Seen>, k: nat)
    requires Publish(db, now, b, h, owner, started, remote).Done? && k < |remote|
    ensures Publish(db, now, b, h, owner, started, remote).db.hosts[h].inventoryStatus == Ready ==>
              Explained(db, h, remote[k]) && !Contradicted(db, h, remote[k])
  {}
}
