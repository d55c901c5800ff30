/** No step pushes a limited host over its limit, except three kinds that take no admission. */
module Capacity {
  import opened Basics
  import opened Occupancy
  import opened Tables
  import opened Admission
  import opened Provisioning
  import opened Protocol
  import opened Guarantees
  import opened Invariants
  import Exclusion

  function Limit(db: Db, h: Id): Option<nat> {
    if h in db.hosts then db.hosts[h].maxInstances else None
  }

  /** A successful reservation takes exactly one new name, and ends within the host's limit. */
  lemma ReservationFits(db: Db, cfg: Config, now: Time, b: Budget, q: Request, seen: Observed, l: Listing)
    requires q.row !in db.rows && Known(db, l) && Lists(db, q.host, l)
    requires Reserve(db, cfg, now, b, q, seen, l).Done?
    ensures var after := Reserve(db, cfg, now, b, q, seen, l).db;
            && q.name !in Occupied(db, q.host)
            && Occupied(after, q.host) == Occupied(db, q.host) + {q.name}
            && (Limit(db, q.host).Some? ==> |Occupied(after, q.host)| <= Limit(db, q.host).value)
            && forall h :: h != q.host ==> Occupied(after, h) == Occupied(db, h)
  {
    hide Occupied;
    var after := Reserve(db, cfg, now, b, q, seen, l).db;
    ReservationEffect(db, cfg, now, b, q, seen, l);
    if Limit(db, q.host).Some? { AdmittedWithinLimit(db, cfg, now, q.product, q.host, false, l); }
    UntakenNameIsFree(db, q.product, q.host, q.name);
    NewRowOccupies(db, after, q.row, q.host);
    forall h | h != q.host ensures Occupied(after, h) == Occupied(db, h) { OtherHostsKeep(db, after, q.row, h); }
  }

  lemma ReservationEffect(db: Db, cfg: Config, now: Time, b: Budget, q: Request, seen: Observed, l: Listing)
    requires q.row !in db.rows && Known(db, l)
    requires Reserve(db, cfg, now, b, q, seen, l).Done?
    ensures Admit(db, cfg, now, q.product, q.host, false, l).Done?
    ensures !NameTaken(db, q.product, q.host, q.name)
    ensures var after := Reserve(db, cfg, now, b, q, seen, l).db;
            && SameSessions(db, after)
            && after.rows == db.rows[q.row := NewRow(q, b, now)]
            && forall h :: Limit(after, h) == Limit(db, h)
  {
    hide WithinControls, CandidateOrder;
    ReserveWrites(db, cfg, now, b, q, seen, l);
  }

  lemma UntakenNameIsFree(db: Db, p: Id, h: Id, n: Name)
    requires !NameTaken(db, p, h, n)
    ensures n !in Occupied(db, h)
  {}

  ghost predicate SameSessions(db: Db, after: Db) {
    && after.instances == db.instances && after.entries == db.entries
    && forall h, i :: Absent(after, i, h) <==> Absent(db, i, h)
  }

  lemma NewRowOccupies(db: Db, after: Db, r: Id, h: Id)
    requires SameSessions(db, after) && r !in db.rows
    requires r in after.rows && after.rows == db.rows[r := after.rows[r]] && OpenOn(after, r, h)
    ensures Occupied(after, h) == Occupied(db, h) + {after.rows[r].name}
  {
    forall n | n in Occupied(after, h) ensures n in Occupied(db, h) + {after.rows[r].name} {}
    forall n | n in Occupied(db, h) + {after.rows[r].name} ensures n in Occupied(after, h) {
      if s :| s in db.rows && OpenOn(db, s, h) && db.rows[s].name == n { assert OpenOn(after, s, h); }
    }
  }

  lemma OtherHostsKeep(db: Db, after: Db, r: Id, h: Id)
    requires SameSessions(db, after) && r !in db.rows
    requires r in after.rows && after.rows == db.rows[r := after.rows[r]] && after.rows[r].host != h
    ensures Occupied(after, h) == Occupied(db, h)
  {
    assert forall s :: OpenOn(after, s, h) <==> OpenOn(db, s, h);
  }

  /** A creation is only authorised while the host, own reservation included, is within its limit. */
  lemma AuthorisationFits(db: Db, cfg: Config, now: Time, b: Budget, t: Ticket, l: Listing)
    requires Known(db, l) && Lists(db, t.host, l)
    requires MarkCreating(db, cfg, now, b, t, l).Done? && Limit(db, t.host).Some?
    ensures |Occupied(db, t.host)| <= Limit(db, t.host).value
    ensures Genuine(db, t) ==> db.rows[t.row].name in Occupied(db, t.host)
  {
    AdmittedWithinLimit(db, cfg, now, t.product, t.host, true, l);
    assert Owns(db, t) by { hide WithinControls; }
    if Genuine(db, t) { assert OpenOn(db, t.row, t.host); }
  }

  /** The provisioning steps other than the reservation itself. */
  predicate Progress(step: Step) {
    TicketOf(step).Some? || step.DoRemove? || step.DoClaim?
  }

  /** Every occupied name was occupied before. */
  lemma ProgressFreesOnly(db: Db, cfg: Config, now: Time, step: Step, h: Id)
    requires Can(db, step) && Progress(step)
    ensures Occupied(After(db, cfg, now, step), h) <= Occupied(db, h)
    ensures Limit(After(db, cfg, now, step), h) == Limit(db, h)
  {
    hide MarkCreating, RecordCreated, Finish, RemoveConfirmed, Claim, Abandon, MarkCleanup, MarkWebhookApplied,
         Occupied;
    match step
    case DoMarkCreating(b, t, l) => MarkCreatingFrees(db, cfg, now, b, t, l, h);
    case DoRecordCreated(t, newId, remoteId) => RecordCreatedFrees(db, now, t, newId, remoteId, h);
    case DoMarkWebhookApplied(t) => WebhookFrees(db, t, h);
    case DoFinish(t) => FinishFrees(db, now, t, h);
    case DoMarkCleanup(t) => CleanupFrees(db, t, h);
    case DoAbandon(t) => AbandonFrees(db, cfg, now, t, h);
    case DoRemove(i, p, g, holder) => RemoveFrees(db, i, p, g, holder, h);
    case DoClaim(b, r, owner) => ClaimFrees(db, now, b, r, owner, h);
  }

  /** What a step that only closes rows, or keeps them, leaves in place. */
  ghost predicate OnlyCloses(db: Db, after: Db) {
    && (forall h :: Limit(after, h) == Limit(db, h))
    && (forall h, e :: e in Entries(after, h) ==> e in Entries(db, h))
    && (forall h, i :: InstanceOn(after, i, h) && !Absent(after, i, h) ==>
                         InstanceOn(db, i, h) && !Absent(db, i, h) && after.instances[i].name == db.instances[i].name)
    && (forall h, r :: OpenOn(after, r, h) ==> OpenOn(db, r, h) && after.rows[r].name == db.rows[r].name)
  }

  lemma ClosingFrees(db: Db, after: Db, h: Id)
    requires OnlyCloses(db, after)
    ensures Occupied(after, h) <= Occupied(db, h)
    ensures Limit(after, h) == Limit(db, h)
  {}

  lemma SetRowCloses(db: Db, r: Id, row: Row)
    requires r in db.rows && SameRow(db.rows[r], row) && (Open(row.state) ==> Open(db.rows[r].state))
    ensures OnlyCloses(db, SetRow(db, r, row))
  {}

  lemma AdvanceCloses(db: Db, after: Db, g: Id)
    requires OnlyCloses(db, after) && g in after.hosts
    ensures OnlyCloses(db, Advance(after, g))
  {
    var advanced := Advance(after, g);
    forall h ensures Limit(advanced, h) == Limit(db, h) {
      assert Limit(advanced, h) == Limit(after, h);
    }
    forall h, i | InstanceOn(advanced, i, h) && !Absent(advanced, i, h)
      ensures InstanceOn(db, i, h) && !Absent(db, i, h) && advanced.instances[i].name == db.instances[i].name
    {
      assert InstanceOn(after, i, h) && !Absent(after, i, h);
    }
    forall h, r | OpenOn(advanced, r, h) ensures OpenOn(db, r, h) && advanced.rows[r].name == db.rows[r].name {
      assert OpenOn(after, r, h);
    }
    forall h, e | e in Entries(advanced, h) ensures e in Entries(db, h) {
      assert e in Entries(after, h);
    }
  }

  lemma MarkCreatingFrees(db: Db, cfg: Config, now: Time, b: Budget, t: Ticket, l: Listing, h: Id)
    requires Known(db, l)
    ensures var after := Commit(db, MarkCreating(db, cfg, now, b, t, l));
            Occupied(after, h) <= Occupied(db, h) && Limit(after, h) == Limit(db, h)
  {
    hide WithinControls, Occupied;
    ClosingFrees(db, Commit(db, MarkCreating(db, cfg, now, b, t, l)), h);
  }

  lemma WebhookFrees(db: Db, t: Ticket, h: Id)
    ensures var after := Commit(db, MarkWebhookApplied(db, t));
                         Occupied(after, h) <= Occupied(db, h) && Limit(after, h) == Limit(db, h)
  {
    hide Occupied, OnlyCloses;
    if Owns(db, t) && db.rows[t.row].payload.Some? {
      var row := db.rows[t.row];
      var applied := row.(payload := Some(row.payload.value.(webhookApplied := true)), revision := row.revision + 1);
      SetRowCloses(db, t.row, applied);
      ClosingFrees(db, SetRow(db, t.row, applied), h);
    }
  }

  lemma CleanupFrees(db: Db, t: Ticket, h: Id)
    ensures var after := Commit(db, MarkCleanup(db, t));
                         Occupied(after, h) <= Occupied(db, h) && Limit(after, h) == Limit(db, h)
  {
    hide Occupied, OnlyCloses;
    if Owns(db, t) {
      var cleaning := db.rows[t.row].(state := CleanupPending, revision := db.rows[t.row].revision + 1);
      SetRowCloses(db, t.row, cleaning);
      ClosingFrees(db, SetRow(db, t.row, cleaning), h);
    }
  }

  lemma AbandonFrees(db: Db, cfg: Config, now: Time, t: Ticket, h: Id)
    ensures var after := Commit(db, Abandon(db, cfg, now, t));
                         Occupied(after, h) <= Occupied(db, h) && Limit(after, h) == Limit(db, h)
  {
    hide Occupied, OnlyCloses;
    if Owns(db, t) && db.rows[t.row].host in db.hosts {
      var row := db.rows[t.row];
      SetRowCloses(db, t.row, Abandoned(row, cfg, now));
      AdvanceCloses(db, SetRow(db, t.row, Abandoned(row, cfg, now)), row.host);
      ClosingFrees(db, Advance(SetRow(db, t.row, Abandoned(row, cfg, now)), row.host), h);
    }
  }

  lemma FinishFrees(db: Db, now: Time, t: Ticket, h: Id)
    ensures var after := Commit(db, Finish(db, now, t));
                         Occupied(after, h) <= Occupied(db, h) && Limit(after, h) == Limit(db, h)
  {
    hide Occupied;
    ClosingFrees(db, Commit(db, Finish(db, now, t)), h);
  }

  lemma ClaimFrees(db: Db, now: Time, b: Budget, r: Id, owner: Token, h: Id)
    ensures var after := Commit(db, Claim(db, now, b, r, owner));
                         Occupied(after, h) <= Occupied(db, h) && Limit(after, h) == Limit(db, h)
  {
    hide Occupied, OnlyCloses;
    if r in db.rows && Open(db.rows[r].state) {
      var row := db.rows[r];
      var released := Closed(row, Released);
      var claimed := Claimed(row, now, b, owner);
      SetRowCloses(db, r, claimed);
      ClosingFrees(db, SetRow(db, r, claimed), h);
      if row.host in db.hosts {
        SetRowCloses(db, r, released);
        AdvanceCloses(db, SetRow(db, r, released), row.host);
        ClosingFrees(db, Advance(SetRow(db, r, released), row.host), h);
      }
    }
  }

  lemma RemoveFrees(db: Db, i: Id, p: Id, g: Id, holder: Option<Ticket>, h: Id)
    ensures var after := Commit(db, RemoveConfirmed(db, i, p, g, holder));
                         Occupied(after, h) <= Occupied(db, h) && Limit(after, h) == Limit(db, h)
  {
    hide Occupied, OnlyCloses;
    RemoveCloses(db, i, p, g, holder);
    ClosingFrees(db, Commit(db, RemoveConfirmed(db, i, p, g, holder)), h);
  }

  lemma RemoveCloses(db: Db, i: Id, p: Id, g: Id, holder: Option<Ticket>)
    ensures OnlyCloses(db, Commit(db, RemoveConfirmed(db, i, p, g, holder)))
  {
    hide Occupied;
    var o := RemoveConfirmed(db, i, p, g, holder);
    if o.Done? && o.value.Some? {
      var removed := DeleteInstance(DropEntries(db, g, db.instances[i].name), i);
      assert OnlyCloses(db, removed);
      if holder.Some? {
        AdvanceCloses(db, SetRow(removed, holder.value.row, Closed(removed.rows[holder.value.row], Failed)), g);
      }
      else { AdvanceCloses(db, removed, g); }
    }
  }

  /**
   A removal that goes through frees exactly the session's name on its host: no other
   instance or open row had it, and the holder's own row closes with it.
   */
  lemma RemovalFreesName(db: Db, i: Id, p: Id, h: Id, holder: Option<Ticket>, g: Id)
    requires Inv(db) && Exclusion.RemovesOwn(db, DoRemove(i, p, h, holder))
    requires RemoveConfirmed(db, i, p, h, holder).Done? && RemoveConfirmed(db, i, p, h, holder).value.Some?
    ensures var after, x := RemoveConfirmed(db, i, p, h, holder).db, db.instances[i];
            Occupied(after, g) == if g == h then Occupied(db, h) - {x.name} else Occupied(db, g)
  {
    hide Inv, Occupied, RowsShaped, LinksIntact;
    RemovalLeavesOthers(db, i, p, h, holder, g);
    RemoveFrees(db, i, p, h, holder, g);
  }

  lemma NoNamesake(db: Db, i: Id, j: Id)
    requires Inv(db) && i in db.instances && j in db.instances && i != j && db.instances[i].host == db.instances[j].host
    ensures db.instances[i].name != db.instances[j].name
  {
    hide RowsShaped, Recorded, RowNamesLocked, InstanceNamesLocked, LinksIntact;
    assert !Collides(db.instances[i], db.instances[j]);
  }

  lemma NoOpenNamesake(db: Db, i: Id, p: Id, h: Id, holder: Option<Ticket>, r: Id)
    requires Inv(db) && Exclusion.RemovesOwn(db, DoRemove(i, p, h, holder))
    requires RemoveConfirmed(db, i, p, h, holder).Done? && RemoveConfirmed(db, i, p, h, holder).value.Some?
    requires OpenOn(RemoveConfirmed(db, i, p, h, holder).db, r, h)
    ensures RemoveConfirmed(db, i, p, h, holder).db.rows[r].name != db.instances[i].name
  {
    hide Inv;
    assert OpenOn(db, r, h);
    if db.rows[r].name == db.instances[i].name {
      NamesakeIsOwnRecord(db, i, r);
      if holder.Some? { Exclusion.OneRowPerInstance(db, r, holder.value.row, i); }
    }
  }

  /** The row its holder closes had the instance's own host and name. */
  lemma HolderIsNamesake(db: Db, i: Id, holder: Ticket)
    requires Inv(db) && Owns(db, holder) && db.rows[holder.row].instance == Some(i)
    ensures i in db.instances && db.rows[holder.row].host == db.instances[i].host
            && db.rows[holder.row].name == db.instances[i].name
  {
    hide Inv;
    RowFacts(db, holder.row);
  }

  lemma OthersStillTaken(db: Db, i: Id, p: Id, h: Id, holder: Option<Ticket>, g: Id, n: Name)
    requires Inv(db) && Exclusion.RemovesOwn(db, DoRemove(i, p, h, holder))
    requires RemoveConfirmed(db, i, p, h, holder).Done? && RemoveConfirmed(db, i, p, h, holder).value.Some?
    requires n in Occupied(db, g) && (g != h || n != db.instances[i].name)
    ensures n in Occupied(RemoveConfirmed(db, i, p, h, holder).db, g)
  {
    hide Inv;
    var after := RemoveConfirmed(db, i, p, h, holder).db;
    if holder.Some? { HolderIsNamesake(db, i, holder.value); }
    if e :| e in Entries(db, g) && e.name == n {
      assert e in Entries(after, g);
    } else if j :| j in db.instances && InstanceOn(db, j, g) && !Absent(db, j, g) && db.instances[j].name == n {
      assert InstanceOn(after, j, g) && !Absent(after, j, g) && after.instances[j].name == n;
    } else {
      var r :| r in db.rows && OpenOn(db, r, g) && db.rows[r].name == n;
      assert OpenOn(after, r, g) && after.rows[r].name == n;
    }
  }

  lemma RemovalLeavesOthers(db: Db, i: Id, p: Id, h: Id, holder: Option<Ticket>, g: Id)
    requires Inv(db) && Exclusion.RemovesOwn(db, DoRemove(i, p, h, holder))
    requires RemoveConfirmed(db, i, p, h, holder).Done? && RemoveConfirmed(db, i, p, h, holder).value.Some?
    ensures var after, x := RemoveConfirmed(db, i, p, h, holder).db, db.instances[i];
            && (g == h ==> x.name !in Occupied(after, h))
            && forall n :: n in Occupied(db, g) && (g != h || n != x.name) ==> n in Occupied(after, g)
  {
    hide Inv;
    var after, x := RemoveConfirmed(db, i, p, h, holder).db, db.instances[i];
    forall j | InstanceOn(after, j, h) ensures after.instances[j].name != x.name { NoNamesake(db, i, j); }
    forall r | OpenOn(after, r, h) ensures after.rows[r].name != x.name { NoOpenNamesake(db, i, p, h, holder, r); }
    forall n | n in Occupied(db, g) && (g != h || n != x.name) ensures n in Occupied(after, g) {
      OthersStillTaken(db, i, p, h, holder, g, n);
    }
  }

  /** The recorded instance takes the slot its own row already holds. */
  lemma RecordCreatedFrees(db: Db, now: Time, t: Ticket, newId: Id, remoteId: Option<RemoteId>, h: Id)
    requires newId !in db.instances
    ensures var after := Commit(db, RecordCreated(db, now, t, newId, remoteId));
                         Occupied(after, h) <= Occupied(db, h) && Limit(after, h) == Limit(db, h)
  {
    var after := Commit(db, RecordCreated(db, now, t, newId, remoteId));
    forall n | n in Occupied(after, h) ensures n in Occupied(db, h) {
      if i :| i in after.instances && InstanceOn(after, i, h) && !Absent(after, i, h) && after.instances[i].name == n {
        if i == newId && after != db {
          assert OpenOn(db, t.row, h) && db.rows[t.row].name == n;
        } else {
          assert InstanceOn(db, i, h) && !Absent(db, i, h) && db.instances[i].name == n;
        }
      } else if r :| r in after.rows && OpenOn(after, r, h) && after.rows[r].name == n {
        assert OpenOn(db, r, h) && db.rows[r].name == n;
      } else {
        assert n in set e | e in Entries(db, h) :: e.name;
      }
    }
  }

  function Max(a: nat, b: nat): nat { if a < b then b else a }

  // ----- all other steps -----

  /** The steps that may add a name to a host behind admission's back, or move its limit. */
  ghost predicate MayOverfill(db: Db, now: Time, step: Step, h: Id)
    requires Can(db, step)
  {
    match step
    case DoImport(p, g, name, seenId, source, newId) =>
      g == h && Commit(db, Import(db, now, p, g, name, seenId, source, newId)).instances != db.instances
    case DoPublish(b, g, owner, started, remote) => g == h && Publish(db, now, b, g, owner, started, remote).Done?
    case DoEditHost(g, host) => g == h && host.maxInstances != Limit(db, h)
    case _ => false
  }

  /** The same names taken on the host, under the same limit. */
  ghost predicate SameRoom(db: Db, after: Db, h: Id) {
    Occupied(after, h) == Occupied(db, h) && Limit(after, h) == Limit(db, h)
  }

  lemma SettingsKeepRoom(db: Db, after: Db, h: Id)
    requires after.instances == db.instances && after.rows == db.rows && after.entries == db.entries
             && after.reports == db.reports
    requires h in after.hosts <==> h in db.hosts
    requires h in db.hosts ==>
               after.hosts[h].inventoryRevision == db.hosts[h].inventoryRevision
               && after.hosts[h].maxInstances == db.hosts[h].maxInstances
    ensures SameRoom(db, after, h)
  {
    assert forall i :: Absent(after, i, h) <==> Absent(db, i, h);
    assert forall i :: InstanceOn(after, i, h) <==> InstanceOn(db, i, h);
    assert forall r :: OpenOn(after, r, h) <==> OpenOn(db, r, h);
  }

  lemma EditHostKeepsRoom(db: Db, g: Id, host: Host, h: Id)
    requires g == h ==> host.maxInstances == Limit(db, h)
    ensures SameRoom(db, EditHost(db, g, host), h)
  {
    hide SameRoom;
    if g in db.hosts {
      var kept :=
        host.(occupancyRevision := db.hosts[g].occupancyRevision, inventoryRevision := db.hosts[g].inventoryRevision);
      assert EditHost(db, g, host) == db.(hosts := db.hosts[g := kept]);
    }
    SettingsKeepRoom(db, EditHost(db, g, host), h);
  }

  lemma StartKeepsRoom(db: Db, now: Time, b: Budget, g: Id, owner: Token, h: Id)
    ensures SameRoom(db, Commit(db, StartCollection(db, now, b, g, owner)), h)
  {
    hide SameRoom;
    SettingsKeepRoom(db, Commit(db, StartCollection(db, now, b, g, owner)), h);
  }

  lemma FailureKeepsRoom(db: Db, g: Id, owner: Token, h: Id)
    ensures SameRoom(db, FailCollection(db, g, owner), h)
  {
    hide SameRoom;
    SettingsKeepRoom(db, FailCollection(db, g, owner), h);
  }

  lemma PublishKeepsRoom(db: Db, now: Time, b: Budget, g: Id, owner: Token, started: Host, remote: seq<Seen>, h: Id)
    requires g == h ==> Publish(db, now, b, g, owner, started, remote).Refused?
    ensures SameRoom(db, Commit(db, Publish(db, now, b, g, owner, started, remote)), h)
  {
    hide Unsettled, NotFoundIn;
    var after := Commit(db, Publish(db, now, b, g, owner, started, remote));
    assert Entries(after, h) == Entries(db, h);
    assert forall i :: Absent(after, i, h) <==> Absent(db, i, h);
    assert forall i :: InstanceOn(after, i, h) <==> InstanceOn(db, i, h);
    assert forall r :: OpenOn(after, r, h) <==> OpenOn(db, r, h);
  }

  lemma EditProductKeepsRoom(db: Db, p: Id, product: Product, h: Id)
    ensures SameRoom(db, Commit(db, EditProduct(db, p, product)), h)
  {
    hide SameRoom;
    SettingsKeepRoom(db, Commit(db, EditProduct(db, p, product)), h);
  }

  lemma ModeKeepsRoom(db: Db, p: Id, mode: Mode, h: Id)
    ensures SameRoom(db, SetMode(db, p, mode), h)
  {
    hide SameRoom;
    SettingsKeepRoom(db, SetMode(db, p, mode), h);
  }

  lemma LegacyKeepsRoom(db: Db, p: Id, g: Id, deliveries: bool, h: Id)
    ensures SameRoom(db, Commit(db, RestoreLegacy(db, p, g, deliveries)), h)
  {
    hide SameRoom, LegacyBlocked;
    SettingsKeepRoom(db, Commit(db, RestoreLegacy(db, p, g, deliveries)), h);
  }

  lemma LinkKeepsRoom(db: Db, p: Id, g: Id, link: Link, h: Id)
    ensures SameRoom(db, PutLink(db, p, g, link), h)
  {
    hide SameRoom;
    SettingsKeepRoom(db, PutLink(db, p, g, link), h);
  }

  lemma ImportKeepsRoom(db: Db, now: Time, p: Id, g: Id, name: Name, seenId: RemoteId, source: Source, newId: Id, h: Id)
    requires newId !in db.instances
    requires g == h ==> Commit(db, Import(db, now, p, g, name, seenId, source, newId)).instances == db.instances
    ensures SameRoom(db, Commit(db, Import(db, now, p, g, name, seenId, source, newId)), h)
  {
    hide RowBlocksImport, Collides, SameImport;
    var after := Commit(db, Import(db, now, p, g, name, seenId, source, newId));
    if after.instances == db.instances {
      assert after == db;
    } else {
      assert forall i :: InstanceOn(after, i, h) <==> InstanceOn(db, i, h);
      assert forall i :: InstanceOn(db, i, h) ==>
                           (Absent(after, i, h) <==> Absent(db, i, h)) && after.instances[i] == db.instances[i];
    }
  }

  lemma DetachKeepsRoom(db: Db, p: Id, g: Id, deliveries: bool, h: Id)
    ensures SameRoom(db, Commit(db, Detach(db, p, g, deliveries)), h)
  {
    hide DetachBlocked;
    var after := Commit(db, Detach(db, p, g, deliveries));
    assert forall r :: OpenOn(after, r, h) <==> OpenOn(db, r, h);
    assert forall r :: r in db.rows ==> r in after.rows && after.rows[r].name == db.rows[r].name;
  }

  /** No other step takes a name or moves a limit at all. */
  lemma OthersKeepRoom(db: Db, cfg: Config, now: Time, step: Step, h: Id)
    requires Can(db, step) && !Progress(step) && !step.DoReserve? && !MayOverfill(db, now, step, h)
    ensures SameRoom(db, After(db, cfg, now, step), h)
  {
    hide SameRoom, Import, StartCollection, Publish, FailCollection, EditHost, EditProduct, SetMode, RestoreLegacy,
         PutLink, Detach;
    match step
    case DoImport(p, g, name, seenId, source, newId) => ImportKeepsRoom(db, now, p, g, name, seenId, source, newId, h);
    case DoStartCollection(b, g, owner) => StartKeepsRoom(db, now, b, g, owner, h);
    case DoPublish(b, g, owner, started, remote) => PublishKeepsRoom(db, now, b, g, owner, started, remote, h);
    case DoFailCollection(g, owner) => FailureKeepsRoom(db, g, owner, h);
    case DoEditHost(g, host) => EditHostKeepsRoom(db, g, host, h);
    case DoEditProduct(p, product) => EditProductKeepsRoom(db, p, product, h);
    case DoSetMode(p, mode) => ModeKeepsRoom(db, p, mode, h);
    case DoRestoreLegacy(p, target, deliveries) => LegacyKeepsRoom(db, p, target, deliveries, h);
    case DoPutLink(p, g, link) => LinkKeepsRoom(db, p, g, link, h);
    case DoDetach(p, g, deliveries) => DetachKeepsRoom(db, p, g, deliveries, h);
  }

  /**
   Over any run without a creating import on the host, a publication of its inventory or an
   edit of its limit: a limited host never holds more names than its limit, and one that
   those had put above it never gets fuller.
   */
  lemma {:induction false} NeverOverfilled(cfg: Config, states: seq<Db>, events: seq<Event>, h: Id, k: nat)
    requires IsRun(cfg, states, events) && k < |states|
    requires forall j :: 0 <= j < k ==>
                           Can(states[j], events[j].step) && !MayOverfill(states[j], events[j].now, events[j].step, h)
    requires Limit(states[0], h).Some?
    ensures Limit(states[k], h) == Limit(states[0], h)
    ensures |Occupied(states[k], h)| <= Max(Limit(states[0], h).value, |Occupied(states[0], h)|)
  {
    hide After, Occupied, Can, MayOverfill;
    if k > 0 {
      NeverOverfilled(cfg, states, events, h, k - 1);
      assert StepsTo(cfg, states[k - 1], events[k - 1], states[k]);
      StepWithinLimit(states[k - 1], cfg, events[k - 1].now, events[k - 1].step, h);
    }
  }

  lemma StepWithinLimit(db: Db, cfg: Config, now: Time, step: Step, h: Id)
    requires Can(db, step) && !MayOverfill(db, now, step, h)
    ensures var after := After(db, cfg, now, step);
            && Limit(after, h) == Limit(db, h)
            && (Limit(db, h).Some? ==>
                  |Occupied(after, h)| <= |Occupied(db, h)| || |Occupied(after, h)| <= Limit(db, h).value)
  {
    hide Occupied, Reserve, MayOverfill;
    if step.DoReserve? {
      var q := step.q;
      if Reserve(db, cfg, now, step.b, q, step.seen, step.l).Done? {
        ReservationFits(db, cfg, now, step.b, q, step.seen, step.l);
        ReservationEffect(db, cfg, now, step.b, q, step.seen, step.l);
      }
    } else if Progress(step) {
      ProgressFreesOnly(db, cfg, now, step, h);
      SubsetSize(Occupied(After(db, cfg, now, step), h), Occupied(db, h));
    } else {
      OthersKeepRoom(db, cfg, now, step, h);
    }
  }
}
