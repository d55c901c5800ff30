/** The name lock, the row shape and link integrity hold after every step, hence in every run. */
module Invariants {
  import opened Basics
  import opened Occupancy
  import opened Tables
  import opened Admission
  import opened Provisioning
  import opened Protocol

  lemma RowFacts(db: Db, r: Id)
    requires Inv(db) && r in db.rows
    ensures Shaped(db.rows[r])
    ensures db.rows[r].instance.Some? ==> RecordedAs(db, db.rows[r])
  {}

  lemma LinkFacts(db: Db)
    requires Inv(db)
    ensures LinksIntact(db)
  {}

  lemma SetProductKeeps(db: Db, p: Id, product: Product)
    requires Inv(db) && p in db.products
    requires product.defaultHost.Some? ==> (p, product.defaultHost.value) in db.links
    ensures Inv(db.(products := db.products[p := product]))
  {
    hide Inv;
    LinkFacts(db);
    var after := db.(products := db.products[p := product]);
    forall q | q in after.products && after.products[q].defaultHost.Some?
      ensures (q, after.products[q].defaultHost.value) in after.links
    {
      if q != p { assert after.products[q] == db.products[q]; }
    }
    SameFactsKeep(db, after);
  }

  lemma FirstUseKeeps(db: Db, now: Time, p: Id)
    requires Inv(db)
    ensures Inv(FirstUse(db, now, p))
  {
    hide Inv;
    LinkFacts(db);
    if p in db.products { SetProductKeeps(db, p, db.products[p].(firstCapacityUse := Some(now))); }
  }

  lemma EnsureLinkKeeps(db: Db, p: Id, h: Id, accepting: bool)
    requires Inv(db) && p in db.products && h in db.hosts
    ensures Inv(EnsureLink(db, p, h, accepting))
  {
    hide Inv;
    LinkFacts(db);
    SameFactsKeep(db, EnsureLink(db, p, h, accepting));
  }

  lemma AdmittedKeeps(db: Db, cfg: Config, now: Time, p: Id, h: Id, own: bool, l: Listing)
    requires Inv(db) && Known(db, l)
    requires Admit(db, cfg, now, p, h, own, l).Done?
    ensures var after := Admit(db, cfg, now, p, h, own, l).db;
            && Inv(after) && (p, h) in after.links
            && after == db.(links := after.links)
  {
    hide Inv;
    EnsureLinkKeeps(db, p, h, true);
  }

  lemma ReserveKeeps(db: Db, cfg: Config, now: Time, b: Budget, q: Request, seen: Observed, l: Listing)
    requires Inv(db) && Known(db, l) && q.row !in db.rows
    ensures Inv(Commit(db, Reserve(db, cfg, now, b, q, seen, l)))
  {
    hide Inv;
    if Reserve(db, cfg, now, b, q, seen, l).Done? {
      AdmittedKeeps(db, cfg, now, q.product, q.host, false, l);
      var linked := Admit(db, cfg, now, q.product, q.host, false, l).db;
      assert forall s :: OpenRow(linked, s) <==> OpenRow(db, s);
      InsertRowKeeps(linked, q.row, NewRow(q, b, now));
      AdvanceKeeps(SetRow(linked, q.row, NewRow(q, b, now)), q.host);
    }
  }

  lemma MarkCreatingKeeps(db: Db, cfg: Config, now: Time, b: Budget, t: Ticket, l: Listing)
    requires Inv(db) && Known(db, l)
    ensures Inv(Commit(db, MarkCreating(db, cfg, now, b, t, l)))
  {
    hide Inv;
    if MarkCreating(db, cfg, now, b, t, l).Done? {
      AdmittedKeeps(db, cfg, now, t.product, t.host, true, l);
      RowFacts(db, t.row);
      var row := db.rows[t.row];
      SetRowKeeps(Admit(db, cfg, now, t.product, t.host, true, l).db, t.row,
                  row.(state := Creating, revision := row.revision + 1));
    }
  }

  lemma RecordCreatedKeeps(db: Db, now: Time, t: Ticket, newId: Id, remoteId: Option<RemoteId>)
    requires Inv(db) && newId !in db.instances
    ensures Inv(Commit(db, RecordCreated(db, now, t, newId, remoteId)))
  {
    hide Inv;
    if RecordCreated(db, now, t, newId, remoteId).Done? && db.rows[t.row].instance.None? {
      RowFacts(db, t.row);
      var row := db.rows[t.row];
      var x := Instance(row.product, row.host, row.name, remoteId, now);
      var recorded := row.(instance := Some(newId), remoteId := remoteId, revision := row.revision + 1);
      RecordKeeps(db, t.row, recorded, newId, x);
      AdvanceKeeps(SetRow(db.(instances := db.instances[newId := x]), t.row, recorded), row.host);
    }
  }

  lemma FinishKeeps(db: Db, now: Time, t: Ticket)
    requires Inv(db)
    ensures Inv(Commit(db, Finish(db, now, t)))
  {
    hide Inv;
    if Finish(db, now, t).Done? {
      var row := db.rows[t.row];
      RowFacts(db, t.row);
      var committed := Closed(row, Committed);
      SetRowKeeps(db, t.row, committed);
      FirstUseKeeps(SetRow(db, t.row, committed), now, row.product);
      AdvanceKeeps(FirstUse(SetRow(db, t.row, committed), now, row.product), row.host);
    }
  }

  lemma HolderStepKeeps(db: Db, cfg: Config, now: Time, t: Ticket)
    requires Inv(db)
    ensures Inv(Commit(db, MarkWebhookApplied(db, t)))
    ensures Inv(Commit(db, MarkCleanup(db, t)))
    ensures Inv(Commit(db, Abandon(db, cfg, now, t)))
  {
    hide Inv;
    if Owns(db, t) {
      RowFacts(db, t.row);
      var row := db.rows[t.row];
      SetRowKeeps(db, t.row,
                  row.(payload := Some(row.payload.value.(webhookApplied := true)), revision := row.revision + 1));
      SetRowKeeps(db, t.row, row.(state := CleanupPending, revision := row.revision + 1));
      SetRowKeeps(db, t.row, Abandoned(row, cfg, now));
      if row.host in db.hosts { AdvanceKeeps(SetRow(db, t.row, Abandoned(row, cfg, now)), row.host); }
    }
  }

  lemma RemoveKeeps(db: Db, i: Id, p: Id, h: Id, holder: Option<Ticket>)
    requires Inv(db)
    ensures Inv(Commit(db, RemoveConfirmed(db, i, p, h, holder)))
  {
    hide Inv;
    var o := RemoveConfirmed(db, i, p, h, holder);
    if o.Done? && o.value.Some? {
      var dropped := DropEntries(db, h, db.instances[i].name);
      OtherTablesKeep(db, dropped);
      DeleteInstanceKeeps(dropped, i);
      var removed := DeleteInstance(dropped, i);
      if holder.None? {
        AdvanceKeeps(removed, h);
      } else {
        var r := holder.value.row;
        assert Open(removed.rows[r].state);
        SetRowKeeps(removed, r, Closed(removed.rows[r], Failed));
        AdvanceKeeps(SetRow(removed, r, Closed(removed.rows[r], Failed)), h);
      }
    }
  }

  lemma ClaimKeeps(db: Db, now: Time, b: Budget, r: Id, owner: Token)
    requires Inv(db)
    ensures Inv(Commit(db, Claim(db, now, b, r, owner)))
  {
    hide Inv;
    if r in db.rows && Open(db.rows[r].state) {
      RowFacts(db, r);
      var row := db.rows[r];
      var released := Closed(row, Released);
      SetRowKeeps(db, r, released);
      if row.host in db.hosts { AdvanceKeeps(SetRow(db, r, released), row.host); }
      SetRowKeeps(db, r, Claimed(row, now, b, owner));
    }
  }

  lemma ImportKeeps(db: Db, now: Time, p: Id, h: Id, name: Name, seenId: RemoteId, source: Source, newId: Id)
    requires Inv(db) && newId !in db.instances
    ensures Inv(Commit(db, Import(db, now, p, h, name, seenId, source, newId)))
  {
    hide Inv;
    var o := Import(db, now, p, h, name, seenId, source, newId);
    if o.Done? && o.value.Created? {
      var x := Instance(p, h, name, Some(seenId), now);
      forall i | i in db.instances ensures !Collides(db.instances[i], x) {
        assert i !in (set i | i in db.instances && Collides(db.instances[i], x));
      }
      InsertInstanceKeeps(db, newId, x);
      AdvanceKeeps(db.(instances := db.instances[newId := x]), h);
    }
  }

  /** Terminal rows have no link left to clear. */
  lemma DetachLeavesRows(db: Db, p: Id, h: Id)
    requires RowsShaped(db)
    ensures (map r | r in db.rows :: Unlink(db.rows[r], p, h)) == db.rows
  {
    var rows := map r | r in db.rows :: Unlink(db.rows[r], p, h);
    assert rows.Keys == db.rows.Keys;
    forall r | r in db.rows ensures rows[r] == db.rows[r] { assert Shaped(db.rows[r]); }
  }

  lemma DetachKeeps(db: Db, p: Id, h: Id, deliveries: bool)
    requires Inv(db)
    ensures Inv(Commit(db, Detach(db, p, h, deliveries)))
  {
    var o := Detach(db, p, h, deliveries);
    if o.Done? {
      DetachLeavesRows(db, p, h);
      assert forall s :: OpenRow(o.db, s) <==> OpenRow(db, s);
      forall r | OpenRow(db, r) ensures (db.rows[r].product, db.rows[r].host) in o.db.links {
        assert Pending(db.rows[r]);
      }
      assert forall row :: RecordedAs(db, row) <==> RecordedAs(o.db, row);
      assert LinksIntact(o.db);
    }
  }

  lemma EditHostKeeps(db: Db, h: Id, host: Host)
    requires Inv(db)
    ensures Inv(EditHost(db, h, host))
  {
    hide Inv;
    OtherTablesKeep(db, EditHost(db, h, host));
  }

  lemma EditProductKeeps(db: Db, p: Id, product: Product)
    requires Inv(db)
    ensures Inv(Commit(db, EditProduct(db, p, product)))
  {
    hide Inv;
    var o := EditProduct(db, p, product);
    if o.Done? {
      if product.defaultHost.None? {
        SetProductKeeps(db, p, o.db.products[p]);
      } else {
        var h := product.defaultHost.value;
        var linked := EnsureLink(db, p, h, db.products[p].mode == Legacy);
        EnsureLinkKeeps(db, p, h, db.products[p].mode == Legacy);
        SetProductKeeps(linked, p, o.db.products[p]);
      }
    }
  }

  lemma SetModeKeeps(db: Db, p: Id, mode: Mode)
    requires Inv(db)
    ensures Inv(SetMode(db, p, mode))
  {
    hide Inv;
    LinkFacts(db);
    if p in db.products {
      SetProductKeeps(db, p, db.products[p].(mode := mode, revision := db.products[p].revision + 1));
    }
  }

  lemma RestoreLegacyKeeps(db: Db, p: Id, target: Id, deliveries: bool)
    requires Inv(db)
    ensures Inv(Commit(db, RestoreLegacy(db, p, target, deliveries)))
  {
    hide Inv;
    if RestoreLegacy(db, p, target, deliveries).Done? {
      SetProductKeeps(db, p,
                      db.products[p].(mode := Legacy, defaultHost := Some(target),
                          revision := db.products[p].revision + 1));
    }
  }

  lemma PutLinkKeeps(db: Db, p: Id, h: Id, link: Link)
    requires Inv(db)
    ensures Inv(PutLink(db, p, h, link))
  {
    hide Inv;
    LinkFacts(db);
    if p in db.products && h in db.hosts { SameFactsKeep(db, PutLink(db, p, h, link)); }
  }

  lemma StartCollectionKeeps(db: Db, now: Time, b: Budget, h: Id, owner: Token)
    requires Inv(db)
    ensures Inv(Commit(db, StartCollection(db, now, b, h, owner)))
  {
    hide Inv;
    OtherTablesKeep(db, Commit(db, StartCollection(db, now, b, h, owner)));
  }

  lemma PublishKeeps(db: Db, now: Time, b: Budget, h: Id, owner: Token, started: Host, remote: seq<Seen>)
    requires Inv(db)
    ensures Inv(Commit(db, Publish(db, now, b, h, owner, started, remote)))
  {
    hide Inv, Unsettled, NotFoundIn;
    OtherTablesKeep(db, Commit(db, Publish(db, now, b, h, owner, started, remote)));
  }

  lemma FailCollectionKeeps(db: Db, h: Id, owner: Token)
    requires Inv(db)
    ensures Inv(FailCollection(db, h, owner))
  {
    hide Inv;
    OtherTablesKeep(db, FailCollection(db, h, owner));
  }

  /** One step of anyone, in any state the invariants allow. */
  lemma StepKeepsInv(db: Db, cfg: Config, now: Time, step: Step)
    requires Inv(db) && Can(db, step)
    ensures Inv(After(db, cfg, now, step))
  {
    hide Inv;
    match step
    case DoReserve(b, q, seen, l) => ReserveKeeps(db, cfg, now, b, q, seen, l);
    case DoMarkCreating(b, t, l) => MarkCreatingKeeps(db, cfg, now, b, t, l);
    case DoRecordCreated(t, newId, remoteId) => RecordCreatedKeeps(db, now, t, newId, remoteId);
    case DoMarkWebhookApplied(t) => HolderStepKeeps(db, cfg, now, t);
    case DoFinish(t) => FinishKeeps(db, now, t);
    case DoMarkCleanup(t) => HolderStepKeeps(db, cfg, now, t);
    case DoAbandon(t) => HolderStepKeeps(db, cfg, now, t);
    case DoRemove(i, p, h, holder) => RemoveKeeps(db, i, p, h, holder);
    case DoClaim(b, r, owner) => ClaimKeeps(db, now, b, r, owner);
    case DoImport(p, h, name, seenId, source, newId) => ImportKeeps(db, now, p, h, name, seenId, source, newId);
    case DoStartCollection(b, h, owner) => StartCollectionKeeps(db, now, b, h, owner);
    case DoPublish(b, h, owner, started, remote) => PublishKeeps(db, now, b, h, owner, started, remote);
    case DoFailCollection(h, owner) => FailCollectionKeeps(db, h, owner);
    case DoEditHost(h, host) => EditHostKeeps(db, h, host);
    case DoEditProduct(p, product) => EditProductKeeps(db, p, product);
    case DoSetMode(p, mode) => SetModeKeeps(db, p, mode);
    case DoRestoreLegacy(p, target, deliveries) => RestoreLegacyKeeps(db, p, target, deliveries);
    case DoPutLink(p, h, link) => PutLinkKeeps(db, p, h, link);
    case DoDetach(p, h, deliveries) => DetachKeeps(db, p, h, deliveries);
  }
}
