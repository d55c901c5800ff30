/**
 Everything that may happen to the tables, as one step relation, and the invariants
 every interleaving of those steps keeps.
 */
module Protocol {
  import opened Basics
  import opened Occupancy
  import opened Tables
  import opened Admission
  import opened Provisioning

  datatype Step =
    | DoReserve(b: Budget, q: Request, seen: Observed, l: Listing)
    | DoMarkCreating(b: Budget, t: Ticket, l: Listing)
    | DoRecordCreated(t: Ticket, newId: Id, remoteId: Option<RemoteId>)
    | DoMarkWebhookApplied(t: Ticket)
    | DoFinish(t: Ticket)
    | DoMarkCleanup(t: Ticket)
    | DoAbandon(t: Ticket)
    | DoRemove(i: Id, p: Id, h: Id, holder: Option<Ticket>)
    | DoClaim(b: Budget, r: Id, owner: Token)
    | DoImport(p: Id, h: Id, name: Name, seenId: RemoteId, source: Source, newId: Id)
    | DoStartCollection(b: Budget, h: Id, owner: Token)
    | DoPublish(b: Budget, h: Id, owner: Token, started: Host, remote: seq<Seen>)
    | DoFailCollection(h: Id, owner: Token)
    | DoEditHost(h: Id, host: Host)
    | DoEditProduct(p: Id, product: Product)
    | DoSetMode(p: Id, mode: Mode)
    | DoRestoreLegacy(p: Id, target: Id, deliveriesPending: bool)
    | DoPutLink(p: Id, h: Id, link: Link)
    | DoDetach(p: Id, h: Id, deliveriesPending: bool)

  // ----- administrative steps -----

  /** A row the reversal checks still hold against a product: not terminal, or with lease columns left. */
  predicate Pending(row: Row) {
    !Terminal(row.state) || row.leaseOwner.Some? || row.leaseExpiresAt.Some?
  }

  predicate Terminal(state: RowState) {
    state == Committed || state == Released || state == Failed
  }

  predicate DetachBlocked(db: Db, p: Id, h: Id, deliveriesPending: bool)
    requires p in db.products
  {
    || db.products[p].defaultHost == Some(h)
    || (exists i :: i in db.instances && db.instances[i].product == p && db.instances[i].host == h)
    || (exists r :: r in db.rows && db.rows[r].product == p && db.rows[r].host == h && Pending(db.rows[r]))
    || deliveriesPending
  }

  function Unlink(row: Row, p: Id, h: Id): Row {
    if row.product == p && row.host == h && Terminal(row.state) && row.leaseOwner.None? && row.leaseExpiresAt.None?
       && row.link == Some((p, h))
    then row.(link := None) else row
  }

  function Detach(db: Db, p: Id, h: Id, deliveriesPending: bool): Outcome<()> {
    if p !in db.products || h !in db.hosts || (p, h) !in db.links then Refused(NotFound)
    else if DetachBlocked(db, p, h, deliveriesPending) then Refused(Conflict)
    else Done(db.(rows := map r | r in db.rows :: Unlink(db.rows[r], p, h), links := db.links - {(p, h)}), ())
  }

  predicate LegacyBlocked(db: Db, p: Id, target: Id, deliveriesPending: bool)
    requires p in db.products
  {
    || target !in db.hosts || !db.hosts[target].active || !db.hosts[target].vpsActive
    || db.hosts[target].adapter != db.products[p].adapter
    || (p, target) !in db.links
    || (exists i :: i in db.instances && db.instances[i].product == p && db.instances[i].host != target)
    || (exists r :: r in db.rows && db.rows[r].product == p && Pending(db.rows[r]))
    || deliveriesPending
  }

  function MadeLegacy(db: Db, p: Id, target: Id): Db
    requires p in db.products
  {
    db.(products := db.products[p := db.products[p].(mode := Legacy, defaultHost := Some(target),
        revision := db.products[p].revision + 1)])
  }

  function RestoreLegacy(db: Db, p: Id, target: Id, deliveriesPending: bool): Outcome<()> {
    if p !in db.products then Refused(NotFound)
    else if LegacyBlocked(db, p, target, deliveriesPending) then Refused(Conflict)
    else Done(MadeLegacy(db, p, target), ())
  }

  function EditProduct(db: Db, p: Id, product: Product): Outcome<()> {
    if p !in db.products then Refused(NotFound)
    else if product.defaultHost.Some? && product.defaultHost.value !in db.hosts then Refused(BadRequest)
    else
      var kept :=
        product.(mode := db.products[p].mode, firstCapacityUse := db.products[p].firstCapacityUse,
            revision := db.products[p].revision + 1);
      var edited := db.(products := db.products[p := kept]);
      if kept.defaultHost.None? then Done(edited, ())
      else Done(EnsureLink(edited, p, kept.defaultHost.value, kept.mode == Legacy), ())
  }

  function SetMode(db: Db, p: Id, mode: Mode): Db {
    if p in db.products
      then db.(products := db.products[p := db.products[p].(mode := mode, revision := db.products[p].revision + 1)])
    else db
  }

  function PutLink(db: Db, p: Id, h: Id, link: Link): Db {
    if p in db.products && h in db.hosts then db.(links := db.links[(p, h) := link]) else db
  }

  /** Any administrative edit of a host; the two counters are not editable. */
  function EditHost(db: Db, h: Id, host: Host): Db {
    if h !in db.hosts then db
    else db.(hosts := db.hosts[h := host.(occupancyRevision := db.hosts[h].occupancyRevision,
                                                               inventoryRevision := db.hosts[h].inventoryRevision)])
  }

  // ----- the step relation -----

  /**
   What the database and the callers guarantee about a step's arguments: new keys,
   complete listings, and tickets that name their row's own product and host.
   */
  ghost predicate Can(db: Db, step: Step) {
    match step
    case DoReserve(_, q, _, l) => q.row !in db.rows && Known(db, l) && Lists(db, q.host, l)
    case DoMarkCreating(_, t, l) => Genuine(db, t) && Known(db, l) && Lists(db, t.host, l)
    case DoRecordCreated(t, newId, _) => Genuine(db, t) && newId !in db.instances && Unreported(db, newId)
    case DoMarkWebhookApplied(t) => Genuine(db, t)
    case DoFinish(t) => Genuine(db, t)
    case DoMarkCleanup(t) => Genuine(db, t)
    case DoAbandon(t) => Genuine(db, t)
    case DoRemove(_, p, h, holder) => holder.Some? ==>
                                        Genuine(db, holder.value) && holder.value.product == p && holder.value.host == h
    case DoImport(_, _, _, _, _, newId) => newId !in db.instances && Unreported(db, newId)
    case _ => true
  }

  predicate Genuine(db: Db, t: Ticket) {
    t.row in db.rows ==> db.rows[t.row].product == t.product && db.rows[t.row].host == t.host
  }

  /** Keys are never reused, so no past report names a key that is yet to be drawn. */
  ghost predicate Unreported(db: Db, i: Id) {
    forall h :: h in db.reports ==> i !in db.reports[h].absent
  }

  function Commit<T>(db: Db, o: Outcome<T>): Db {
    if o.Done? then o.db else db
  }

  ghost function After(db: Db, cfg: Config, now: Time, step: Step): Db
    requires Can(db, step)
  {
    match step
    case DoReserve(b, q, seen, l) => Commit(db, Reserve(db, cfg, now, b, q, seen, l))
    case DoMarkCreating(b, t, l) => Commit(db, MarkCreating(db, cfg, now, b, t, l))
    case DoRecordCreated(t, newId, remoteId) => Commit(db, RecordCreated(db, now, t, newId, remoteId))
    case DoMarkWebhookApplied(t) => Commit(db, MarkWebhookApplied(db, t))
    case DoFinish(t) => Commit(db, Finish(db, now, t))
    case DoMarkCleanup(t) => Commit(db, MarkCleanup(db, t))
    case DoAbandon(t) => Commit(db, Abandon(db, cfg, now, t))
    case DoRemove(i, p, h, holder) => Commit(db, RemoveConfirmed(db, i, p, h, holder))
    case DoClaim(b, r, owner) => Commit(db, Claim(db, now, b, r, owner))
    case DoImport(p, h, name, seenId, source, newId) => Commit(db, Import(db, now, p, h, name, seenId, source, newId))
    case DoStartCollection(b, h, owner) => Commit(db, StartCollection(db, now, b, h, owner))
    case DoPublish(b, h, owner, started, remote) => Commit(db, Publish(db, now, b, h, owner, started, remote))
    case DoFailCollection(h, owner) => FailCollection(db, h, owner)
    case DoEditHost(h, host) => EditHost(db, h, host)
    case DoEditProduct(p, product) => Commit(db, EditProduct(db, p, product))
    case DoSetMode(p, mode) => SetMode(db, p, mode)
    case DoRestoreLegacy(p, target, deliveries) => Commit(db, RestoreLegacy(db, p, target, deliveries))
    case DoPutLink(p, h, link) => PutLink(db, p, h, link)
    case DoDetach(p, h, deliveries) => Commit(db, Detach(db, p, h, deliveries))
  }

  // ----- invariants -----

  /**
   An open row names its link and is always under some lease; a closed row kept neither link
   nor request nor owner.
   */
  ghost predicate RowsShaped(db: Db) {
    forall r :: r in db.rows ==> Shaped(db.rows[r])
  }

  predicate Shaped(row: Row) {
    if Open(row.state) then row.link == Some((row.product, row.host)) && row.leaseExpiresAt.Some? && row.payload.Some?
    else row.link.None? && row.leaseOwner.None? && row.payload.None?
  }

  /** A row's recorded instance exists and is the row's own session. */
  ghost predicate Recorded(db: Db) {
    forall r :: r in db.rows && db.rows[r].instance.Some? ==> RecordedAs(db, db.rows[r])
  }

  predicate RecordedAs(db: Db, row: Row) {
    row.instance.Some? && row.instance.value in db.instances &&
    var x := db.instances[row.instance.value];
    x.product == row.product && x.host == row.host && x.name == row.name
  }

  /** No two open rows want the same name at a product or at a host. */
  ghost predicate RowNamesLocked(db: Db) {
    forall r, s :: OpenRow(db, r) && OpenRow(db, s) && r != s ==>
                     !SharesName(db.rows[r].product, db.rows[r].host, db.rows[r].name, db.rows[s].product,
                                 db.rows[s].host, db.rows[s].name)
  }

  /** An instance shares a name with an open row only as that row's own record. */
  ghost predicate InstanceNamesLocked(db: Db) {
    forall i, r :: i in db.instances && OpenRow(db, r) &&
                   SharesName(db.instances[i].product, db.instances[i].host, db.instances[i].name, db.rows[r].product,
                              db.rows[r].host, db.rows[r].name)
                   ==> db.rows[r].instance == Some(i)
  }

  /** The unique indexes hold. */
  ghost predicate InstancesUnique(db: Db) {
    forall i, j :: i in db.instances && j in db.instances && i != j ==> !Collides(db.instances[i], db.instances[j])
  }

  ghost predicate NameLock(db: Db) {
    RowNamesLocked(db) && InstanceNamesLocked(db) && InstancesUnique(db)
  }

  /** Every instance, every default destination and every open row has its product-host link. */
  ghost predicate LinksIntact(db: Db) {
    && (forall i :: i in db.instances ==> (db.instances[i].product, db.instances[i].host) in db.links)
    && (forall p :: p in db.products && db.products[p].defaultHost.Some? ==>
                      (p, db.products[p].defaultHost.value) in db.links)
    && (forall r :: OpenRow(db, r) ==> (db.rows[r].product, db.rows[r].host) in db.links)
    && (forall key :: key in db.links ==> key.0 in db.products && key.1 in db.hosts)
  }

  ghost predicate Inv(db: Db) {
    RowsShaped(db) && Recorded(db) && NameLock(db) && LinksIntact(db)
  }

  // ----- how elementary writes keep them -----

  /** The row still asks for no more than it did. */
  predicate Narrows(was: Row, row: Row) {
    && row.product == was.product && row.host == was.host && row.name == was.name && row.instance == was.instance
    && (Open(row.state) ==> Open(was.state))
    && Shaped(row)
  }

  lemma SetRowKeeps(db: Db, r: Id, row: Row)
    requires Inv(db) && r in db.rows && Narrows(db.rows[r], row)
    ensures Inv(SetRow(db, r, row))
  {
    var after := SetRow(db, r, row);
    assert forall s :: OpenRow(after, s) ==> OpenRow(db, s);
    assert forall s :: s in after.rows ==>
                         after.rows[s].product == db.rows[s].product && after.rows[s].host == db.rows[s].host
                         && after.rows[s].name == db.rows[s].name && after.rows[s].instance == db.rows[s].instance;
    assert Recorded(after) by {
      forall s | s in after.rows && after.rows[s].instance.Some? ensures RecordedAs(after, after.rows[s]) {
        assert RecordedAs(db, db.rows[s]);
      }
    }
  }

  /** Only the fields the invariants mention matter. */
  ghost predicate SameFacts(db: Db, after: Db) {
    && after.rows == db.rows && after.instances == db.instances
    && (forall key :: key in db.links ==> key in after.links)
    && (forall p :: p in after.products && after.products[p].defaultHost.Some? ==>
                      (p, after.products[p].defaultHost.value) in after.links)
    && (forall key :: key in after.links ==> key.0 in after.products && key.1 in after.hosts)
  }

  lemma SameFactsKeep(db: Db, after: Db)
    requires Inv(db) && SameFacts(db, after)
    ensures Inv(after)
  {
    assert forall s :: OpenRow(after, s) <==> OpenRow(db, s);
    assert forall row :: RecordedAs(db, row) <==> RecordedAs(after, row);
  }

  /** Host settings and inventory do not matter. */
  lemma OtherTablesKeep(db: Db, after: Db)
    requires Inv(db)
    requires after ==
               db.(hosts := after.hosts, entries := after.entries, collections := after.collections,
                   reports := after.reports)
    requires forall h :: h in db.hosts ==> h in after.hosts
    ensures Inv(after)
  {
    SameFactsKeep(db, after);
  }

  lemma AdvanceKeeps(db: Db, h: Id)
    requires Inv(db) && h in db.hosts
    ensures Inv(Advance(db, h))
  {
    hide Inv;
    OtherTablesKeep(db, Advance(db, h));
  }

  lemma InsertRowKeeps(db: Db, r: Id, row: Row)
    requires Inv(db) && r !in db.rows && Shaped(row) && row.instance.None?
    requires !NameTaken(db, row.product, row.host, row.name)
    requires (row.product, row.host) in db.links
    ensures Inv(SetRow(db, r, row))
  {
    var after := SetRow(db, r, row);
    assert forall s :: OpenRow(after, s) && s != r ==> OpenRow(db, s) && after.rows[s] == db.rows[s];
    assert Recorded(after) by {
      forall s | s in after.rows && after.rows[s].instance.Some? ensures RecordedAs(after, after.rows[s]) {
        assert RecordedAs(db, db.rows[s]);
      }
    }
  }

  /** The row `r` gains the instance `i`, which is its own session. */
  ghost predicate Records(db: Db, r: Id, row: Row, i: Id, x: Instance) {
    && OpenRow(db, r) && i !in db.instances && db.rows[r].instance.None?
    && row.product == db.rows[r].product && row.host == db.rows[r].host && row.name == db.rows[r].name
    && row.instance == Some(i) && Open(row.state) && Shaped(row)
    && x.product == row.product && x.host == row.host && x.name == row.name && !InstanceCollides(db, x)
  }

  lemma RecordKeeps(db: Db, r: Id, row: Row, i: Id, x: Instance)
    requires Inv(db) && Records(db, r, row, i, x)
    ensures Inv(SetRow(db.(instances := db.instances[i := x]), r, row))
  {
    var after := SetRow(db.(instances := db.instances[i := x]), r, row);
    assert forall s :: OpenRow(after, s) <==> OpenRow(db, s);
    forall s | s in after.rows && after.rows[s].instance.Some? ensures RecordedAs(after, after.rows[s]) {
      if s != r { assert RecordedAs(db, db.rows[s]); }
    }
    InsertKeepsUnique(db, i, x);
    RecordKeepsNames(db, r, row, i, x);
    assert RowNamesLocked(after);
    assert LinksIntact(after);
  }

  lemma InsertKeepsUnique(db: Db, i: Id, x: Instance)
    requires InstancesUnique(db) && i !in db.instances && !InstanceCollides(db, x)
    ensures InstancesUnique(db.(instances := db.instances[i := x]))
  {
    forall j | j in db.instances ensures !Collides(db.instances[j], x) && !Collides(x, db.instances[j]) {}
  }

  lemma RecordKeepsNames(db: Db, r: Id, row: Row, i: Id, x: Instance)
    requires Inv(db) && Records(db, r, row, i, x)
    ensures InstanceNamesLocked(SetRow(db.(instances := db.instances[i := x]), r, row))
  {
    var after := SetRow(db.(instances := db.instances[i := x]), r, row);
    forall j, s | j in after.instances && OpenRow(after, s) &&
                  SharesName(after.instances[j].product, after.instances[j].host, after.instances[j].name,
                             after.rows[s].product, after.rows[s].host, after.rows[s].name)
      ensures after.rows[s].instance == Some(j)
    {
      assert OpenRow(db, s);
      if j == i {
        assert s == r;
      } else {
        assert db.rows[s].instance == Some(j);
      }
    }
  }

  lemma InsertInstanceKeeps(db: Db, i: Id, x: Instance)
    requires Inv(db) && i !in db.instances && !InstanceCollides(db, x)
    requires (x.product, x.host) in db.links
    requires forall r :: OpenRow(db, r) ==>
                           !SharesName(x.product, x.host, x.name, db.rows[r].product, db.rows[r].host, db.rows[r].name)
    ensures Inv(db.(instances := db.instances[i := x]))
  {
    var after := db.(instances := db.instances[i := x]);
    assert forall s :: OpenRow(after, s) <==> OpenRow(db, s);
    assert Recorded(after) by {
      forall s | s in after.rows && after.rows[s].instance.Some? ensures RecordedAs(after, after.rows[s]) {
        assert RecordedAs(db, db.rows[s]);
      }
    }
    assert InstancesUnique(after) by {
      forall j | j in db.instances ensures !Collides(db.instances[j], x) && !Collides(x, db.instances[j]) {}
    }
  }

  lemma DeleteInstanceKeeps(db: Db, i: Id)
    requires Inv(db)
    ensures Inv(DeleteInstance(db, i))
  {
    var after := DeleteInstance(db, i);
    assert forall s :: OpenRow(after, s) <==> OpenRow(db, s);
    forall s | s in after.rows && after.rows[s].instance.Some? ensures RecordedAs(after, after.rows[s]) {
      assert RecordedAs(db, db.rows[s]);
    }
    forall s | s in after.rows ensures Shaped(after.rows[s]) { assert Shaped(db.rows[s]); }
    DeleteKeepsNames(db, i);
    assert LinksIntact(after);
  }

  lemma DeleteKeepsNames(db: Db, i: Id)
    requires NameLock(db)
    ensures NameLock(DeleteInstance(db, i))
  {
    var after := DeleteInstance(db, i);
    assert forall s :: OpenRow(after, s) <==> OpenRow(db, s);
    assert RowNamesLocked(after);
    forall j, s | j in after.instances && OpenRow(after, s) &&
                  SharesName(after.instances[j].product, after.instances[j].host, after.instances[j].name,
                             after.rows[s].product, after.rows[s].host, after.rows[s].name)
      ensures after.rows[s].instance == Some(j)
    {
      assert db.rows[s].instance == Some(j);
    }
    assert InstancesUnique(after);
  }
}
