/** Which tables each step of the protocol leaves as they are. */
module Frames {
  import opened Basics
  import opened Occupancy
  import opened Tables
  import opened Admission
  import opened Provisioning
  import opened Protocol
  import opened Guarantees

  predicate WritesProducts(step: Step) {
    step.DoFinish? || step.DoEditProduct? || step.DoSetMode? || step.DoRestoreLegacy?
  }

  predicate WritesInstances(step: Step) {
    step.DoRecordCreated? || step.DoImport? || step.DoRemove?
  }

  predicate WritesCollections(step: Step) {
    step.DoStartCollection? || step.DoPublish? || step.DoFailCollection?
  }

  ghost predicate Leaves(db: Db, after: Db, products: bool, instances: bool, collections: bool) {
    && (products ==> after.products == db.products)
    && (instances ==> after.instances == db.instances)
    && (collections ==> after.collections == db.collections)
  }

  lemma ReserveLeaves(db: Db, cfg: Config, now: Time, b: Budget, q: Request, seen: Observed, l: Listing)
    requires Known(db, l) && q.row !in db.rows
    ensures Leaves(db, Commit(db, Reserve(db, cfg, now, b, q, seen, l)), true, true, true)
  {
    hide Reserve, Admit;
    if Reserve(db, cfg, now, b, q, seen, l).Done? { ReserveWrites(db, cfg, now, b, q, seen, l); }
  }

  lemma AuthorisingLeaves(db: Db, cfg: Config, now: Time, b: Budget, t: Ticket, l: Listing)
    requires Known(db, l)
    ensures Leaves(db, Commit(db, MarkCreating(db, cfg, now, b, t, l)), true, true, true)
  {
    hide WithinControls;
  }

  lemma RecordLeaves(db: Db, now: Time, t: Ticket, newId: Id, remoteId: Option<RemoteId>)
    requires newId !in db.instances
    ensures Leaves(db, Commit(db, RecordCreated(db, now, t, newId, remoteId)), true, false, true)
  {
    hide InstanceCollides;
  }

  lemma MarksLeave(db: Db, t: Ticket)
    ensures Leaves(db, Commit(db, MarkWebhookApplied(db, t)), true, true, true)
    ensures Leaves(db, Commit(db, MarkCleanup(db, t)), true, true, true)
  {}

  lemma FinishLeaves(db: Db, now: Time, t: Ticket)
    ensures Leaves(db, Commit(db, Finish(db, now, t)), false, true, true)
  {}

  lemma AbandonLeaves(db: Db, cfg: Config, now: Time, t: Ticket)
    ensures Leaves(db, Commit(db, Abandon(db, cfg, now, t)), true, true, true)
  {}

  lemma RemovalLeaves(db: Db, i: Id, p: Id, h: Id, holder: Option<Ticket>)
    ensures Leaves(db, Commit(db, RemoveConfirmed(db, i, p, h, holder)), true, false, true)
  {}

  lemma ClaimLeaves(db: Db, now: Time, b: Budget, r: Id, owner: Token)
    ensures Leaves(db, Commit(db, Claim(db, now, b, r, owner)), true, true, true)
  {
    hide Lease, Active, Leased, Claimed, Closed;
  }

  lemma ImportLeaves(db: Db, now: Time, p: Id, h: Id, name: Name, remoteId: RemoteId, source: Source, newId: Id)
    requires newId !in db.instances
    ensures Leaves(db, Commit(db, Import(db, now, p, h, name, remoteId, source, newId)), true, false, true)
  {
    hide RowBlocksImport, Collides, SameImport;
  }

  lemma DetachLeaves(db: Db, p: Id, h: Id, deliveries: bool)
    ensures Leaves(db, Commit(db, Detach(db, p, h, deliveries)), true, true, true)
  {
    hide DetachBlocked;
  }

  lemma PublishLeaves(db: Db, now: Time, b: Budget, h: Id, owner: Token, started: Host, remote: seq<Seen>)
    ensures Leaves(db, Commit(db, Publish(db, now, b, h, owner, started, remote)), true, true, false)
  {
    hide Unsettled, NotFoundIn;
  }

  lemma ProductEditLeaves(db: Db, p: Id, product: Product)
    ensures Leaves(db, Commit(db, EditProduct(db, p, product)), false, true, true)
  {}

  lemma LegacyLeaves(db: Db, p: Id, target: Id, deliveries: bool)
    ensures Leaves(db, Commit(db, RestoreLegacy(db, p, target, deliveries)), false, true, true)
  {
    hide LegacyBlocked;
  }

  lemma HostEditLeaves(db: Db, h: Id, host: Host)
    ensures Leaves(db, EditHost(db, h, host), true, true, true)
  {}

  lemma ModeEditLeaves(db: Db, p: Id, mode: Mode)
    ensures Leaves(db, SetMode(db, p, mode), false, true, true)
  {}

  lemma LinkEditLeaves(db: Db, p: Id, h: Id, link: Link)
    ensures Leaves(db, PutLink(db, p, h, link), true, true, true)
  {}

  lemma StartLeaves(db: Db, now: Time, b: Budget, h: Id, owner: Token)
    ensures Leaves(db, Commit(db, StartCollection(db, now, b, h, owner)), true, true, false)
  {}

  lemma FailureLeaves(db: Db, h: Id, owner: Token)
    ensures Leaves(db, FailCollection(db, h, owner), true, true, false)
  {}

  lemma RowStepLeaves(db: Db, cfg: Config, now: Time, step: Step)
    requires Can(db, step) && WritesRows(step)
    ensures Leaves(db, After(db, cfg, now, step), !WritesProducts(step), !WritesInstances(step),
                   !WritesCollections(step))
  {
    hide Reserve, MarkCreating, RecordCreated, MarkWebhookApplied, MarkCleanup, Finish, Abandon, RemoveConfirmed,
         Claim, Detach, Lists, Unreported, Leaves;
    match step
    case DoReserve(b, q, seen, l) => ReserveLeaves(db, cfg, now, b, q, seen, l);
    case DoMarkCreating(b, t, l) => AuthorisingLeaves(db, cfg, now, b, t, l);
    case DoRecordCreated(t, newId, remoteId) => RecordLeaves(db, now, t, newId, remoteId);
    case DoMarkWebhookApplied(t) => MarksLeave(db, t);
    case DoMarkCleanup(t) => MarksLeave(db, t);
    case DoFinish(t) => FinishLeaves(db, now, t);
    case DoAbandon(t) => AbandonLeaves(db, cfg, now, t);
    case DoRemove(i, p, h, holder) => RemovalLeaves(db, i, p, h, holder);
    case DoClaim(b, r, owner) => ClaimLeaves(db, now, b, r, owner);
    case DoDetach(p, h, deliveries) => DetachLeaves(db, p, h, deliveries);
  }

  lemma StepLeaves(db: Db, cfg: Config, now: Time, step: Step)
    requires Can(db, step)
    ensures Leaves(db, After(db, cfg, now, step), !WritesProducts(step), !WritesInstances(step),
                   !WritesCollections(step))
  {
    if WritesRows(step) {
      hide After, Can;
      RowStepLeaves(db, cfg, now, step);
    } else {
      hide Import, Publish, EditProduct, RestoreLegacy, Lists, Unreported, StartCollection, Leaves;
      match step
      case DoImport(p, h, name, seenId, source, newId) => ImportLeaves(db, now, p, h, name, seenId, source, newId);
      case DoPublish(b, h, owner, started, remote) => PublishLeaves(db, now, b, h, owner, started, remote);
      case DoEditProduct(p, product) => ProductEditLeaves(db, p, product);
      case DoRestoreLegacy(p, target, deliveries) => LegacyLeaves(db, p, target, deliveries);
      case DoEditHost(h, host) => HostEditLeaves(db, h, host);
      case DoSetMode(p, mode) => ModeEditLeaves(db, p, mode);
      case DoPutLink(p, h, link) => LinkEditLeaves(db, p, h, link);
      case DoStartCollection(b, h, owner) => StartLeaves(db, now, b, h, owner);
      case DoFailCollection(h, owner) => FailureLeaves(db, h, owner);
    }
  }
}
