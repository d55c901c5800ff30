/**
 Relay events: matched on arrival to an instance or to an open provisioning row, kept until
 the row has recorded its instance, then queued once. Every read may be stale by the time
 its write lands; instances and rows come and go meanwhile.
 */
module RelayEvents {
  import opened Basics
  import opened Occupancy
  import opened Tables
  import opened Admission
  import opened Provisioning
  import opened Protocol
  import opened Invariants
  import opened Guarantees
  import opened Frames
  import Exclusion

  datatype Progress = Pending | Queued | Waiting | Retained | Delivered | Failed

  /** The instance an event was bound to, and the adapter it arrived by, as its job will carry them. */
  datatype Binding = Binding(host: Id, instance: Id, product: Id, name: Name, remoteId: Option<RemoteId>,
                             adapter: Adapter)

  datatype RelayEvent = RelayEvent(
    host: Option<Id>, adapter: Adapter, name: Option<Name>, remoteId: Option<RemoteId>, provisioning: Option<Id>,
    bound: Option<Binding>, progress: Progress)

  /** What an event says about its session. */
  datatype Identity = Identity(name: Option<Name>, remoteId: Option<RemoteId>)

  datatype Job = Job(id: Id, bound: Binding)

  /** An instance's lasting identity: nothing updates these columns once it is created. */
  datatype Owner = Owner(product: Id, host: Id, name: Name, remoteId: Option<RemoteId>)

  /**
   `ever` and `recorded` are history: every instance that ever existed with its identity, and
   the instance each provisioning row recorded.
   */
  datatype Hub = Hub(db: Db, events: map<Id, RelayEvent>, queue: seq<Job>, ever: map<Id, Owner>, recorded: map<Id, Id>)

  function OwnerOf(x: Instance): Owner { Owner(x.product, x.host, x.name, x.remoteId) }

  // ----- matching an event on arrival -----

  predicate Selects(who: Identity, name: Name, remoteId: Option<RemoteId>) {
    (who.name.Some? && who.name.value == name) || (who.remoteId.Some? && remoteId == who.remoteId)
  }

  function MatchingInstances(db: Db, hosts: set<Id>, who: Identity): set<Id> {
    set i | i in db.instances && db.instances[i].host in hosts
    && Selects(who, db.instances[i].name, db.instances[i].remoteId)
  }

  function MatchingRows(db: Db, hosts: set<Id>, who: Identity): set<Id> {
    set r | r in db.rows && OpenRow(db, r) && db.rows[r].host in hosts
    && Selects(who, db.rows[r].name, db.rows[r].remoteId)
  }

  predicate ProvenInstance(seen: Db, hosts: set<Id>, who: Identity, i: Id) {
    && MatchingInstances(seen, hosts, who) == {i} && i in seen.instances
    && (who.name.Some? ==> seen.instances[i].name == who.name.value)
    && (who.remoteId.Some? ==> seen.instances[i].remoteId == who.remoteId)
    && (forall r :: r in MatchingRows(seen, hosts, who) ==> r in seen.rows && seen.rows[r].instance == Some(i))
  }

  predicate ProvenRow(seen: Db, hosts: set<Id>, who: Identity, r: Id) {
    && MatchingInstances(seen, hosts, who) == {} && MatchingRows(seen, hosts, who) == {r} && r in seen.rows
    && (who.name.Some? ==> seen.rows[r].name == who.name.value)
    && (who.remoteId.Some? && seen.rows[r].remoteId.Some? ==> seen.rows[r].remoteId == who.remoteId)
  }

  function Bind(i: Id, owner: Owner, adapter: Adapter): Binding {
    Binding(owner.host, i, owner.product, owner.name, owner.remoteId, adapter)
  }

  function OwnerIn(b: Binding): Owner { Owner(b.product, b.host, b.name, b.remoteId) }

  function OwnerBy(row: Row): Owner { Owner(row.product, row.host, row.name, row.remoteId) }

  /** The event as `accept` stores it: bound, waiting for a row, or kept for inspection. */
  ghost function Arrival(seen: Db, hosts: set<Id>, who: Identity, adapter: Adapter): RelayEvent {
    var only := if |hosts| == 1 then (var h :| h in hosts; Some(h)) else None;
    if exists i :: ProvenInstance(seen, hosts, who, i) then
      var i :| ProvenInstance(seen, hosts, who, i);
      RelayEvent(Some(seen.instances[i].host), adapter, who.name, who.remoteId, None,
                 Some(Bind(i, OwnerOf(seen.instances[i]), adapter)), Pending)
    else if exists r :: ProvenRow(seen, hosts, who, r) then
      var r :| ProvenRow(seen, hosts, who, r);
      RelayEvent(Some(seen.rows[r].host), adapter, who.name, who.remoteId, Some(r), None, Waiting)
    else RelayEvent(only, adapter, who.name, who.remoteId, None, None, Retained)
  }

  // ----- the row an event waits for -----

  datatype Verdict = Wait | GiveUp | BindTo(bound: Binding)

  /** What a read of the row says: over, not yet, changed, or recorded. */
  function Resolve(seen: Db, e: RelayEvent): Verdict {
    if e.provisioning.None? || e.host.None? then Wait
    else if e.provisioning.value !in seen.rows then GiveUp
    else
      var row := seen.rows[e.provisioning.value];
      if !Open(row.state) && row.state != Committed then GiveUp
      else if row.instance.None? || !(row.state == Creating || row.state == Uncertain || row.state == Committed)
             then Wait
      else if row.host != e.host.value || (e.remoteId.Some? && row.remoteId != e.remoteId) then GiveUp
      else BindTo(Bind(row.instance.value, OwnerBy(row), e.adapter))
  }

  // ----- steps -----

  datatype Act =
    | Outside(step: Step)
    | Accept(id: Id, seen: Db, hosts: set<Id>, who: Identity, adapter: Adapter)
    | Recover(id: Id, seen: Db)
    | Enqueue(id: Id, read: RelayEvent)
    | MarkQueued(id: Id)
    | Mark(id: Id, progress: Progress)

  /** An earlier state of the tables: its instances existed, its rows are there and recorded what they recorded. */
  ghost predicate Past(hub: Hub, seen: Db) {
    && (forall i :: i in seen.instances ==> i in hub.ever && hub.ever[i] == OwnerOf(seen.instances[i]))
    && (forall r :: r in seen.rows ==> r in hub.db.rows && SameRow(seen.rows[r], hub.db.rows[r]))
    && (forall r :: r in seen.rows && seen.rows[r].instance.Some? ==>
                      r in hub.recorded && hub.recorded[r] == seen.rows[r].instance.value)
    && (forall r :: r in seen.rows && seen.rows[r].instance.Some? ==>
          seen.rows[r].instance.value in hub.ever && hub.ever[seen.rows[r].instance.value] == OwnerBy(seen.rows[r]))
  }

  predicate InQueue(queue: seq<Job>, id: Id) {
    exists k :: 0 <= k < |queue| && queue[k].id == id
  }

  ghost predicate May(hub: Hub, a: Act) {
    match a
    case Outside(step) =>
      Can(hub.db, step) && FreshKeys(hub, step) && Exclusion.RemovesOwn(hub.db, step)
    case Accept(id, seen, _, _, _) => id !in hub.events && !InQueue(hub.queue, id) && Past(hub, seen)
    case Recover(_, seen) => Past(hub, seen)
    case Enqueue(id, read) => id in hub.events && read.bound.Some? && read.bound == hub.events[id].bound
    case Mark(_, progress) => progress == Retained || progress == Delivered || progress == Progress.Failed
    case _ => true
  }

  /** Instance keys are never reused. */
  predicate FreshKeys(hub: Hub, step: Step) {
    (step.DoRecordCreated? ==> step.newId !in hub.ever) && (step.DoImport? ==> step.newId !in hub.ever)
  }

  function Marked(hub: Hub, id: Id, progress: Progress): Hub {
    if id in hub.events && hub.events[id].progress != Delivered
      then hub.(events := hub.events[id := hub.events[id].(progress := progress)]) else hub
  }

  function Recovered(hub: Hub, id: Id, seen: Db): Hub {
    if id !in hub.events || hub.events[id].progress != Waiting then hub
    else
      match Resolve(seen, hub.events[id])
      case Wait => hub
      case GiveUp => Marked(hub, id, Retained)
      case BindTo(b) => hub.(events := hub.events[id := hub.events[id].(progress := Pending, bound := Some(b))])
  }

  /** The queue keeps one job per id: adding it again does nothing. */
  function Enqueued(hub: Hub, id: Id, read: RelayEvent): Hub
    requires read.bound.Some?
  {
    if InQueue(hub.queue, id) then hub else hub.(queue := hub.queue + [Job(id, read.bound.value)])
  }

  function QueuedMark(hub: Hub, id: Id): Hub {
    if id in hub.events && hub.events[id].progress == Pending
      then hub.(events := hub.events[id := hub.events[id].(progress := Queued)]) else hub
  }

  /** New instances and new records enter history. */
  ghost function Remembered(hub: Hub, db: Db): Hub {
    hub.(db := db,
         ever := hub.ever + (map i | i in db.instances && i !in hub.ever :: OwnerOf(db.instances[i])),
         recorded := hub.recorded
                     + (map r | r in db.rows && db.rows[r].instance.Some? && r !in hub.recorded ::
                          db.rows[r].instance.value))
  }

  ghost function Do(hub: Hub, cfg: Config, now: Time, a: Act): Hub
    requires May(hub, a)
  {
    match a
    case Outside(step) => Remembered(hub, After(hub.db, cfg, now, step))
    case Accept(id, seen, hosts, who, adapter) => hub.(events := hub.events[id := Arrival(seen, hosts, who, adapter)])
    case Recover(id, seen) => Recovered(hub, id, seen)
    case Enqueue(id, read) => Enqueued(hub, id, read)
    case MarkQueued(id) => QueuedMark(hub, id)
    case Mark(id, progress) => Marked(hub, id, progress)
  }

  // ----- what a step does to instances and to records -----

  lemma RecordWrites(db: Db, now: Time, t: Ticket, newId: Id, remoteId: Option<RemoteId>)
    requires newId !in db.instances
    ensures var after := Commit(db, RecordCreated(db, now, t, newId, remoteId));
            || after == db
            || (OpenRow(db, t.row) && db.rows[t.row].instance.None?
                && after.instances ==
                     db.instances[newId := Instance(db.rows[t.row].product, db.rows[t.row].host, db.rows[t.row].name,
                                                    remoteId, now)]
                && t.row in after.rows && after.rows == db.rows[t.row := after.rows[t.row]]
                   && SameRow(db.rows[t.row], after.rows[t.row])
                && after.rows[t.row].instance == Some(newId) && after.rows[t.row].remoteId == remoteId)
  {
    hide InstanceCollides;
  }

  lemma ImportWrites(db: Db, now: Time, p: Id, h: Id, name: Name, remoteId: RemoteId, source: Source, newId: Id)
    requires newId !in db.instances
    ensures var after := Commit(db, Import(db, now, p, h, name, remoteId, source, newId));
            after.rows == db.rows
            && (after.instances == db.instances
                || after.instances == db.instances[newId := Instance(p, h, name, Some(remoteId), now)])
  {
    hide RowBlocksImport, Collides, SameImport;
  }

  /** Deleting an instance forgets it in every row that recorded it. */
  lemma RemovalWrites(db: Db, i: Id, p: Id, h: Id, holder: Option<Ticket>)
    ensures var after := Commit(db, RemoveConfirmed(db, i, p, h, holder));
            && after.rows.Keys == db.rows.Keys
            && (forall r :: r in db.rows ==>
                              SameRow(db.rows[r], after.rows[r]) && after.rows[r].remoteId == db.rows[r].remoteId)
            && (forall r :: r in db.rows ==>
                              after.rows[r].instance == db.rows[r].instance
                              || (db.rows[r].instance == Some(i) && after.rows[r].instance.None?))
            && (after == db || after.instances == map j | j in db.instances && j != i :: db.instances[j])
            && (after != db ==>
                  (forall r :: OpenRow(db, r) && db.rows[r].instance == Some(i) ==>
                                 holder.Some? && Owns(db, holder.value)))
            && (after != db && holder.Some? ==>
                  holder.value.row in after.rows && !Open(after.rows[holder.value.row].state))
  {}

  /** The columns that say which session a row recorded. */
  predicate SameColumns(was: Row, row: Row) { row.instance == was.instance && row.remoteId == was.remoteId }

  lemma HoldersKeepColumn(db: Db, cfg: Config, now: Time, b: Budget, t: Ticket, l: Listing, r: Id)
    requires r in db.rows && Known(db, l)
    ensures r in Commit(db, MarkCreating(db, cfg, now, b, t, l)).rows
            && SameColumns(db.rows[r], Commit(db, MarkCreating(db, cfg, now, b, t, l)).rows[r])
  {
    hide WithinControls;
  }

  lemma WebhookKeepsColumn(db: Db, t: Ticket, r: Id)
    requires r in db.rows
    ensures r in Commit(db, MarkWebhookApplied(db, t)).rows
            && SameColumns(db.rows[r], Commit(db, MarkWebhookApplied(db, t)).rows[r])
  {}

  lemma CleanupKeepsColumn(db: Db, t: Ticket, r: Id)
    requires r in db.rows
    ensures r in Commit(db, MarkCleanup(db, t)).rows && SameColumns(db.rows[r], Commit(db, MarkCleanup(db, t)).rows[r])
  {}

  lemma FinishKeepsColumn(db: Db, now: Time, t: Ticket, r: Id)
    requires r in db.rows
    ensures r in Commit(db, Finish(db, now, t)).rows && SameColumns(db.rows[r], Commit(db, Finish(db, now, t)).rows[r])
  {}

  lemma AbandonKeepsColumn(db: Db, cfg: Config, now: Time, t: Ticket, r: Id)
    requires r in db.rows
    ensures r in Commit(db, Abandon(db, cfg, now, t)).rows
            && SameColumns(db.rows[r], Commit(db, Abandon(db, cfg, now, t)).rows[r])
  {}

  lemma OthersKeepColumn(db: Db, cfg: Config, now: Time, step: Step, r: Id)
    requires Can(db, step) && !WritesInstances(step) && r in db.rows
    ensures r in After(db, cfg, now, step).rows && SameColumns(db.rows[r], After(db, cfg, now, step).rows[r])
  {
    hide MarkCreating, MarkWebhookApplied, MarkCleanup, Finish, Abandon, Reserve, Claim, Detach;
    if !WritesRows(step) {
      OthersLeaveRows(db, cfg, now, step);
    } else {
      match step
      case DoReserve(b, q, seen, l) => ReserveMovesRows(db, cfg, now, b, q, seen, l);
      case DoMarkCreating(b, t, l) => HoldersKeepColumn(db, cfg, now, b, t, l, r);
      case DoMarkWebhookApplied(t) => WebhookKeepsColumn(db, t, r);
      case DoMarkCleanup(t) => CleanupKeepsColumn(db, t, r);
      case DoFinish(t) => FinishKeepsColumn(db, now, t, r);
      case DoAbandon(t) => AbandonKeepsColumn(db, cfg, now, t, r);
      case DoClaim(b, k, owner) => ClaimWrites(db, now, b, k, owner);
      case DoDetach(p, h, deliveries) => DetachMovesRows(db, p, h, deliveries, r);
    }
  }

  // ----- invariants -----

  /** What the event said of its session, its host, name and remote id, is what it is bound to. */
  predicate SpeaksOf(e: RelayEvent, b: Binding) {
    && e.host == Some(b.host)
    && (e.name.Some? ==> e.name.value == b.name) && (e.remoteId.Some? ==> e.remoteId == b.remoteId)
  }

  /** A bound event speaks of an instance that is its own, and a waiting one of the row it was matched to. */
  ghost predicate EventOk(hub: Hub, e: RelayEvent) {
    && (e.bound.Some? ==>
          && e.bound.value.instance in hub.ever
          && hub.ever[e.bound.value.instance] == OwnerIn(e.bound.value) && e.bound.value.adapter == e.adapter
          && SpeaksOf(e, e.bound.value)
          && (e.provisioning.Some? ==>
                e.provisioning.value in hub.recorded && hub.recorded[e.provisioning.value] == e.bound.value.instance))
    && (e.provisioning.Some? ==>
          && e.provisioning.value in hub.db.rows && e.host == Some(hub.db.rows[e.provisioning.value].host)
          && (e.name.Some? ==> hub.db.rows[e.provisioning.value].name == e.name.value))
    && (e.progress == Pending || e.progress == Queued ==> e.bound.Some?)
    && (e.progress == Waiting ==> e.bound.None? && e.provisioning.Some?)
  }

  /** An open row's instance column is what it recorded. */
  ghost predicate ColumnsOk(hub: Hub) {
    forall r :: OpenRow(hub.db, r) && r in hub.recorded ==> hub.db.rows[r].instance == Some(hub.recorded[r])
  }

  ghost predicate QueueOk(hub: Hub) {
    && (forall k :: 0 <= k < |hub.queue| ==>
                      hub.queue[k].id in hub.events && hub.events[hub.queue[k].id].bound == Some(hub.queue[k].bound))
    && (forall j, k :: 0 <= j < k < |hub.queue| ==> hub.queue[j].id != hub.queue[k].id)
  }

  ghost predicate HubInv(hub: Hub) {
    && Inv(hub.db) && Past(hub, hub.db) && ColumnsOk(hub) && QueueOk(hub)
    && (forall r :: r in hub.recorded ==> r in hub.db.rows)
    && (forall id :: id in hub.events ==> EventOk(hub, hub.events[id]))
  }

  /** History only grows, and never changes its mind. */
  ghost predicate Remembers(hub: Hub, hub2: Hub) {
    && (forall i :: i in hub.ever ==> i in hub2.ever && hub2.ever[i] == hub.ever[i])
    && (forall r :: r in hub.recorded ==> r in hub2.recorded && hub2.recorded[r] == hub.recorded[r])
    && (forall r :: r in hub.db.rows ==> r in hub2.db.rows && SameRow(hub.db.rows[r], hub2.db.rows[r]))
  }

  lemma PastStays(hub: Hub, hub2: Hub, seen: Db)
    requires Past(hub, seen) && Remembers(hub, hub2)
    ensures Past(hub2, seen)
  {}

  lemma EventStays(hub: Hub, hub2: Hub, e: RelayEvent)
    requires EventOk(hub, e) && Remembers(hub, hub2)
    ensures EventOk(hub2, e)
  {}

  /** What a step of the protocol does, told in one way for all of them. */
  ghost predicate StepShape(hub: Hub, after: Db) {
    && (forall r :: r in after.rows && r !in hub.db.rows ==> after.rows[r].instance.None?)
    && (forall i :: i in after.instances && i in hub.db.instances ==> after.instances[i] == hub.db.instances[i])
    && (forall i :: i in after.instances && i !in hub.db.instances ==> i !in hub.ever)
    && (forall r :: r in hub.db.rows ==>
                      r in after.rows && SameRow(hub.db.rows[r], after.rows[r])
                      && (OpenRow(after, r) ==> OpenRow(hub.db, r)))
    && (forall r :: r in hub.db.rows ==> ColumnMoved(hub, after, r))
  }

  ghost predicate ColumnMoved(hub: Hub, after: Db, r: Id)
    requires r in hub.db.rows && r in after.rows
  {
    var was, is_ := hub.db.rows[r].instance, after.rows[r].instance;
    || SameColumns(hub.db.rows[r], after.rows[r])
    || (is_.None? && !OpenRow(after, r))
    || (was.None? && OpenRow(hub.db, r) && is_.Some? && is_.value in after.instances && is_.value !in hub.ever
        && OwnerOf(after.instances[is_.value]) == OwnerBy(after.rows[r]))
  }

  lemma OutsideRemembers(hub: Hub, after: Db)
    requires HubInv(hub) && Inv(after) && StepShape(hub, after)
    ensures Remembers(hub, Remembered(hub, after)) && HubInv(Remembered(hub, after))
  {
    hide Inv;
    var hub2 := Remembered(hub, after);
    assert Remembers(hub, hub2);
    NowIsPast(hub, after);
    ColumnsStay(hub, after);
    forall id | id in hub2.events ensures EventOk(hub2, hub2.events[id]) { EventStays(hub, hub2, hub.events[id]); }
  }

  lemma InstancesRemembered(hub: Hub, after: Db, i: Id)
    requires Past(hub, hub.db) && StepShape(hub, after) && i in after.instances
    ensures i in Remembered(hub, after).ever && Remembered(hub, after).ever[i] == OwnerOf(after.instances[i])
  {
    if i in hub.db.instances { assert i in hub.ever && hub.ever[i] == OwnerOf(hub.db.instances[i]); }
  }

  lemma RecordRemembered(hub: Hub, after: Db, r: Id)
    requires Past(hub, hub.db) && ColumnsOk(hub) && StepShape(hub, after) && r in after.rows
             && after.rows[r].instance.Some?
    ensures var hub2 := Remembered(hub, after);
            && r in hub2.recorded && hub2.recorded[r] == after.rows[r].instance.value
            && after.rows[r].instance.value in hub2.ever
               && hub2.ever[after.rows[r].instance.value] == OwnerBy(after.rows[r])
  {
    assert r in hub.db.rows && ColumnMoved(hub, after, r);
    assert OpenRow(hub.db, r) && r in hub.recorded ==> hub.db.rows[r].instance == Some(hub.recorded[r]);
  }

  lemma NowIsPast(hub: Hub, after: Db)
    requires HubInv(hub) && StepShape(hub, after)
    ensures Past(Remembered(hub, after), after)
    ensures forall r :: r in Remembered(hub, after).recorded ==> r in after.rows
  {
    hide Inv, EventOk, StepShape, Remembered;
    forall i | i in after.instances
      ensures i in Remembered(hub, after).ever && Remembered(hub, after).ever[i] == OwnerOf(after.instances[i]) {
      InstancesRemembered(hub, after, i);
    }
    forall r | r in after.rows && after.rows[r].instance.Some?
      ensures var hub2 := Remembered(hub, after);
              && r in hub2.recorded && hub2.recorded[r] == after.rows[r].instance.value
              && after.rows[r].instance.value in hub2.ever
                 && hub2.ever[after.rows[r].instance.value] == OwnerBy(after.rows[r])
    {
      RecordRemembered(hub, after, r);
    }
    RecordedRowsStay(hub, after);
    RememberedTables(hub, after);
  }

  lemma RememberedTables(hub: Hub, after: Db)
    ensures Remembered(hub, after).db == after
    ensures forall r :: r in after.rows ==> SameRow(after.rows[r], Remembered(hub, after).db.rows[r])
  {}

  lemma RecordedRowsStay(hub: Hub, after: Db)
    requires HubInv(hub) && StepShape(hub, after)
    ensures forall r :: r in Remembered(hub, after).recorded ==> r in after.rows
  {
    hide Inv, EventOk, Past;
  }

  lemma ColumnsStay(hub: Hub, after: Db)
    requires HubInv(hub) && StepShape(hub, after)
    ensures ColumnsOk(Remembered(hub, after))
  {
    hide Inv, EventOk;
    var hub2 := Remembered(hub, after);
    forall r | OpenRow(after, r) && r in hub2.recorded ensures after.rows[r].instance == Some(hub2.recorded[r]) {
      if r in hub.recorded {
        assert r in hub.db.rows && OpenRow(hub.db, r) && ColumnMoved(hub, after, r);
      }
    }
  }

  lemma RecordShape(hub: Hub, now: Time, t: Ticket, newId: Id, remoteId: Option<RemoteId>)
    requires HubInv(hub) && newId !in hub.db.instances && newId !in hub.ever
    ensures StepShape(hub, Commit(hub.db, RecordCreated(hub.db, now, t, newId, remoteId)))
  {
    hide RecordCreated, Inv, EventOk, Past;
    RecordWrites(hub.db, now, t, newId, remoteId);
    RecordCreatedMovesRow(hub.db, now, t, newId, remoteId);
  }

  lemma ImportShape(hub: Hub, now: Time, p: Id, h: Id, name: Name, remoteId: RemoteId, source: Source, newId: Id)
    requires HubInv(hub) && newId !in hub.db.instances && newId !in hub.ever
    ensures StepShape(hub, Commit(hub.db, Import(hub.db, now, p, h, name, remoteId, source, newId)))
  {
    hide Import, Inv, EventOk, Past;
    ImportWrites(hub.db, now, p, h, name, remoteId, source, newId);
  }

  lemma RemovalShape(hub: Hub, i: Id, p: Id, h: Id, holder: Option<Ticket>)
    requires HubInv(hub)
    requires holder.Some? && Owns(hub.db, holder.value) ==> hub.db.rows[holder.value.row].instance == Some(i)
    ensures StepShape(hub, Commit(hub.db, RemoveConfirmed(hub.db, i, p, h, holder)))
  {
    hide RemoveConfirmed, Inv, EventOk, Past;
    var after := Commit(hub.db, RemoveConfirmed(hub.db, i, p, h, holder));
    RemovalWrites(hub.db, i, p, h, holder);
    forall r | r in hub.db.rows ensures ColumnMoved(hub, after, r) && (OpenRow(after, r) ==> OpenRow(hub.db, r)) {
      RemovalMovesRows(hub.db, i, p, h, holder, r);
      if after != hub.db && OpenRow(hub.db, r) && hub.db.rows[r].instance == Some(i) {
        Exclusion.OneRowPerInstance(hub.db, r, holder.value.row, i);
      }
    }
  }

  lemma NewRowsEmpty(db: Db, cfg: Config, now: Time, step: Step, r: Id)
    requires Can(db, step) && !WritesInstances(step) && r in After(db, cfg, now, step).rows && r !in db.rows
    ensures After(db, cfg, now, step).rows[r].instance.None?
  {
    hide Reserve, Finish, Abandon, Claim, Detach, MarkCreating, MarkCleanup, MarkWebhookApplied, Moved, Genuine,
         Lists, Unreported;
    if TicketOf(step).Some? {
      HolderStepMovesRow(db, cfg, now, step);
    } else if !WritesRows(step) {
      OthersLeaveRows(db, cfg, now, step);
    } else {
      match step
      case DoReserve(b, q, seen, l) => ReserveMovesRows(db, cfg, now, b, q, seen, l);
      case DoClaim(b, k, owner) => ClaimMovesRows(db, now, b, k, owner);
      case DoDetach(p, h, deliveries) => DetachAddsNoRow(db, p, h, deliveries);
    }
  }

  lemma DetachAddsNoRow(db: Db, p: Id, h: Id, deliveries: bool)
    ensures Commit(db, Detach(db, p, h, deliveries)).rows.Keys == db.rows.Keys
  {
    hide DetachBlocked;
  }

  lemma OtherShape(hub: Hub, cfg: Config, now: Time, step: Step)
    requires HubInv(hub) && Can(hub.db, step) && !WritesInstances(step)
    ensures StepShape(hub, After(hub.db, cfg, now, step))
  {
    hide Inv, EventOk, Past, After, Can;
    var after := After(hub.db, cfg, now, step);
    StepLeaves(hub.db, cfg, now, step);
    forall r | r in hub.db.rows
      ensures r in after.rows && SameRow(hub.db.rows[r], after.rows[r]) && (OpenRow(after, r) ==> OpenRow(hub.db, r))
    && ColumnMoved(hub, after, r) {
      StepMovesRow(hub.db, cfg, now, step, r);
      OthersKeepColumn(hub.db, cfg, now, step, r);
    }
    forall r | r in after.rows && r !in hub.db.rows ensures after.rows[r].instance.None? {
      NewRowsEmpty(hub.db, cfg, now, step, r);
    }
  }

  lemma OutsideShape(hub: Hub, cfg: Config, now: Time, step: Step)
    requires HubInv(hub) && May(hub, Outside(step))
    ensures StepShape(hub, After(hub.db, cfg, now, step))
  {
    hide HubInv, StepShape, RecordCreated, Import, RemoveConfirmed;
    match step
    case DoRecordCreated(t, newId, remoteId) => RecordShape(hub, now, t, newId, remoteId);
    case DoImport(p, h, name, seenId, source, newId) => ImportShape(hub, now, p, h, name, seenId, source, newId);
    case DoRemove(i, p, h, holder) => RemovalShape(hub, i, p, h, holder);
    case _ => OtherShape(hub, cfg, now, step);
  }

  lemma OutsideKeeps(hub: Hub, cfg: Config, now: Time, step: Step)
    requires HubInv(hub) && May(hub, Outside(step))
    ensures HubInv(Do(hub, cfg, now, Outside(step))) && Remembers(hub, Do(hub, cfg, now, Outside(step)))
  {
    hide Inv, StepShape, After, Can, Past, EventOk, Remembered;
    OutsideShape(hub, cfg, now, step);
    StepKeepsInv(hub.db, cfg, now, step);
    OutsideRemembers(hub, After(hub.db, cfg, now, step));
  }

  // ----- what the relay's own steps do -----

  lemma ArrivalOk(hub: Hub, seen: Db, hosts: set<Id>, who: Identity, adapter: Adapter)
    requires Past(hub, seen)
    ensures EventOk(hub, Arrival(seen, hosts, who, adapter))
  {
    hide MatchingInstances, MatchingRows;
    var e := Arrival(seen, hosts, who, adapter);
    assert e.bound.Some? ==>
             e.bound.value.instance in seen.instances
             && e.bound.value == Bind(e.bound.value.instance, OwnerOf(seen.instances[e.bound.value.instance]), adapter);
  }

  lemma BindingOk(hub: Hub, seen: Db, e: RelayEvent)
    requires Past(hub, seen) && EventOk(hub, e) && Resolve(seen, e).BindTo?
    ensures EventOk(hub, e.(progress := Pending, bound := Some(Resolve(seen, e).bound)))
  {}

  /** An update of one event that keeps its binding once it has one, and `delivered` once it is. */
  ghost predicate EventMoved(was: RelayEvent, e: RelayEvent) {
    && e.host == was.host && e.adapter == was.adapter && e.name == was.name && e.remoteId == was.remoteId
       && e.provisioning == was.provisioning
    && (was.bound.Some? ==> e.bound == was.bound)
    && (was.progress == Delivered ==> e.progress == Delivered)
  }

  lemma EventWriteKeeps(hub: Hub, id: Id, e: RelayEvent)
    requires HubInv(hub) && id in hub.events && EventMoved(hub.events[id], e) && EventOk(hub, e)
    ensures HubInv(hub.(events := hub.events[id := e]))
  {
    hide Inv;
    var hub2 := hub.(events := hub.events[id := e]);
    assert Past(hub2, hub2.db) by { PastStays(hub, hub2, hub.db); }
    forall k | k in hub2.events ensures EventOk(hub2, hub2.events[k]) { EventStays(hub, hub2, hub2.events[k]); }
  }

  lemma AcceptKeeps(hub: Hub, id: Id, e: RelayEvent)
    requires HubInv(hub) && id !in hub.events && EventOk(hub, e)
    ensures HubInv(hub.(events := hub.events[id := e]))
  {
    hide Inv;
    var hub2 := hub.(events := hub.events[id := e]);
    assert Past(hub2, hub2.db) by { PastStays(hub, hub2, hub.db); }
    forall k | k in hub2.events ensures EventOk(hub2, hub2.events[k]) { EventStays(hub, hub2, hub2.events[k]); }
  }

  lemma EnqueueKeeps(hub: Hub, id: Id, read: RelayEvent)
    requires HubInv(hub) && id in hub.events && read.bound.Some? && read.bound == hub.events[id].bound
    ensures HubInv(Enqueued(hub, id, read))
  {
    hide Inv;
    var hub2 := Enqueued(hub, id, read);
    assert Past(hub2, hub2.db) by { PastStays(hub, hub2, hub.db); }
    forall k | k in hub2.events ensures EventOk(hub2, hub2.events[k]) { EventStays(hub, hub2, hub2.events[k]); }
  }

  lemma MarkedIsMoved(hub: Hub, id: Id, progress: Progress)
    requires HubInv(hub) && id in hub.events && hub.events[id].progress != Delivered && progress != Pending
             && progress != Queued && progress != Waiting
    ensures EventMoved(hub.events[id], hub.events[id].(progress := progress))
            && EventOk(hub, hub.events[id].(progress := progress))
  {
    hide Inv, Past;
    assert EventOk(hub, hub.events[id]);
  }

  lemma ActKeeps(hub: Hub, cfg: Config, now: Time, a: Act)
    requires HubInv(hub) && May(hub, a)
    ensures HubInv(Do(hub, cfg, now, a)) && Remembers(hub, Do(hub, cfg, now, a))
  {
    hide HubInv, EventOk, Past, Arrival, Resolve, After, Can, Remembered;
    match a
    case Outside(step) => OutsideKeeps(hub, cfg, now, step);
    case Accept(id, seen, hosts, who, adapter) =>
      ArrivalOk(hub, seen, hosts, who, adapter);
      AcceptKeeps(hub, id, Arrival(seen, hosts, who, adapter));
    case Recover(id, seen) => RecoverKeeps(hub, id, seen);
    case Enqueue(id, read) => EnqueueKeeps(hub, id, read);
    case MarkQueued(id) => QueuedMarkKeeps(hub, id);
    case Mark(id, progress) =>
      if id in hub.events
      && hub.events[id].progress != Delivered { MarkedIsMoved(hub, id, progress);
                                                EventWriteKeeps(hub, id, hub.events[id].(progress := progress)); }
  }

  lemma RecoverKeeps(hub: Hub, id: Id, seen: Db)
    requires HubInv(hub) && Past(hub, seen)
    ensures HubInv(Recovered(hub, id, seen))
    ensures id in hub.events ==>
              id in Recovered(hub, id, seen).events && EventMoved(hub.events[id], Recovered(hub, id, seen).events[id])
  {
    hide Inv, Past, Resolve;
    if id in hub.events && hub.events[id].progress == Waiting {
      assert EventOk(hub, hub.events[id]);
      match Resolve(seen, hub.events[id])
      case Wait =>
      case GiveUp => MarkedIsMoved(hub, id, Retained); EventWriteKeeps(hub, id, hub.events[id].(progress := Retained));
      case BindTo(b) =>
        BindingOk(hub, seen, hub.events[id]);
        EventWriteKeeps(hub, id, hub.events[id].(progress := Pending, bound := Some(b)));
    }
  }

  lemma QueuedMarkKeeps(hub: Hub, id: Id)
    requires HubInv(hub)
    ensures HubInv(QueuedMark(hub, id))
  {
    hide Inv, Past;
    if id in hub.events && hub.events[id].progress == Pending {
      assert EventOk(hub, hub.events[id]);
      EventWriteKeeps(hub, id, hub.events[id].(progress := Queued));
    }
  }

  /** No step loses an event, a job, a binding or a delivery. */
  lemma ActMoves(hub: Hub, cfg: Config, now: Time, a: Act, id: Id)
    requires HubInv(hub) && May(hub, a)
    ensures hub.queue <= Do(hub, cfg, now, a).queue
    ensures id in hub.events ==>
              id in Do(hub, cfg, now, a).events && EventMoved(hub.events[id], Do(hub, cfg, now, a).events[id])
  {
    hide HubInv, EventOk, Past, Arrival, Resolve, After, Can;
    if a.Recover? { RecoverKeeps(hub, a.id, a.seen); }
  }

  // ----- whole runs -----

  datatype Moment = Moment(now: Time, act: Act)

  ghost predicate IsCourse(cfg: Config, hubs: seq<Hub>, moments: seq<Moment>) {
    && |hubs| == |moments| + 1
    && forall k :: 0 <= k < |moments| ==> Turns(cfg, hubs[k], moments[k], hubs[k + 1])
  }

  ghost predicate Turns(cfg: Config, hub: Hub, m: Moment, hub2: Hub) {
    May(hub, m.act) && hub2 == Do(hub, cfg, m.now, m.act)
  }

  lemma NothingRelayedYet(db: Db)
    requires Inv(db) && db.rows == map[] && db.instances == map[]
    ensures HubInv(Hub(db, map[], [], map[], map[]))
  {
    hide Inv;
  }

  lemma {:induction false} CourseKeeps(cfg: Config, hubs: seq<Hub>, moments: seq<Moment>, k: nat)
    requires IsCourse(cfg, hubs, moments) && HubInv(hubs[0]) && k < |hubs|
    ensures HubInv(hubs[k])
  {
    hide HubInv, May, Do;
    if k > 0 {
      CourseKeeps(cfg, hubs, moments, k - 1);
      assert Turns(cfg, hubs[k - 1], moments[k - 1], hubs[k]);
      ActKeeps(hubs[k - 1], cfg, moments[k - 1].now, moments[k - 1].act);
    }
  }

  /** A binding, a job and a delivery are for good, and what was read of the tables stays true of history. */
  lemma {:induction false} ForGood(cfg: Config, hubs: seq<Hub>, moments: seq<Moment>, i: nat, j: nat, id: Id)
    requires IsCourse(cfg, hubs, moments) && HubInv(hubs[0]) && i <= j < |hubs|
    ensures hubs[i].queue <= hubs[j].queue && Remembers(hubs[i], hubs[j])
    ensures id in hubs[i].events ==> id in hubs[j].events && EventMoved(hubs[i].events[id], hubs[j].events[id])
    decreases j - i
  {
    hide HubInv, May, Do;
    if i < j {
      ForGood(cfg, hubs, moments, i, j - 1, id);
      CourseKeeps(cfg, hubs, moments, j - 1);
      assert Turns(cfg, hubs[j - 1], moments[j - 1], hubs[j]);
      ActMoves(hubs[j - 1], cfg, moments[j - 1].now, moments[j - 1].act, id);
      ActKeeps(hubs[j - 1], cfg, moments[j - 1].now, moments[j - 1].act);
    }
  }

  /**
   An event that waited for a provisioning row is bound to the instance that very row recorded,
   under the row's own product, host, name and remote id, never to a later session of the same name.
   */
  lemma BoundToItsRow(cfg: Config, hubs: seq<Hub>, moments: seq<Moment>, i: nat, j: nat, id: Id, r: Id)
    requires IsCourse(cfg, hubs, moments) && HubInv(hubs[0]) && i <= j < |hubs|
    requires id in hubs[i].events && hubs[i].events[id].progress == Waiting
             && hubs[i].events[id].provisioning == Some(r)
    ensures id in hubs[j].events
    ensures hubs[j].events[id].bound.Some? ==>
              var b := hubs[j].events[id].bound.value;
              && r in hubs[j].recorded && hubs[j].recorded[r] == b.instance
              && b.instance in hubs[j].ever && hubs[j].ever[b.instance] == OwnerIn(b)
  {
    hide May, Do, Inv, Past;
    ForGood(cfg, hubs, moments, i, j, id);
    CourseKeeps(cfg, hubs, moments, j);
    assert EventOk(hubs[j], hubs[j].events[id]);
  }

  /**
   A job carries its event's binding, an instance's own product, host and name, and the very host,
   name and remote id that the event spoke of; and there is one job per event.
   */
  lemma JobsAreOwn(cfg: Config, hubs: seq<Hub>, moments: seq<Moment>, k: nat, n: nat, m: nat)
    requires IsCourse(cfg, hubs, moments) && HubInv(hubs[0]) && k < |hubs| && n < |hubs[k].queue| && m < |hubs[k].queue|
    ensures var job := hubs[k].queue[n];
            && job.id in hubs[k].events && hubs[k].events[job.id].bound == Some(job.bound)
            && SpeaksOf(hubs[k].events[job.id], job.bound)
            && job.bound.instance in hubs[k].ever && hubs[k].ever[job.bound.instance] == OwnerIn(job.bound)
    ensures hubs[k].queue[n].id == hubs[k].queue[m].id ==> n == m
  {
    hide May, Do, Inv, Past;
    CourseKeeps(cfg, hubs, moments, k);
    assert EventOk(hubs[k], hubs[k].events[hubs[k].queue[n].id]);
  }

  // ----- which event goes where -----

  /** A session that one of the given fields points at. */
  predicate PointsAt(who: Identity, name: Name, remoteId: Option<RemoteId>) {
    who.name == Some(name) || (remoteId.Some? && who.remoteId == remoteId)
  }

  ghost predicate InstancePointedAt(seen: Db, hosts: set<Id>, who: Identity, i: Id) {
    i in seen.instances && seen.instances[i].host in hosts
    && PointsAt(who, seen.instances[i].name, seen.instances[i].remoteId)
  }

  ghost predicate RowPointedAt(seen: Db, hosts: set<Id>, who: Identity, r: Id) {
    OpenRow(seen, r) && seen.rows[r].host in hosts && PointsAt(who, seen.rows[r].name, seen.rows[r].remoteId)
  }

  /** The one instance pointed at, agreeing in every field given, which no open row pointed at contradicts. */
  ghost predicate OneInstance(seen: Db, hosts: set<Id>, who: Identity, i: Id) {
    && InstancePointedAt(seen, hosts, who, i)
    && (who.name.Some? ==> who.name.value == seen.instances[i].name)
    && (who.remoteId.Some? ==> who.remoteId == seen.instances[i].remoteId)
    && (forall j :: InstancePointedAt(seen, hosts, who, j) ==> j == i)
    && (forall r :: RowPointedAt(seen, hosts, who, r) ==> seen.rows[r].instance == Some(i))
  }

  /** No instance is pointed at, and one open row, which agrees as far as it is known. */
  ghost predicate OneRow(seen: Db, hosts: set<Id>, who: Identity, r: Id) {
    && RowPointedAt(seen, hosts, who, r) && (forall i :: !InstancePointedAt(seen, hosts, who, i))
    && (who.name.Some? ==> who.name.value == seen.rows[r].name)
    && (who.remoteId.Some? && seen.rows[r].remoteId.Some? ==> who.remoteId == seen.rows[r].remoteId)
    && (forall q :: RowPointedAt(seen, hosts, who, q) ==> q == r)
  }

  /** An arrival is bound exactly to the one instance it can mean, waits exactly for the one row, or is retained. */
  ghost predicate Placed(e: RelayEvent, seen: Db, hosts: set<Id>, who: Identity, adapter: Adapter) {
    && e.adapter == adapter && e.name == who.name && e.remoteId == who.remoteId
    && (forall i :: i in seen.instances ==>
                      var x := seen.instances[i];
                      (e.bound == Some(Binding(x.host, i, x.product, x.name, x.remoteId, adapter)) <==>
                         OneInstance(seen, hosts, who, i)))
    && (e.progress == Pending <==> exists i :: OneInstance(seen, hosts, who, i))
    && (e.progress == Pending <==> e.bound.Some?)
    && (forall r: Id :: e.provisioning == Some(r) <==> OneRow(seen, hosts, who, r))
    && (e.progress == Waiting <==> e.provisioning.Some?)
    && (e.progress == Pending || e.progress == Waiting || e.progress == Retained)
    && (e.progress == Retained ==> (e.host.Some? <==> |hosts| == 1) && (e.host.Some? ==> e.host.value in hosts))
  }

  lemma ArrivalExactly(seen: Db, hosts: set<Id>, who: Identity, adapter: Adapter)
    ensures Placed(Arrival(seen, hosts, who, adapter), seen, hosts, who, adapter)
  {
    hide OneInstance, OneRow, ProvenInstance, ProvenRow;
    forall i ensures ProvenInstance(seen, hosts, who, i) <==> OneInstance(seen, hosts, who, i) {
      InstanceExactly(seen, hosts, who, i);
    }
    forall r ensures ProvenRow(seen, hosts, who, r) <==> OneRow(seen, hosts, who, r) {
      RowExactly(seen, hosts, who, r);
    }
    ArrivalCases(seen, hosts, who);
    forall i, r | OneInstance(seen, hosts, who, i) ensures !OneRow(seen, hosts, who, r) {
      NotBoth(seen, hosts, who, i, r);
    }
    forall i | OneInstance(seen, hosts, who, i) ensures i in seen.instances { InThere(seen, hosts, who, i); }
  }

  lemma InThere(seen: Db, hosts: set<Id>, who: Identity, i: Id)
    requires OneInstance(seen, hosts, who, i)
    ensures i in seen.instances
  {}

  lemma NotBoth(seen: Db, hosts: set<Id>, who: Identity, i: Id, r: Id)
    requires OneInstance(seen, hosts, who, i)
    ensures !OneRow(seen, hosts, who, r)
  {}

  lemma InstanceExactly(seen: Db, hosts: set<Id>, who: Identity, i: Id)
    ensures ProvenInstance(seen, hosts, who, i) <==> OneInstance(seen, hosts, who, i)
  {
    hide OpenRow;
    PointedAtExactly(seen, hosts, who);
    if OneInstance(seen, hosts, who, i) { assert MatchingInstances(seen, hosts, who) == {i}; }
    if ProvenInstance(seen, hosts, who, i) { assert i in MatchingInstances(seen, hosts, who) by { assert i in {i}; } }
  }

  lemma RowExactly(seen: Db, hosts: set<Id>, who: Identity, r: Id)
    ensures ProvenRow(seen, hosts, who, r) <==> OneRow(seen, hosts, who, r)
  {
    hide OpenRow;
    PointedAtExactly(seen, hosts, who);
    if OneRow(seen, hosts, who, r) {
      assert MatchingInstances(seen, hosts, who) == {};
      assert MatchingRows(seen, hosts, who) == {r};
    }
    if ProvenRow(seen, hosts, who, r) { assert r in MatchingRows(seen, hosts, who) by { assert r in {r}; } }
  }

  lemma PointedAtExactly(seen: Db, hosts: set<Id>, who: Identity)
    ensures forall i :: i in MatchingInstances(seen, hosts, who) <==> InstancePointedAt(seen, hosts, who, i)
    ensures forall r :: r in MatchingRows(seen, hosts, who) <==> RowPointedAt(seen, hosts, who, r)
    ensures forall r :: RowPointedAt(seen, hosts, who, r) ==> r in seen.rows
  {}

  /**
   What a waiting event's row says settles it: bound once the row recorded an instance of that host
   and id, retained once the row is gone, ended otherwise than committed or recorded another.
   */
  lemma RecoveredExactly(hub: Hub, id: Id, seen: Db)
    requires id in hub.events && hub.events[id].progress == Waiting
    requires hub.events[id].provisioning.Some? && hub.events[id].host.Some?
    ensures var e, e2 := hub.events[id], Recovered(hub, id, seen).events[id];
            var r := e.provisioning.value;
            var live := r in seen.rows && (OpenRow(seen, r) || seen.rows[r].state == Committed);
            var recorded := live && seen.rows[r].instance.Some? && seen.rows[r].state != Reserved
                            && seen.rows[r].state != CleanupPending;
            var same := live && seen.rows[r].host == e.host.value
                        && (e.remoteId.Some? ==> seen.rows[r].remoteId == e.remoteId);
            && (e2.progress == Pending <==> recorded && same)
            && (e2.progress == Retained <==> !live || (recorded && !same))
            && (e2.progress == Waiting <==> live && !recorded)
            && (recorded && same ==>
                  e2.bound == Some(Binding(seen.rows[r].host, seen.rows[r].instance.value, seen.rows[r].product,
                                           seen.rows[r].name, seen.rows[r].remoteId, e.adapter)))
  {}

  // ----- delivery -----

  /**
   `validateJob`: the instance is still there, under the same product, host, name and remote
   id, linked, and its host still speaks the adapter the event arrived by.
   */
  predicate ValidJob(db: Db, b: Binding) {
    && b.instance in db.instances
    && (var x := db.instances[b.instance];
        x.product == b.product && x.host == b.host && x.name == b.name
        && (b.remoteId.Some? ==> x.remoteId == b.remoteId))
    && (b.product, b.host) in db.links && b.host in db.hosts && db.hosts[b.host].adapter == b.adapter
  }

  /** Whatever the tables: valid is a job of an instance that is there and still the one bound, linked and spoken to. */
  lemma ValidExactly(db: Db, b: Binding)
    ensures ValidJob(db, b) <==>
              && b.instance in db.instances && (b.product, b.host) in db.links
              && b.host in db.hosts && db.hosts[b.host].adapter == b.adapter
              && var x := db.instances[b.instance];
                 OwnerOf(x) == Owner(b.product, b.host, b.name, if b.remoteId.Some? then b.remoteId else x.remoteId)
  {}

  /** A job is stale exactly when its instance is gone, or its host no longer speaks the bound adapter. */
  lemma JobStaleIff(hub: Hub, k: nat)
    requires HubInv(hub) && k < |hub.queue|
    ensures var b := hub.queue[k].bound;
            ValidJob(hub.db, b) <==>
              b.instance in hub.db.instances && b.host in hub.db.hosts && hub.db.hosts[b.host].adapter == b.adapter
  {
    hide Inv;
    var b := hub.queue[k].bound;
    assert EventOk(hub, hub.events[hub.queue[k].id]);
    LinkFacts(hub.db);
  }

  // ----- the service over its tables -----

  class Ingress {
    var events: map<Id, RelayEvent>
    var queue: seq<Job>

    constructor ()
      ensures events == map[] && queue == []
    {
      events, queue := map[], [];
    }

    /** The service's tables are the hub's. */
    ghost predicate Serves(hub: Hub)
      reads this
    {
      events == hub.events && queue == hub.queue
    }

    method MarkEvent(id: Id, progress: Progress, ghost hub: Hub)
      requires Serves(hub)
      modifies this`events
      ensures Serves(Marked(hub, id, progress))
    {
      if id in events && events[id].progress != Delivered { events := events[id := events[id].(progress := progress)]; }
    }

    method Accept(id: Id, seen: Db, hosts: set<Id>, who: Identity, adapter: Adapter, ghost hub: Hub)
      returns (bound: bool)
      requires Serves(hub)
      modifies this`events
      ensures Serves(hub.(events := hub.events[id := Arrival(seen, hosts, who, adapter)]))
      ensures id in events && Placed(events[id], seen, hosts, who, adapter)
      ensures bound <==> events[id].progress == Pending
    {
      var instances := MatchingInstances(seen, hosts, who);
      var rows := MatchingRows(seen, hosts, who);
      bound := false;
      var event := RelayEvent(None, adapter, who.name, who.remoteId, None, None, Retained);
      ArrivalCases(seen, hosts, who);
      ArrivalExactly(seen, hosts, who, adapter);
      if exists i :: i in instances && ProvenInstance(seen, hosts, who, i) {
        var i :| i in instances && ProvenInstance(seen, hosts, who, i);
        var x := seen.instances[i];
        event :=
          RelayEvent(Some(x.host), adapter, who.name, who.remoteId, None,
                     Some(Binding(x.host, i, x.product, x.name, x.remoteId, adapter)), Pending);
        bound := true;
      } else if exists r :: r in rows && ProvenRow(seen, hosts, who, r) {
        var r :| r in rows && ProvenRow(seen, hosts, who, r);
        event := RelayEvent(Some(seen.rows[r].host), adapter, who.name, who.remoteId, Some(r), None, Waiting);
      } else if |hosts| == 1 {
        var h :| h in hosts;
        Single(hosts, h);
        event := event.(host := Some(h));
      }
      events := events[id := event];
    }

    /** Adds the job of a binding that still holds, unless the queue has it, then notes it. */
    method Publish(id: Id, read: RelayEvent, seen: Db, ghost hub: Hub)
      requires Serves(hub) && read.bound.Some?
      modifies this
      ensures Serves(if ValidJob(seen, read.bound.value) then QueuedMark(Enqueued(hub, id, read), id)
                     else Marked(hub, id, Retained))
    {
      if !ValidJob(seen, read.bound.value) {
        MarkEvent(id, Retained, hub);
        return;
      }
      if !InQueue(queue, id) { queue := queue + [Job(id, read.bound.value)]; }
      if id in events && events[id].progress == Pending { events := events[id := events[id].(progress := Queued)]; }
    }

    /** One waiting event of the recovery pass, with the row as it was read. */
    method RecoverWaiting(id: Id, seen: Db, ghost hub: Hub)
      requires Serves(hub)
      modifies this
      ensures Serves(Recovered(hub, id, seen))
    {
      if id !in events || events[id].progress != Waiting { return; }
      var event := events[id];
      if event.provisioning.None? || event.host.None? { return; }
      if event.provisioning.value !in seen.rows {
        MarkEvent(id, Retained, hub);
        return;
      }
      var intention := seen.rows[event.provisioning.value];
      if !Open(intention.state) && intention.state != Committed {
        MarkEvent(id, Retained, hub);
        return;
      }
      if intention.instance.None?
         || (intention.state != Creating && intention.state != Uncertain && intention.state != Committed) {
        return;
      }
      if intention.host != event.host.value || (event.remoteId.Some? && intention.remoteId != event.remoteId) {
        MarkEvent(id, Retained, hub);
        return;
      }
      events :=
        events[id := event.(progress := Pending,
                                        bound := Some(Binding(intention.host, intention.instance.value,
                                                              intention.product, intention.name, intention.remoteId,
                                                              event.adapter)))];
    }
  }

  lemma Single(hosts: set<Id>, h: Id)
    requires |hosts| == 1 && h in hosts
    ensures hosts == {h}
  {
    var rest := hosts - {h};
    assert |rest| == 0;
  }

  /** At most one instance, or one row, is ever proven. */
  lemma ArrivalCases(seen: Db, hosts: set<Id>, who: Identity)
    ensures forall i, j :: ProvenInstance(seen, hosts, who, i) && ProvenInstance(seen, hosts, who, j) ==> i == j
    ensures forall r, q :: ProvenRow(seen, hosts, who, r) && ProvenRow(seen, hosts, who, q) ==> r == q
    ensures forall i :: ProvenInstance(seen, hosts, who, i) ==> i in MatchingInstances(seen, hosts, who)
    ensures forall r :: ProvenRow(seen, hosts, who, r) ==> r in MatchingRows(seen, hosts, who)
  {
    hide MatchingInstances, MatchingRows;
    forall i | ProvenInstance(seen, hosts, who, i) ensures i in MatchingInstances(seen, hosts, who) { assert i in {i}; }
    forall r | ProvenRow(seen, hosts, who, r) ensures r in MatchingRows(seen, hosts, who) { assert r in {r}; }
    forall i, j | ProvenInstance(seen, hosts, who, i) && ProvenInstance(seen, hosts, who, j) ensures i == j {
      assert i in {j};
    }
    forall r, q | ProvenRow(seen, hosts, who, r) && ProvenRow(seen, hosts, who, q) ensures r == q { assert r in {q}; }
  }
}
