/**
 The tables the hub's replicas share, and what is read from them. Every field the
 protocol decides on is here; display fields, credentials' contents and audit columns are not.
 */
module Tables {
  import opened Basics
  import opened Occupancy
  import Relay

  datatype Adapter = Evolution | OtherAdapter(kind: nat)

  datatype Mode = Legacy | Capacity

  /** A host URL, with the canonical endpoint that URL parsing gives it, if any. */
  datatype Url = Url(text: nat, endpoint: Option<nat>)

  datatype InventoryStatus = Unknown | Ready | Unresolved

  datatype Product = Product(
    active: bool, mode: Mode, defaultHost: Option<Id>, adapter: Adapter, hubRelay: bool,
    revision: nat, firstCapacityUse: Option<Time>)

  datatype Host = Host(
    active: bool, vpsActive: bool, accepting: bool, adapter: Adapter, maxInstances: Option<nat>,
    configRevision: nat, url: Url, apiKey: nat, canonicalEndpoint: Option<nat>, verified: bool,
    healthy: bool, lastHealthAt: Option<Time>, inventoryStatus: InventoryStatus, observedAt: Option<Time>,
    inventoryRevision: nat, occupancyRevision: nat, callbackReady: bool, callbackToken: Option<string>)

  datatype Link = Link(accepting: bool, priority: nat, revision: nat)

  datatype Instance = Instance(product: Id, host: Id, name: Name, remoteId: Option<RemoteId>, updatedAt: Time)

  datatype RowState = Reserved | Creating | Uncertain | CleanupPending | Committed | Released | Failed

  /** The decrypted request kept with a row. `generated` tells a hub-made secret from a client's. */
  datatype Payload = Payload(secret: Secret, generated: bool, webhook: Option<Relay.Webhook>, webhookApplied: bool)

  datatype Row = Row(
    product: Id, host: Id, link: Option<(Id, Id)>, name: Name, state: RowState, instance: Option<Id>,
    remoteId: Option<RemoteId>, payload: Option<Payload>, leaseOwner: Option<Token>,
    leaseExpiresAt: Option<Time>, revision: nat)

  /** The one unfinished inventory collection a host may have. */
  datatype Collection = Collection(running: bool, observedRevision: nat, owner: Option<Token>,
                                   leaseExpiresAt: Option<Time>, startedAt: Time)

  /** What the last completed collection reported. */
  datatype Report = Report(inventoryRevision: nat, startedAt: Time, absent: set<Id>)

  datatype Db = Db(
    products: map<Id, Product>, hosts: map<Id, Host>, links: map<(Id, Id), Link>,
    instances: map<Id, Instance>, rows: map<Id, Row>, entries: map<Id, set<Session>>,
    collections: map<Id, Collection>, reports: map<Id, Report>)

  predicate Open(state: RowState) {
    state == Reserved || state == Creating || state == Uncertain || state == CleanupPending
  }

  predicate OpenRow(db: Db, r: Id) {
    r in db.rows && Open(db.rows[r].state)
  }

  predicate InstanceOn(db: Db, i: Id, h: Id) {
    i in db.instances && db.instances[i].host == h
  }

  predicate OpenOn(db: Db, r: Id, h: Id) {
    OpenRow(db, r) && db.rows[r].host == h
  }

  function Entries(db: Db, h: Id): set<Session> {
    if h in db.entries then db.entries[h] else {}
  }

  // ----- elementary writes -----

  function SetRow(db: Db, r: Id, row: Row): Db {
    db.(rows := db.rows[r := row])
  }

  function Advance(db: Db, h: Id): Db
    requires h in db.hosts
  {
    db.(hosts := db.hosts[h := db.hosts[h].(occupancyRevision := db.hosts[h].occupancyRevision + 1)])
  }

  /** Inserts the link unless the pair is already linked. */
  function EnsureLink(db: Db, p: Id, h: Id, accepting: bool): Db {
    if (p, h) in db.links then db else db.(links := db.links[(p, h) := Link(accepting, 0, 0)])
  }

  /** The foreign key of a row forgets a deleted instance. */
  function Forget(row: Row, i: Id): Row {
    if row.instance == Some(i) then row.(instance := None) else row
  }

  function DeleteInstance(db: Db, i: Id): Db {
    db.(instances := map j | j in db.instances && j != i :: db.instances[j],
        rows := map r | r in db.rows :: Forget(db.rows[r], i))
  }

  function DropEntries(db: Db, h: Id, name: Name): Db {
    db.(entries := db.entries[h := set e | e in Entries(db, h) && e.name != name])
  }

  // ----- occupancy -----

  /** Instances the last published collection did not find, and that are not newer than it. */
  predicate Absent(db: Db, i: Id, h: Id) {
    && InstanceOn(db, i, h)
    && h in db.hosts && h in db.reports
    && db.reports[h].inventoryRevision == db.hosts[h].inventoryRevision
    && db.instances[i].updatedAt <= db.reports[h].startedAt
    && i in db.reports[h].absent
  }

  /** The session names that take a slot on the host. */
  ghost function Occupied(db: Db, h: Id): set<Name> {
    (set e | e in Entries(db, h) :: e.name)
    + (set i | i in db.instances && InstanceOn(db, i, h) && !Absent(db, i, h) :: db.instances[i].name)
    + (set r | r in db.rows && OpenOn(db, r, h) :: db.rows[r].name)
  }

  /** One order in which the database may return a host's rows. */
  datatype Listing = Listing(remote: seq<Session>, instances: seq<Id>, rows: seq<Id>)

  ghost predicate Lists(db: Db, h: Id, l: Listing) {
    && (forall e :: e in l.remote <==> e in Entries(db, h))
    && (forall i :: i in l.instances <==> InstanceOn(db, i, h))
    && (forall r :: r in l.rows <==> OpenOn(db, r, h))
  }

  function RemoteItem(e: Session): Item { Item(e.name, e.remoteId, None) }

  function InstanceItem(x: Instance): Item { Item(x.name, x.remoteId, Some(x.product)) }

  function RowItem(x: Row): Item { Item(x.name, x.remoteId, Some(x.product)) }

  ghost predicate Known(db: Db, l: Listing) {
    && (forall k :: 0 <= k < |l.instances| ==> l.instances[k] in db.instances)
    && (forall k :: 0 <= k < |l.rows| ==> l.rows[k] in db.rows)
  }

  function RemoteItems(remote: seq<Session>): seq<Item> {
    seq(|remote|, k requires 0 <= k < |remote| => RemoteItem(remote[k]))
  }

  function InstanceItems(db: Db, ids: seq<Id>): seq<(Id, Item)>
    requires forall k :: 0 <= k < |ids| ==> ids[k] in db.instances
  {
    seq(|ids|, k requires 0 <= k < |ids| => (ids[k], InstanceItem(db.instances[ids[k]])))
  }

  function RowItems(db: Db, ids: seq<Id>): seq<Item>
    requires forall k :: 0 <= k < |ids| ==> ids[k] in db.rows
  {
    seq(|ids|, k requires 0 <= k < |ids| => RowItem(db.rows[ids[k]]))
  }

  function AbsentOf(db: Db, h: Id, ids: seq<Id>): set<Id> {
    set i | i in ids && Absent(db, i, h)
  }

  /** The merge of a host's rows, in the listed order. */
  function Used(db: Db, h: Id, l: Listing): Merge
    requires Known(db, l)
  {
    MergeAll(RemoteItems(l.remote) + Present(InstanceItems(db, l.instances), AbsentOf(db, h, l.instances))
             + RowItems(db, l.rows))
  }

  lemma ListedAreKnown(db: Db, h: Id, l: Listing)
    requires Lists(db, h, l)
    ensures Known(db, l)
  {
    forall k | 0 <= k < |l.instances| ensures l.instances[k] in db.instances { assert l.instances[k] in l.instances; }
    forall k | 0 <= k < |l.rows| ensures l.rows[k] in db.rows { assert l.rows[k] in l.rows; }
  }

  /** However the rows were listed, an unambiguous count is the number of occupied names. */
  lemma UsedCountsOccupied(db: Db, h: Id, l: Listing)
    requires Lists(db, h, l) && Known(db, l)
    requires !Used(db, h, l).ambiguous
    ensures |Used(db, h, l).groups| == |Occupied(db, h)|
  {
    var remote, rows := RemoteItems(l.remote), RowItems(db, l.rows);
    var local := Present(InstanceItems(db, l.instances), AbsentOf(db, h, l.instances));
    UnambiguousMergeCountsNames(remote + local + rows);
    RemoteNames(db, h, l);
    InstanceNames(db, h, l);
    RowNames(db, h, l);
    assert Members(remote + local + rows) == Members(remote) + Members(local) + Members(rows);
    NamesUnion(Members(remote), Members(local));
    NamesUnion(Members(remote) + Members(local), Members(rows));
  }

  lemma RemoteNames(db: Db, h: Id, l: Listing)
    requires Lists(db, h, l)
    ensures Names(Members(RemoteItems(l.remote))) == set e | e in Entries(db, h) :: e.name
  {
    var items := RemoteItems(l.remote);
    forall e | e in Entries(db, h) ensures e.name in Names(Members(items)) {
      var k :| 0 <= k < |l.remote| && l.remote[k] == e;
      assert items[k] in Members(items);
    }
  }

  lemma InstanceNames(db: Db, h: Id, l: Listing)
    requires Lists(db, h, l) && Known(db, l)
    ensures Names(Members(Present(InstanceItems(db, l.instances), AbsentOf(db, h, l.instances)))) ==
            set i | i in db.instances && InstanceOn(db, i, h) && !Absent(db, i, h) :: db.instances[i].name
  {
    var pairs, absent := InstanceItems(db, l.instances), AbsentOf(db, h, l.instances);
    PresentMembers(pairs, absent);
    forall i | InstanceOn(db, i, h) && !Absent(db, i, h)
      ensures db.instances[i].name in Names(Members(Present(pairs, absent)))
    {
      var k :| 0 <= k < |l.instances| && l.instances[k] == i;
      assert pairs[k] in pairs && pairs[k].0 !in absent;
      assert pairs[k].1 in Members(Present(pairs, absent));
    }
  }

  lemma RowNames(db: Db, h: Id, l: Listing)
    requires Lists(db, h, l) && Known(db, l)
    ensures Names(Members(RowItems(db, l.rows))) == set r | r in db.rows && OpenOn(db, r, h) :: db.rows[r].name
  {
    var items := RowItems(db, l.rows);
    forall r | OpenOn(db, r, h) ensures db.rows[r].name in Names(Members(items)) {
      var k :| 0 <= k < |l.rows| && l.rows[k] == r;
      assert items[k] in Members(items);
    }
  }

  lemma NamesUnion(a: set<Item>, b: set<Item>)
    ensures Names(a + b) == Names(a) + Names(b)
  {
    forall n | n in Names(a) + Names(b) ensures n in Names(a + b) {
      if n in Names(a) { var i :| i in a && i.name == n; assert i in a + b; }
      else { var i :| i in b && i.name == n; assert i in a + b; }
    }
  }
}
