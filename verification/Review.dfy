/**
 A configuration change is reviewed with its draft laid over the current rows, and applied
 later by other writes. Both are here, with the admission predicate they must agree with.
 */
module Review {
  import opened Basics
  import opened Occupancy
  import opened Tables
  import opened Admission
  import opened Protocol
  import opened Deliveries

  datatype Purpose = ToCapacity | ToSingle | ToLegacy | ToDetach

  /** An edit names the revision it was made against; a new link has none. */
  datatype LinkEdit = LinkEdit(expected: Option<nat>, priority: Option<nat>, accepting: Option<bool>)

  datatype LimitEdit = LimitEdit(expected: nat, maxInstances: Option<nat>)

  datatype SharedLimit = SharedLimit(expected: nat, maxInstances: Option<nat>, products: set<Id>)

  /** The lists of a draft name a host at most once, so each is a map from hosts. */
  datatype Draft = Draft(
    purpose: Purpose, target: Option<Id>, links: map<Id, LinkEdit>, limits: map<Id, LimitEdit>,
    identities: map<Id, nat>, shared: map<Id, SharedLimit>)

  /** The request schema: only a capacity draft carries edits, only the others name a target. */
  predicate WellFormed(d: Draft) {
    && (d.purpose != ToCapacity <==> d.target.Some?)
    && (d.purpose != ToCapacity ==> d.links == map[] && d.limits == map[] && d.identities == map[] && d.shared == map[])
  }

  predicate Forward(d: Draft) {
    d.purpose == ToCapacity || d.purpose == ToSingle
  }

  // ----- the snapshot -----

  datatype ProductFacts = ProductFacts(revision: nat, adapter: Adapter, hubRelay: bool, active: bool,
                                       defaultHost: Option<Id>, mode: Mode)

  datatype HostFacts = HostFacts(revision: nat, maxInstances: Option<nat>, verified: bool, members: set<Id>)

  datatype Snapshot = Snapshot(product: ProductFacts, links: map<Id, Link>, hosts: map<Id, HostFacts>)

  function OwnHosts(db: Db, p: Id): set<Id> {
    set key | key in db.links && key.0 == p :: key.1
  }

  function OwnLinks(db: Db, p: Id): map<Id, Link> {
    map h | h in OwnHosts(db, p) :: db.links[(p, h)]
  }

  function Mentioned(db: Db, p: Id, d: Draft): set<Id> {
    OwnHosts(db, p) + d.links.Keys + d.limits.Keys + d.identities.Keys
    + (if d.target.Some? then {d.target.value} else {})
  }

  function MembersOf(db: Db, p: Id, d: Draft, h: Id): set<Id> {
    (set q | q in db.products && (db.products[q].defaultHost == Some(h) || (q, h) in db.links))
    + (if h in d.links then {p} else {})
  }

  /** None when the draft mentions a host that does not exist: the source then throws. */
  function SnapshotOf(db: Db, p: Id, d: Draft): Option<Snapshot>
    requires p in db.products
  {
    if Mentioned(db, p, d) <= db.hosts.Keys then
      var product := db.products[p];
      Some(Snapshot(
        ProductFacts(product.revision, product.adapter, product.hubRelay, product.active, product.defaultHost,
                     product.mode),
        OwnLinks(db, p),
        map h | h in Mentioned(db, p, d) && h in db.hosts ::
          HostFacts(db.hosts[h].configRevision, db.hosts[h].maxInstances, db.hosts[h].verified,
                    MembersOf(db, p, d, h))))
    else None
  }

  // ----- the draft laid over the current rows -----

  function OrKeep<T>(edit: Option<T>, kept: T): T {
    if edit.Some? then edit.value else kept
  }

  function OverlaidLink(links: map<Id, Link>, d: Draft, h: Id): Link {
    var base := if h in links then links[h] else Link(false, 0, 0);
    var edited := if h in d.links
                    then base.(priority := OrKeep(d.links[h].priority, base.priority),
                                           accepting := OrKeep(d.links[h].accepting, base.accepting)) else base;
    if d.purpose == ToSingle then edited.(accepting := d.target == Some(h)) else edited
  }

  function OverlaidHosts(links: map<Id, Link>, d: Draft): set<Id> {
    links.Keys + d.links.Keys
  }

  function OverlaidHost(host: Host, d: Draft, h: Id): Host {
    var limited := if h in d.limits then host.(maxInstances := d.limits[h].maxInstances) else host;
    if h in d.identities then limited.(verified := true, canonicalEndpoint := host.url.endpoint) else limited
  }

  // ----- readiness, the second statement of the admission conditions -----

  datatype Code =
    | ConfigurationChanged | DistributionDisabled | DatabaseNotConsolidated | WritersUnconfirmed | ProductInactive
    | IdentityUnverified | EndpointAlias | ProviderInactive | VpsInactive | HealthUnconfirmed | InventoryUnconfirmed
    | CallbackUnconfirmed | OccupancyAmbiguous | ProvisioningUnresolved
    | ProviderPaused | AdapterMismatch | CapacityFull | Verified | NoCapacity
    | SharedLimitConfirmation | TargetUnavailable | InstancesOutsideTarget | DefaultProvider | InstancesPresent
    | ProvisioningPending | DeliveryPending

  datatype Check = Check(code: Code, host: Option<Id>, blocking: bool)

  /** What an administrator is asked to do about a blocking check. */
  datatype Action =
    | ConfirmWebhook(host: Id, instances: set<Id>)
    | UseTestProduct(host: Id)
    | ConfirmSharedLimit(host: Id, products: set<Id>)
    | Resolve(code: Code, at: Option<Id>)

  function OwnInstances(db: Db, p: Id, h: Id): set<Id> {
    set i | i in db.instances && db.instances[i].product == p && db.instances[i].host == h
  }

  function ActionFor(db: Db, p: Id, snap: Snapshot, c: Check): Action {
    if c.code == CallbackUnconfirmed && c.host.Some? then
      if OwnInstances(db, p, c.host.value) == {} then UseTestProduct(c.host.value)
      else ConfirmWebhook(c.host.value, OwnInstances(db, p, c.host.value))
    else if c.code == SharedLimitConfirmation && c.host.Some? && c.host.value in snap.hosts then
      ConfirmSharedLimit(c.host.value, snap.hosts[c.host.value].members)
    else Resolve(c.code, c.host)
  }

  /** An open row whose link columns are not its own pair. */
  predicate Unattributed(db: Db, h: Id) {
    exists r :: r in db.rows && OpenOn(db, r, h) && db.rows[r].link != Some((db.rows[r].product, db.rows[r].host))
  }

  predicate HostBlocks(db: Db, cfg: Config, now: Time, h: Id, host: Host, relay: bool, c: Code) {
    || (c == IdentityUnverified
        && (host.url.endpoint.None? || host.canonicalEndpoint != host.url.endpoint || !host.verified))
    || (c == EndpointAlias && Aliased(db.hosts, h, host.url))
    || (c == ProviderInactive && !host.active)
    || (c == VpsInactive && !host.vpsActive)
    || (c == HealthUnconfirmed && (!host.healthy || !Recent(host.lastHealthAt, now, cfg.healthMaxAge)))
    || (c == InventoryUnconfirmed
        && (host.inventoryStatus != InventoryStatus.Ready || !Recent(host.observedAt, now, cfg.inventoryMaxAge)))
    || (c == CallbackUnconfirmed && relay && !host.callbackReady)
  }

  predicate Blocks(db: Db, cfg: Config, now: Time, h: Id, host: Host, relay: bool, l: Listing, c: Code)
    requires Known(db, l)
  {
    || HostBlocks(db, cfg, now, h, host, relay, c)
    || (c == OccupancyAmbiguous && Used(db, h, l).ambiguous)
    || (c == ProvisioningUnresolved && Unattributed(db, h))
  }

  predicate LinkBlocks(db: Db, cfg: Config, now: Time, product: Product, h: Id, host: Host, link: Link, l: Listing,
        c: Code)
    requires Known(db, l)
  {
    || Blocks(db, cfg, now, h, host, link.accepting && product.hubRelay, l, c)
    || (c == ProviderPaused && !host.accepting)
    || (c == AdapterMismatch && (host.adapter != product.adapter || host.adapter != Evolution))
  }

  predicate Full(db: Db, h: Id, host: Host, l: Listing)
    requires Known(db, l)
  {
    host.maxInstances.Some? && |Used(db, h, l).groups| >= host.maxInstances.value
  }

  /** What the database's catalogue and the confirmation of the writers say, and the delivery tables. */
  datatype Setup = Setup(consolidated: bool, writers: bool, events: seq<StoredEvent>, batches: seq<BatchRow>)

  /** The hosts whose deliveries a reversal waits for: those the product leaves behind. */
  function LeftBehind(db: Db, p: Id, legacy: bool, t: Id): set<Id> {
    if legacy then OwnHosts(db, p) - {t} else {t}
  }

  ghost predicate DeliveriesPending(db: Db, setup: Setup, p: Id, legacy: bool, t: Id) {
    Awaited(db, setup.events, setup.batches, p, LeftBehind(db, p, legacy, t))
  }

  type Listings = map<Id, Listing>

  ghost predicate AllKnown(db: Db, ls: Listings) {
    forall h :: h in db.hosts ==> h in ls && Known(db, ls[h])
  }

  ghost predicate Vacant(db: Db, cfg: Config, now: Time, p: Id, links: map<Id, Link>, d: Draft, ls: Listings, h: Id)
    requires p in db.products && h in db.hosts && AllKnown(db, ls)
  {
    var host, link := OverlaidHost(db.hosts[h], d, h), OverlaidLink(links, d, h);
    && link.accepting && !Full(db, h, host, ls[h])
    && forall c :: !LinkBlocks(db, cfg, now, db.products[p], h, host, link, ls[h], c)
  }

  /** A confirmed limit change names the very hosts, revision, limit and products it affects. */
  predicate LimitUnconfirmed(d: Draft, snap: Snapshot, h: Id)
    requires h in d.limits && h in snap.hosts
  {
    var observed := snap.hosts[h];
    && d.limits[h].maxInstances != observed.maxInstances && |observed.members| > 1
    && !(h in d.shared && d.shared[h] == SharedLimit(observed.revision, d.limits[h].maxInstances, observed.members))
  }

  // ----- which checks a review raises -----

  ghost predicate RaisedForLink(db: Db, cfg: Config, now: Time, p: Id, links: map<Id, Link>, d: Draft, ls: Listings,
        c: Check)
    requires p in db.products && AllKnown(db, ls) && OverlaidHosts(links, d) <= db.hosts.Keys
  {
    c.host.Some? && c.host.value in OverlaidHosts(links, d) &&
    var h := c.host.value;
    var host, link := OverlaidHost(db.hosts[h], d, h), OverlaidLink(links, d, h);
    || (LinkBlocks(db, cfg, now, db.products[p], h, host, link, ls[h], c.code) && c.blocking == link.accepting)
    || (c.code == CapacityFull && Full(db, h, host, ls[h]) && !c.blocking)
    || (c.code == Verified && !c.blocking && forall k ::
          !LinkBlocks(db, cfg, now, db.products[p], h, host, link, ls[h], k))
  }

  ghost predicate RaisedForIdentity(db: Db, d: Draft, c: Check) {
    c.blocking && c.host.Some? && c.host.value in d.identities && c.host.value in db.hosts &&
    var url := db.hosts[c.host.value].url;
    (c.code == IdentityUnverified && url.endpoint.None?)
    || (c.code == EndpointAlias && Aliased(db.hosts, c.host.value, url))
  }

  ghost predicate RaisedForLimit(db: Db, cfg: Config, now: Time, d: Draft, snap: Snapshot, ls: Listings, c: Check)
    requires AllKnown(db, ls)
  {
    c.blocking && c.host.Some? && c.host.value in d.limits && c.host.value in db.hosts && c.host.value in snap.hosts &&
    var h := c.host.value;
    || (c.code == SharedLimitConfirmation && LimitUnconfirmed(d, snap, h))
    || (d.limits[h].maxInstances.Some?
        && Blocks(db, cfg, now, h, OverlaidHost(db.hosts[h], d.(limits := map[]), h), false, ls[h], c.code))
  }

  ghost predicate RaisedForReversal(db: Db, setup: Setup, p: Id, d: Draft, snap: Snapshot, c: Check)
    requires p in db.products && d.target.Some?
  {
    c.blocking && c.host == d.target && Forbids(db, setup, p, d.purpose == ToLegacy, d.target.value, snap, c.code)
  }

  ghost predicate Forbids(db: Db, setup: Setup, p: Id, legacy: bool, t: Id, snap: Snapshot, c: Code)
    requires p in db.products
  {
    || (c == TargetUnavailable && (t !in snap.links || (legacy && TargetUnfit(db, p, t))))
    || (c == InstancesOutsideTarget && legacy && HasInstance(db, p, t, false))
    || (c == DefaultProvider && !legacy && db.products[p].defaultHost == Some(t))
    || (c == InstancesPresent && !legacy && HasInstance(db, p, t, true))
    || (c == ProvisioningPending && HasPending(db, p, t, legacy))
    || (c == DeliveryPending && DeliveriesPending(db, setup, p, legacy, t))
  }

  predicate HasInstance(db: Db, p: Id, t: Id, there: bool) {
    exists i :: i in db.instances && db.instances[i].product == p && (db.instances[i].host == t <==> there)
  }

  predicate HasPending(db: Db, p: Id, t: Id, anywhere: bool) {
    exists r :: r in db.rows && db.rows[r].product == p && (anywhere || db.rows[r].host == t) && Pending(db.rows[r])
  }

  predicate TargetUnfit(db: Db, p: Id, t: Id)
    requires p in db.products
  {
    t !in db.hosts || !db.hosts[t].active || !db.hosts[t].vpsActive || db.hosts[t].adapter != db.products[p].adapter
    || (p, t) !in db.links
  }

  /** Where the source does not throw: every host the snapshot or the draft speaks of exists. */
  ghost predicate Reviewable(db: Db, p: Id, d: Draft, snap: Snapshot, ls: Listings) {
    p in db.products && AllKnown(db, ls) && WellFormed(d) && Mentioned(db, p, d) + snap.links.Keys <= db.hosts.Keys
    && d.limits.Keys <= snap.hosts.Keys
  }

  predicate RaisedGenerally(db: Db, cfg: Config, setup: Setup, p: Id, c: Check)
    requires p in db.products
  {
    c.host.None? && c.blocking &&
    (|| (c.code == DistributionDisabled && !cfg.allocationEnabled)
     || (c.code == DatabaseNotConsolidated && !setup.consolidated)
     || (c.code == WritersUnconfirmed && !setup.writers)
     || (c.code == ProductInactive && !db.products[p].active))
  }

  ghost predicate RaisedForLinks(db: Db, cfg: Config, now: Time, p: Id, links: map<Id, Link>, d: Draft, ls: Listings,
        c: Check)
    requires p in db.products && AllKnown(db, ls) && WellFormed(d) && OverlaidHosts(links, d) <= db.hosts.Keys
  {
    || (d.purpose == ToSingle && c == Check(TargetUnavailable, d.target, true)
        && d.target.value !in OverlaidHosts(links, d))
    || RaisedForLink(db, cfg, now, p, links, d, ls, c)
    || (c == Check(NoCapacity, None, true) && forall h :: h in OverlaidHosts(links, d) ==>
                                                            !Vacant(db, cfg, now, p, links, d, ls, h))
  }

  ghost predicate Raised(db: Db, cfg: Config, setup: Setup, now: Time, p: Id, d: Draft, snap: Snapshot, ls: Listings,
        c: Check)
    requires Reviewable(db, p, d, snap, ls)
  {
    || (c == Check(ConfigurationChanged, None, true) && SnapshotOf(db, p, d) != Some(snap))
    || (!Forward(d) && RaisedForReversal(db, setup, p, d, snap, c))
    || (Forward(d) && RaisedForward(db, cfg, setup, now, p, d, snap, ls, c))
  }

  ghost predicate RaisedForward(db: Db, cfg: Config, setup: Setup, now: Time, p: Id, d: Draft, snap: Snapshot,
        ls: Listings, c: Check)
    requires Reviewable(db, p, d, snap, ls)
  {
    || RaisedGenerally(db, cfg, setup, p, c)
    || RaisedForLinks(db, cfg, now, p, snap.links, d, ls, c)
    || RaisedForIdentity(db, d, c)
    || RaisedForLimit(db, cfg, now, d, snap, ls, c)
  }

  ghost predicate ReviewedReady(db: Db, cfg: Config, setup: Setup, now: Time, p: Id, d: Draft, snap: Snapshot,
        ls: Listings)
    requires Reviewable(db, p, d, snap, ls)
  {
    forall c: Check :: Raised(db, cfg, setup, now, p, d, snap, ls, c) ==> !c.blocking
  }

  // ----- what apply writes -----

  /** Each edit of a host is one update of its row, and counts as one configuration change. */
  function Limited(host: Host, d: Draft, h: Id): Host {
    if h in d.limits then host.(maxInstances := d.limits[h].maxInstances, configRevision := host.configRevision + 1)
    else host
  }

  function Identified(host: Host): Host {
    host.(verified := true, canonicalEndpoint := host.url.endpoint, configRevision := host.configRevision + 1)
  }

  function WrittenHost(host: Host, d: Draft, h: Id): Host {
    if h in d.identities then Identified(Limited(host, d, h)) else Limited(host, d, h)
  }

  function WrittenHosts(db: Db, d: Draft): map<Id, Host> {
    map h | h in db.hosts :: WrittenHost(db.hosts[h], d, h)
  }

  /** An upsert: a new link starts paused at priority 0, an old one keeps what the draft leaves out. */
  function UpsertedLink(links: map<(Id, Id), Link>, p: Id, h: Id, edit: LinkEdit): Link {
    if (p, h) in links then
      var link := links[(p, h)];
      Link(OrKeep(edit.accepting, link.accepting), OrKeep(edit.priority, link.priority), link.revision + 1)
    else Link(OrKeep(edit.accepting, false), OrKeep(edit.priority, 0), 0)
  }

  function UpsertedLinks(links: map<(Id, Id), Link>, p: Id, d: Draft): map<(Id, Id), Link> {
    map key | key in links.Keys + (set h | h in d.links :: (p, h)) ::
      if key.0 == p && key.1 in d.links then UpsertedLink(links, p, key.1, d.links[key.1]) else links[key]
  }

  function Narrowed(links: map<(Id, Id), Link>, p: Id, target: Id): map<(Id, Id), Link> {
    map key | key in links :: if key.0 == p
                                then links[key].(accepting := key.1 == target, revision := links[key].revision + 1)
                              else links[key]
  }

  function WrittenLinks(links: map<(Id, Id), Link>, p: Id, d: Draft): map<(Id, Id), Link>
    requires WellFormed(d)
  {
    var upserted := UpsertedLinks(links, p, d);
    if d.purpose == ToSingle then Narrowed(upserted, p, d.target.value) else upserted
  }

  /**
   The tables after the apply transaction's own writes. Only detaching tests its conditions again;
   a single destination must be a link of the product, and a restore is written as it is.
   */
  ghost function Applied(db: Db, setup: Setup, p: Id, d: Draft): Outcome<()>
    requires p in db.products && WellFormed(d)
  {
    var product := db.products[p];
    if d.purpose == ToLegacy then Done(MadeLegacy(db, p, d.target.value), ())
    else if d.purpose == ToDetach then
      var o := Detach(db, p, d.target.value, DeliveriesPending(db, setup, p, false, d.target.value));
      if o.Refused? then o
      else Done(o.db.(products := o.db.products[p := product.(revision := product.revision + 1)]), ())
    else if d.purpose == ToSingle && d.target.value !in OwnHosts(db, p) then Refused(NotFound)
    else Done(Configured(db, p, d), ())
  }

  function Configured(db: Db, p: Id, d: Draft): Db
    requires p in db.products && WellFormed(d)
  {
    db.(hosts := WrittenHosts(db, d), links := WrittenLinks(db.links, p, d),
        products := db.products[p := db.products[p].(mode := Capacity, revision := db.products[p].revision + 1)])
  }

  // ----- the overlay commutes with the writes -----

  /** What the review laid over a host is what apply writes, up to the configuration counter. */
  lemma HostsAgree(db: Db, d: Draft, h: Id)
    requires h in db.hosts
    ensures h in WrittenHosts(db, d)
            && WrittenHosts(db, d)[h] ==
              OverlaidHost(db.hosts[h], d, h).(configRevision := WrittenHosts(db, d)[h].configRevision)
  {}

  /** And likewise for links: the same links, accepting the same, at the same priority. */
  lemma LinksAgree(db: Db, p: Id, d: Draft, h: Id)
    requires WellFormed(d)
    ensures (p, h) in WrittenLinks(db.links, p, d) <==> h in OverlaidHosts(OwnLinks(db, p), d)
    ensures (p, h) in WrittenLinks(db.links, p, d) ==>
              WrittenLinks(db.links, p, d)[(p, h)] ==
                OverlaidLink(OwnLinks(db, p), d, h).(revision := WrittenLinks(db.links, p, d)[(p, h)].revision)
  {
    assert (p, h) in db.links <==> h in OwnHosts(db, p) by {
      if (p, h) in db.links { assert (p, h).1 in OwnHosts(db, p); }
    }
  }

  /** Nothing the count of a host depends on is written. */
  lemma CountsAgree(db: Db, p: Id, d: Draft, h: Id, l: Listing)
    requires p in db.products && WellFormed(d) && Known(db, l)
    ensures var after := Configured(db, p, d); Known(after, l) && Used(after, h, l) == Used(db, h, l)
  {
    var after := Configured(db, p, d);
    forall i | i in l.instances ensures Absent(after, i, h) <==> Absent(db, i, h) {}
    assert AbsentOf(after, h, l.instances) == AbsentOf(db, h, l.instances);
    assert InstanceItems(after, l.instances) == InstanceItems(db, l.instances);
    assert RowItems(after, l.rows) == RowItems(db, l.rows);
  }

  lemma AliasesAgree(db: Db, d: Draft, h: Id, url: Url)
    ensures Aliased(WrittenHosts(db, d), h, url) <==> Aliased(db.hosts, h, url)
  {
    forall g | g in db.hosts ensures WrittenHosts(db, d)[g].url == db.hosts[g].url {}
  }

  /** The admission conditions of a product in capacity mode, spelled out. */
  lemma CapacityAdmits(db: Db, cfg: Config, now: Time, p: Id, h: Id, l: Listing)
    requires Known(db, l) && p in db.products && h in db.hosts && db.products[p].mode == Capacity
    ensures var product, host := db.products[p], db.hosts[h];
            Admit(db, cfg, now, p, h, false, l).Done? <==>
              && product.active && cfg.allocationEnabled
              && (p, h) in db.links && db.links[(p, h)].accepting
              && host.url.endpoint.Some? && host.canonicalEndpoint == host.url.endpoint && host.verified
                 && !Aliased(db.hosts, h, host.url)
              && host.active && host.vpsActive && Fresh(host, cfg, now)
              && (product.hubRelay ==> host.callbackReady)
              && !Used(db, h, l).ambiguous && !Full(db, h, host, l)
              && host.accepting && host.adapter == product.adapter
  {
    hide Aliased, Used, Fresh;
  }

  /** No blocker and no full host: the two statements of the conditions meet. */
  lemma AdmissionMatches(db: Db, cfg: Config, now: Time, p: Id, d: Draft, ls: Listings, h: Id)
    requires p in db.products && h in db.hosts && AllKnown(db, ls) && WellFormed(d) && Forward(d)
    requires h in OverlaidHosts(OwnLinks(db, p), d)
    requires db.products[p].active && cfg.allocationEnabled
    ensures Known(Configured(db, p, d), ls[h])
    ensures Vacant(db, cfg, now, p, OwnLinks(db, p), d, ls, h) <==>
              && Admit(Configured(db, p, d), cfg, now, p, h, false, ls[h]).Done?
              && db.hosts[h].adapter == Evolution && !Unattributed(db, h)
  {
    hide Aliased, Used, Fresh, Admit, LinkBlocks, WrittenHosts, WrittenLinks, Unattributed;
    var after := Configured(db, p, d);
    HostsAgree(db, d, h);
    LinksAgree(db, p, d, h);
    CountsAgree(db, p, d, h, ls[h]);
    AliasesAgree(db, d, h, db.hosts[h].url);
    NoBlockers(db, cfg, now, db.products[p], h, OverlaidHost(db.hosts[h], d, h), OverlaidLink(OwnLinks(db, p), d, h),
               ls[h]);
    CapacityAdmits(after, cfg, now, p, h, ls[h]);
    RevisionsDoNotMatter(OverlaidHost(db.hosts[h], d, h), after.hosts[h], cfg, now);
  }

  lemma RevisionsDoNotMatter(host: Host, written: Host, cfg: Config, now: Time)
    requires written == host.(configRevision := written.configRevision)
    ensures Fresh(written, cfg, now) <==> Fresh(host, cfg, now)
  {}

  /** The blockers spelled out, none of them left. */
  lemma NoHostBlockers(db: Db, cfg: Config, now: Time, h: Id, host: Host, relay: bool)
    ensures (forall c :: !HostBlocks(db, cfg, now, h, host, relay, c)) <==>
              && host.url.endpoint.Some? && host.canonicalEndpoint == host.url.endpoint && host.verified
                 && !Aliased(db.hosts, h, host.url)
              && host.active && host.vpsActive && Fresh(host, cfg, now) && (relay ==> host.callbackReady)
  {
    hide Aliased, Recent;
    if forall c :: !HostBlocks(db, cfg, now, h, host, relay, c) {
      assert !HostBlocks(db, cfg, now, h, host, relay, IdentityUnverified);
      assert !HostBlocks(db, cfg, now, h, host, relay, EndpointAlias);
      assert !HostBlocks(db, cfg, now, h, host, relay, ProviderInactive);
      assert !HostBlocks(db, cfg, now, h, host, relay, VpsInactive);
      assert !HostBlocks(db, cfg, now, h, host, relay, HealthUnconfirmed);
      assert !HostBlocks(db, cfg, now, h, host, relay, InventoryUnconfirmed);
      assert !HostBlocks(db, cfg, now, h, host, relay, CallbackUnconfirmed);
    }
  }

  lemma NoBlockers(db: Db, cfg: Config, now: Time, product: Product, h: Id, host: Host, link: Link, l: Listing)
    requires Known(db, l)
    ensures (forall c :: !LinkBlocks(db, cfg, now, product, h, host, link, l, c)) <==>
              && host.url.endpoint.Some? && host.canonicalEndpoint == host.url.endpoint && host.verified
                 && !Aliased(db.hosts, h, host.url)
              && host.active && host.vpsActive && Fresh(host, cfg, now)
              && (link.accepting && product.hubRelay ==> host.callbackReady)
              && !Used(db, h, l).ambiguous && !Unattributed(db, h)
              && host.accepting && host.adapter == product.adapter && host.adapter == Evolution
  {
    hide HostBlocks, Aliased, Fresh, Used, Unattributed;
    var relay := link.accepting && product.hubRelay;
    NoHostBlockers(db, cfg, now, h, host, relay);
    if forall c :: !LinkBlocks(db, cfg, now, product, h, host, link, l, c) {
      forall c ensures !HostBlocks(db, cfg, now, h, host, relay, c) {
        assert !LinkBlocks(db, cfg, now, product, h, host, link, l, c);
      }
      assert !LinkBlocks(db, cfg, now, product, h, host, link, l, OccupancyAmbiguous);
      assert !LinkBlocks(db, cfg, now, product, h, host, link, l, ProvisioningUnresolved);
      assert !LinkBlocks(db, cfg, now, product, h, host, link, l, ProviderPaused);
      assert !LinkBlocks(db, cfg, now, product, h, host, link, l, AdapterMismatch);
    }
  }

  lemma SnapshotLinks(db: Db, p: Id, d: Draft, snap: Snapshot)
    requires p in db.products && SnapshotOf(db, p, d) == Some(snap)
    ensures snap.links == OwnLinks(db, p)
  {}

  lemma ReadyRaisesNone(db: Db, cfg: Config, setup: Setup, now: Time, p: Id, d: Draft, snap: Snapshot, ls: Listings,
        c: Check)
    requires Reviewable(db, p, d, snap, ls) && Forward(d) && ReviewedReady(db, cfg, setup, now, p, d, snap, ls)
             && c.blocking
    ensures p in db.products && AllKnown(db, ls) && WellFormed(d) && OverlaidHosts(snap.links, d) <= db.hosts.Keys
            && OverlaidHosts(OwnLinks(db, p), d) <= db.hosts.Keys
    ensures c.code == ConfigurationChanged && c.host.None? ==> SnapshotOf(db, p, d) == Some(snap)
    ensures !RaisedGenerally(db, cfg, setup, p, c) && !RaisedForLinks(db, cfg, now, p, snap.links, d, ls, c)
  {
    hide RaisedGenerally, RaisedForLinks, RaisedForIdentity, RaisedForLimit, SnapshotOf, Known;
    assert !Raised(db, cfg, setup, now, p, d, snap, ls, c);
  }

  lemma ReadyFacts(db: Db, cfg: Config, setup: Setup, now: Time, p: Id, d: Draft, snap: Snapshot, ls: Listings)
    requires Reviewable(db, p, d, snap, ls) && Forward(d) && ReviewedReady(db, cfg, setup, now, p, d, snap, ls)
    ensures p in db.products && AllKnown(db, ls) && WellFormed(d) && OverlaidHosts(OwnLinks(db, p), d) <= db.hosts.Keys
    ensures db.products[p].active && cfg.allocationEnabled
    ensures d.purpose == ToSingle ==> d.target.value in OverlaidHosts(OwnLinks(db, p), d)
    ensures exists h :: h in OverlaidHosts(OwnLinks(db, p), d) && Vacant(db, cfg, now, p, OwnLinks(db, p), d, ls, h)
  {
    hide RaisedForLink, Vacant, SnapshotOf, Reviewable, ReviewedReady, OwnLinks, Known;
    ReadyRaisesNone(db, cfg, setup, now, p, d, snap, ls, Check(ConfigurationChanged, None, true));
    SnapshotLinks(db, p, d, snap);
    ReadyRaisesNone(db, cfg, setup, now, p, d, snap, ls, Check(ProductInactive, None, true));
    ReadyRaisesNone(db, cfg, setup, now, p, d, snap, ls, Check(DistributionDisabled, None, true));
    ReadyRaisesNone(db, cfg, setup, now, p, d, snap, ls, Check(NoCapacity, None, true));
    ReadyRaisesNone(db, cfg, setup, now, p, d, snap, ls, Check(TargetUnavailable, d.target, true));
  }

  /**
   What the review promises, apply delivers: once a review comes out ready, the apply
   writes succeed, and at that instant a new session of the product is admitted somewhere.
   */
  lemma ReviewDelivers(db: Db, cfg: Config, setup: Setup, now: Time, p: Id, d: Draft, snap: Snapshot, ls: Listings)
    returns (h: Id)
    requires Reviewable(db, p, d, snap, ls) && Forward(d)
    requires ReviewedReady(db, cfg, setup, now, p, d, snap, ls)
    ensures Applied(db, setup, p, d).Done? && h in db.hosts
    ensures Known(Applied(db, setup, p, d).db, ls[h])
    ensures Admit(Applied(db, setup, p, d).db, cfg, now, p, h, false, ls[h]).Done?
  {
    hide RaisedForLink, Admit, Configured, Vacant, Reviewable, ReviewedReady, RestoreLegacy, Detach, Known,
         Unattributed;
    ReadyFacts(db, cfg, setup, now, p, d, snap, ls);
    h :| h in OverlaidHosts(OwnLinks(db, p), d) && Vacant(db, cfg, now, p, OwnLinks(db, p), d, ls, h);
    AdmissionMatches(db, cfg, now, p, d, ls, h);
  }

  ghost predicate Unblocked(db: Db, setup: Setup, p: Id, d: Draft, snap: Snapshot)
    requires p in db.products && d.target.Some?
  {
    forall c: Code :: !RaisedForReversal(db, setup, p, d, snap, Check(c, d.target, true))
  }

  /**
   The reversals: a review of a detachment is ready exactly when its transaction, which tests
   everything again, goes through. A restore is written without a second test, and what a ready
   review lets it write is what the guarded switch of a product's mode would have written.
   */
  lemma ReversalDelivers(db: Db, cfg: Config, setup: Setup, now: Time, p: Id, d: Draft, snap: Snapshot, ls: Listings)
    requires Reviewable(db, p, d, snap, ls) && !Forward(d)
    requires SnapshotOf(db, p, d) == Some(snap)
    ensures d.purpose == ToDetach ==>
              (ReviewedReady(db, cfg, setup, now, p, d, snap, ls) <==> Applied(db, setup, p, d).Done?)
    ensures d.purpose == ToLegacy ==>
              (ReviewedReady(db, cfg, setup, now, p, d, snap, ls) <==> Switched(db, setup, p, d).Done?)
    ensures d.purpose == ToLegacy && ReviewedReady(db, cfg, setup, now, p, d, snap, ls) ==>
              Applied(db, setup, p, d) == Switched(db, setup, p, d)
  {
    hide Blocks, Aliased, Full, Known, Used, RaisedForReversal, RaisedForLink, RaisedForIdentity, RaisedForLimit,
         Vacant, Mentioned, Detach, LegacyBlocked, DeliveriesPending;
    if ReviewedReady(db, cfg, setup, now, p, d, snap, ls) {
      forall c ensures !RaisedForReversal(db, setup, p, d, snap, Check(c, d.target, true)) {
        if RaisedForReversal(db, setup, p, d, snap, Check(c, d.target, true)) {
          ReversalRaises(db, cfg, setup, now, p, d, snap, ls, Check(c, d.target, true));
        }
      }
    } else {
      var c: Check :| Raised(db, cfg, setup, now, p, d, snap, ls, c) && c.blocking;
      assert RaisedForReversal(db, setup, p, d, snap, c);
      assert c.host == d.target && c == Check(c.code, d.target, true) by {
        ReversalCheckShape(db, setup, p, d, snap, c);
      }
    }
    UnblockedMeansAllowed(db, setup, p, d, snap);
  }

  /** The guarded switch to legacy mode. */
  ghost function Switched(db: Db, setup: Setup, p: Id, d: Draft): Outcome<()>
    requires p in db.products && d.target.Some?
  {
    RestoreLegacy(db, p, d.target.value, DeliveriesPending(db, setup, p, true, d.target.value))
  }

  lemma ReadyIsCurrent(db: Db, cfg: Config, setup: Setup, now: Time, p: Id, d: Draft, snap: Snapshot, ls: Listings)
    requires Reviewable(db, p, d, snap, ls) && ReviewedReady(db, cfg, setup, now, p, d, snap, ls)
    ensures SnapshotOf(db, p, d) == Some(snap)
  {
    hide RaisedForward, RaisedForReversal, Known, SnapshotOf;
    assert Raised(db, cfg, setup, now, p, d, snap, ls, Check(ConfigurationChanged, None, true))
           || SnapshotOf(db, p, d) == Some(snap);
  }

  lemma ReviewableFacts(db: Db, p: Id, d: Draft, snap: Snapshot, ls: Listings)
    requires Reviewable(db, p, d, snap, ls)
    ensures p in db.products && WellFormed(d) && Mentioned(db, p, d) <= db.hosts.Keys
    ensures d.links.Keys <= db.hosts.Keys
  {}

  /**
   What a restore delivers: every session of the product is on its new default host, none is
   under way, and whether it takes a new one depends on the host's own settings and room alone.
   */
  lemma RestoreDelivers(db: Db, cfg: Config, setup: Setup, now: Time, p: Id, d: Draft, snap: Snapshot, ls: Listings,
        l: Listing)
    requires Reviewable(db, p, d, snap, ls) && d.purpose == ToLegacy && Known(db, l)
    requires ReviewedReady(db, cfg, setup, now, p, d, snap, ls)
    ensures Applied(db, setup, p, d).Done? && d.target.value in db.hosts && (p, d.target.value) in db.links
    ensures var after, t := Applied(db, setup, p, d).db, d.target.value;
            && (forall i :: i in after.instances && after.instances[i].product == p ==> after.instances[i].host == t)
            && (forall r :: OpenRow(after, r) ==> after.rows[r].product != p)
            && Known(after, l)
            && (Admit(after, cfg, now, p, t, false, l).Done? <==>
                  && db.products[p].active && db.hosts[t].accepting && db.links[(p, t)].accepting
                  && (db.hosts[t].maxInstances.Some? ==>
                        WithinControls(after, cfg, now, after.products[p], t, false, l)))
  {
    hide Reviewable, ReviewedReady, WithinControls, DeliveriesPending, SnapshotOf;
    ReviewableFacts(db, p, d, snap, ls);
    ReadyIsCurrent(db, cfg, setup, now, p, d, snap, ls);
    ReversalDelivers(db, cfg, setup, now, p, d, snap, ls);
    assert !LegacyBlocked(db, p, d.target.value, DeliveriesPending(db, setup, p, true, d.target.value));
  }

  lemma ReversalRaises(db: Db, cfg: Config, setup: Setup, now: Time, p: Id, d: Draft, snap: Snapshot, ls: Listings,
        c: Check)
    requires Reviewable(db, p, d, snap, ls) && !Forward(d) && RaisedForReversal(db, setup, p, d, snap, c)
    ensures Raised(db, cfg, setup, now, p, d, snap, ls, c)
  {
    hide RaisedForReversal;
  }

  lemma ReversalCheckShape(db: Db, setup: Setup, p: Id, d: Draft, snap: Snapshot, c: Check)
    requires p in db.products && d.target.Some? && RaisedForReversal(db, setup, p, d, snap, c)
    ensures c.host == d.target && c.blocking
  {}

  lemma UnblockedMeansAllowed(db: Db, setup: Setup, p: Id, d: Draft, snap: Snapshot)
    requires p in db.products && WellFormed(d) && !Forward(d) && SnapshotOf(db, p, d) == Some(snap)
    ensures Unblocked(db, setup, p, d, snap) <==>
              if d.purpose == ToLegacy then Switched(db, setup, p, d).Done? else Applied(db, setup, p, d).Done?
  {
    hide Unblocked, RaisedForReversal, LegacyBlocked, DetachBlocked, DeliveriesPending;
    var t := d.target.value;
    assert t in snap.links <==> (p, t) in db.links by {
      if (p, t) in db.links { assert (p, t).1 in OwnHosts(db, p); }
    }
    SixCodes(db, setup, p, d, snap);
    if d.purpose == ToLegacy { LegacyMatches(db, setup, p, d, snap); } else { DetachMatches(db, setup, p, d, snap); }
  }

  ghost predicate NoneOfSix(db: Db, setup: Setup, p: Id, d: Draft, snap: Snapshot)
    requires p in db.products && d.target.Some?
  {
    && !RaisedForReversal(db, setup, p, d, snap, Check(TargetUnavailable, d.target, true))
    && !RaisedForReversal(db, setup, p, d, snap, Check(InstancesOutsideTarget, d.target, true))
    && !RaisedForReversal(db, setup, p, d, snap, Check(DefaultProvider, d.target, true))
    && !RaisedForReversal(db, setup, p, d, snap, Check(InstancesPresent, d.target, true))
    && !RaisedForReversal(db, setup, p, d, snap, Check(ProvisioningPending, d.target, true))
    && !RaisedForReversal(db, setup, p, d, snap, Check(DeliveryPending, d.target, true))
  }

  lemma SixCodes(db: Db, setup: Setup, p: Id, d: Draft, snap: Snapshot)
    requires p in db.products && d.target.Some?
    ensures Unblocked(db, setup, p, d, snap) <==> NoneOfSix(db, setup, p, d, snap)
  {
    OnlyTheseCodes(db, setup, p, d, snap);
    hide RaisedForReversal;
  }

  lemma LegacyMatches(db: Db, setup: Setup, p: Id, d: Draft, snap: Snapshot)
    requires p in db.products && d.purpose == ToLegacy && d.target.Some?
             && (d.target.value in snap.links <==> (p, d.target.value) in db.links)
    ensures NoneOfSix(db, setup, p, d, snap) <==>
              !LegacyBlocked(db, p, d.target.value, DeliveriesPending(db, setup, p, true, d.target.value))
  {
    hide DeliveriesPending;
  }

  lemma DetachMatches(db: Db, setup: Setup, p: Id, d: Draft, snap: Snapshot)
    requires p in db.products && d.purpose == ToDetach && d.target.Some?
             && (d.target.value in snap.links <==> (p, d.target.value) in db.links)
    ensures NoneOfSix(db, setup, p, d, snap) <==>
              (p, d.target.value) in db.links
              && !DetachBlocked(db, p, d.target.value, DeliveriesPending(db, setup, p, false, d.target.value))
  {
    hide DeliveriesPending;
  }

  lemma OnlyTheseCodes(db: Db, setup: Setup, p: Id, d: Draft, snap: Snapshot)
    requires p in db.products && d.target.Some?
    ensures forall c: Code :: RaisedForReversal(db, setup, p, d, snap, Check(c, d.target, true)) ==>
              c == TargetUnavailable || c == InstancesOutsideTarget || c == DefaultProvider || c == InstancesPresent
              || c == ProvisioningPending || c == DeliveryPending
  {}
}
