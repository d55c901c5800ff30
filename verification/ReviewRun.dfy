/** The review and the apply transaction as they run: lists of checks built in loops, writes one row at a time. */
module ReviewRun {
  import opened Basics
  import opened Occupancy
  import opened Tables
  import opened Admission
  import opened Protocol
  import opened Transactions
  import opened Deliveries
  import opened Review

  method CountHost(db: Db, h: Id, l: Listing) returns (effective: nat, ambiguous: bool)
    requires Known(db, l)
    ensures effective == |Used(db, h, l).groups| && ambiguous == Used(db, h, l).ambiguous
  {
    var byProduct;
    effective, ambiguous,
    byProduct :=
      CountSessions(RemoteItems(l.remote), InstanceItems(db, l.instances), RowItems(db, l.rows),
                    AbsentOf(db, h, l.instances));
  }

  /** Reports a code if its condition holds. */
  method Push(codes: seq<Code>, holds: bool, code: Code) returns (more: seq<Code>)
    ensures forall c :: c in more <==> c in codes || (holds && c == code)
  {
    more := if holds then codes + [code] else codes;
  }

  /** The blockers the host's own row shows. */
  method HostBlockers(db: Db, cfg: Config, now: Time, h: Id, host: Host, relay: bool) returns (blockers: seq<Code>)
    ensures forall c :: c in blockers <==> HostBlocks(db, cfg, now, h, host, relay, c)
  {
    hide Aliased, Recent;
    blockers :=
      Push([], host.url.endpoint.None? || host.canonicalEndpoint != host.url.endpoint
           || !host.verified, IdentityUnverified);
    blockers := Push(blockers, Aliased(db.hosts, h, host.url), EndpointAlias);
    blockers := Push(blockers, !host.active, ProviderInactive);
    blockers := Push(blockers, !host.vpsActive, VpsInactive);
    blockers := Push(blockers, !host.healthy || !Recent(host.lastHealthAt, now, cfg.healthMaxAge), HealthUnconfirmed);
    blockers :=
      Push(blockers, host.inventoryStatus != InventoryStatus.Ready
           || !Recent(host.observedAt, now, cfg.inventoryMaxAge), InventoryUnconfirmed);
    blockers := Push(blockers, relay && !host.callbackReady, CallbackUnconfirmed);
  }

  /** `evolutionReadiness`: what still stands in the way of a host, as laid over by a draft. */
  method Readiness(db: Db, cfg: Config, now: Time, h: Id, host: Host, relay: bool, l: Listing)
    returns (blockers: seq<Code>, effective: nat)
    requires Known(db, l)
    ensures forall c :: c in blockers <==> Blocks(db, cfg, now, h, host, relay, l, c)
    ensures effective == |Used(db, h, l).groups|
  {
    hide Used, HostBlocks, Unattributed;
    blockers := HostBlockers(db, cfg, now, h, host, relay);
    var ambiguous;
    effective, ambiguous := CountHost(db, h, l);
    blockers := Push(blockers, ambiguous, OccupancyAmbiguous);
    blockers := Push(blockers, Unattributed(db, h), ProvisioningUnresolved);
  }

  /** The blockers of one link of the overlay. */
  method LinkBlockers(db: Db, cfg: Config, now: Time, product: Product, h: Id, host: Host, link: Link, l: Listing)
    returns (blockers: seq<Code>, effective: nat)
    requires Known(db, l)
    ensures forall c :: c in blockers <==> LinkBlocks(db, cfg, now, product, h, host, link, l, c)
    ensures effective == |Used(db, h, l).groups|
  {
    hide Blocks, Used;
    blockers, effective := Readiness(db, cfg, now, h, host, link.accepting && product.hubRelay, l);
    blockers := Push(blockers, !host.accepting, ProviderPaused);
    blockers := Push(blockers, host.adapter != product.adapter || host.adapter != Evolution, AdapterMismatch);
  }

  method AsChecks(codes: seq<Code>, host: Option<Id>, blocking: bool) returns (checks: seq<Check>)
    ensures forall c: Check :: c in checks <==> c.host == host && c.blocking == blocking && c.code in codes
  {
    checks := [];
    for k := 0 to |codes|
      invariant forall c: Check :: c in checks <==> c.host == host && c.blocking == blocking && c.code in codes[..k]
    {
      checks := checks + [Check(codes[k], host, blocking)];
    }
    assert codes[..|codes|] == codes;
  }

  /** The checks of one link of the overlay, and whether it has room. */
  method ReviewLink(db: Db, cfg: Config, now: Time, p: Id, links: map<Id, Link>, d: Draft, ls: Listings, h: Id)
    returns (checks: seq<Check>, vacant: bool)
    requires p in db.products && AllKnown(db, ls) && OverlaidHosts(links, d) <= db.hosts.Keys
             && h in OverlaidHosts(links, d)
    ensures forall c :: c in checks <==> c.host == Some(h) && RaisedForLink(db, cfg, now, p, links, d, ls, c)
    ensures vacant <==> Vacant(db, cfg, now, p, links, d, ls, h)
  {
    hide LinkBlocks, Used, OverlaidLink, OverlaidHost;
    var product, link := db.products[p], OverlaidLink(links, d, h);
    var provider := OverlaidHost(db.hosts[h], d, h);
    var blockers, effective := LinkBlockers(db, cfg, now, product, h, provider, link, ls[h]);
    NoneBlocks(blockers);
    var full := provider.maxInstances.Some? && effective >= provider.maxInstances.value;
    checks := AsChecks(blockers, Some(h), link.accepting);
    if full { checks := checks + [Check(CapacityFull, Some(h), false)]; }
    vacant := blockers == [] && link.accepting && !full;
    if blockers == [] { checks := checks + [Check(Verified, Some(h), false)]; }
  }

  lemma NoneBlocks(blockers: seq<Code>)
    ensures blockers == [] <==> forall c :: c !in blockers
  {
    if blockers != [] { assert blockers[0] in blockers; }
  }

  /** All links of the overlay, in the order the review walks them. */
  method ReviewLinks(db: Db, cfg: Config, now: Time, p: Id, links: map<Id, Link>, d: Draft, ls: Listings,
        order: seq<Id>) returns (checks: seq<Check>, vacant: bool)
    requires p in db.products && AllKnown(db, ls) && OverlaidHosts(links, d) <= db.hosts.Keys
    requires forall h :: h in order <==> h in OverlaidHosts(links, d)
    ensures forall c :: c in checks <==> RaisedForLink(db, cfg, now, p, links, d, ls, c)
    ensures vacant <==> exists h :: h in OverlaidHosts(links, d) && Vacant(db, cfg, now, p, links, d, ls, h)
  {
    hide LinkBlocks, Vacant, Full;
    checks, vacant := [], false;
    for k := 0 to |order|
      invariant forall c :: c in checks <==>
                              c.host.Some? && c.host.value in order[..k]
                              && RaisedForLink(db, cfg, now, p, links, d, ls, c)
      invariant vacant <==>
                  exists h ::
                    h in order[..k] && h in OverlaidHosts(links, d) && Vacant(db, cfg, now, p, links, d, ls, h)
    {
      assert order[..k + 1] == order[..k] + [order[k]];
      assert order[k] in OverlaidHosts(links, d);
      var more, room := ReviewLink(db, cfg, now, p, links, d, ls, order[k]);
      checks := checks + more;
      vacant := vacant || room;
    }
    assert order[..|order|] == order;
  }

  /** The reversal checks, with the same tables. */
  method ReviewReversal(db: Db, setup: Setup, p: Id, d: Draft, snap: Snapshot) returns (checks: seq<Check>)
    requires p in db.products && !Forward(d) && d.target.Some?
    ensures forall c :: c in checks <==> RaisedForReversal(db, setup, p, d, snap, c)
  {
    hide TargetUnfit, HasInstance, HasPending, Awaited;
    var t := d.target.value;
    var codes;
    if d.purpose == ToLegacy { codes := LegacyBlockers(db, p, t); } else { codes := DetachBlockers(db, p, t); }
    var pending :=
      PendingDeliveries(db, setup.events, setup.batches, p, LeftBehind(db, p, d.purpose == ToLegacy, t));
    codes := Push(codes, pending, DeliveryPending);
    codes := Push(codes, t !in snap.links, TargetUnavailable);
    checks := AsChecks(codes, d.target, true);
  }

  method LegacyBlockers(db: Db, p: Id, t: Id) returns (codes: seq<Code>)
    requires p in db.products
    ensures forall c :: c in codes <==>
                          (c == TargetUnavailable && TargetUnfit(db, p, t))
                          || (c == InstancesOutsideTarget && HasInstance(db, p, t, false))
                          || (c == ProvisioningPending && HasPending(db, p, t, true))
  {
    codes := Push([], TargetUnfit(db, p, t), TargetUnavailable);
    codes := Push(codes, HasInstance(db, p, t, false), InstancesOutsideTarget);
    codes := Push(codes, HasPending(db, p, t, true), ProvisioningPending);
  }

  method DetachBlockers(db: Db, p: Id, t: Id) returns (codes: seq<Code>)
    requires p in db.products
    ensures forall c :: c in codes <==>
                          (c == DefaultProvider && db.products[p].defaultHost == Some(t))
                          || (c == InstancesPresent && HasInstance(db, p, t, true))
                          || (c == ProvisioningPending && HasPending(db, p, t, false))
  {
    codes := Push([], db.products[p].defaultHost == Some(t), DefaultProvider);
    codes := Push(codes, HasInstance(db, p, t, true), InstancesPresent);
    codes := Push(codes, HasPending(db, p, t, false), ProvisioningPending);
  }

  /** Every identity the draft certifies must be a usable and unique endpoint, even on a paused link. */
  method ReviewIdentities(db: Db, d: Draft, order: seq<Id>) returns (checks: seq<Check>)
    requires d.identities.Keys <= db.hosts.Keys && forall h :: h in order <==> h in d.identities
    ensures forall c :: c in checks <==> RaisedForIdentity(db, d, c)
  {
    hide Aliased;
    checks := [];
    for k := 0 to |order|
      invariant forall c :: c in checks <==> RaisedForIdentity(db, d, c) && c.host.value in order[..k]
    {
      assert order[k] in d.identities;
      var codes := Push([], db.hosts[order[k]].url.endpoint.None?, IdentityUnverified);
      codes := Push(codes, Aliased(db.hosts, order[k], db.hosts[order[k]].url), EndpointAlias);
      var more := AsChecks(codes, Some(order[k]), true);
      checks := checks + more;
      assert order[..k + 1] == order[..k] + [order[k]];
    }
    assert order[..|order|] == order;
  }

  /** A limit protects other products sharing the host: it needs their products confirmed, and a host that counts. */
  method ReviewLimits(db: Db, cfg: Config, now: Time, d: Draft, snap: Snapshot, ls: Listings, order: seq<Id>)
    returns (checks: seq<Check>)
    requires AllKnown(db, ls) && d.limits.Keys <= db.hosts.Keys && d.limits.Keys <= snap.hosts.Keys
    requires forall h :: h in order <==> h in d.limits
    ensures forall c :: c in checks <==> RaisedForLimit(db, cfg, now, d, snap, ls, c)
  {
    hide Blocks, LimitUnconfirmed, OverlaidHost, Used;
    checks := [];
    for k := 0 to |order|
      invariant forall c :: c in checks <==> RaisedForLimit(db, cfg, now, d, snap, ls, c) && c.host.value in order[..k]
    {
      var h := order[k];
      assert h in d.limits;
      var codes := Push([], LimitUnconfirmed(d, snap, h), SharedLimitConfirmation);
      if d.limits[h].maxInstances.Some? {
        var blockers,
        effective := Readiness(db, cfg, now, h, OverlaidHost(db.hosts[h], d.(limits := map[]), h), false, ls[h]);
        codes := codes + blockers;
      }
      var more := AsChecks(codes, Some(h), true);
      checks := checks + more;
      assert order[..k + 1] == order[..k] + [h];
    }
    assert order[..|order|] == order;
  }

  /** Whether any check blocks. */
  method AnyBlocking(checks: seq<Check>) returns (any: bool)
    ensures any <==> exists c :: c in checks && c.blocking
  {
    any := false;
    for k := 0 to |checks|
      invariant any <==> exists c :: c in checks[..k] && c.blocking
    {
      if checks[k].blocking { any := true; }
      assert checks[..k + 1] == checks[..k] + [checks[k]];
    }
    assert checks[..|checks|] == checks;
  }

  /** What the blocking checks ask for. */
  method RequiredActions(db: Db, p: Id, snap: Snapshot, checks: seq<Check>) returns (actions: set<Action>)
    ensures forall a :: a in actions <==> exists c :: c in checks && c.blocking && a == ActionFor(db, p, snap, c)
  {
    hide ActionFor;
    actions := {};
    for k := 0 to |checks|
      invariant forall a :: a in actions <==>
                              exists c :: c in checks[..k] && c.blocking && a == ActionFor(db, p, snap, c)
    {
      assert checks[..k + 1] == checks[..k] + [checks[k]];
      if checks[k].blocking { actions := actions + {ActionFor(db, p, snap, checks[k])}; }
    }
    assert checks[..|checks|] == checks;
  }

  /** The general conditions, none of which names a host. */
  method ReviewSetup(db: Db, cfg: Config, setup: Setup, p: Id) returns (checks: seq<Check>)
    requires p in db.products
    ensures forall c :: c in checks <==> RaisedGenerally(db, cfg, setup, p, c)
  {
    var codes := Push([], !cfg.allocationEnabled, DistributionDisabled);
    codes := Push(codes, !setup.consolidated, DatabaseNotConsolidated);
    codes := Push(codes, !setup.writers, WritersUnconfirmed);
    codes := Push(codes, !db.products[p].active, ProductInactive);
    checks := AsChecks(codes, None, true);
  }

  /** The orders in which the review walks links, identities and limits. */
  datatype Walk = Walk(links: seq<Id>, identities: seq<Id>, limits: seq<Id>)

  ghost predicate Walks(w: Walk, d: Draft, snap: Snapshot) {
    && (forall h :: h in w.links <==> h in OverlaidHosts(snap.links, d))
    && (forall h :: h in w.identities <==> h in d.identities)
    && (forall h :: h in w.limits <==> h in d.limits)
  }

  /** The destination of a single-destination draft, every link, and whether any link has room. */
  method ReviewDestinations(db: Db, cfg: Config, now: Time, p: Id, links: map<Id, Link>, d: Draft, ls: Listings,
        order: seq<Id>) returns (checks: seq<Check>)
    requires p in db.products && AllKnown(db, ls) && WellFormed(d) && OverlaidHosts(links, d) <= db.hosts.Keys
    requires forall h :: h in order <==> h in OverlaidHosts(links, d)
    ensures forall c :: c in checks <==> RaisedForLinks(db, cfg, now, p, links, d, ls, c)
  {
    hide RaisedForLink, Vacant, OverlaidHosts;
    var vacant;
    checks, vacant := ReviewLinks(db, cfg, now, p, links, d, ls, order);
    if d.purpose == ToSingle && d.target.value !in OverlaidHosts(links, d) {
      checks := [Check(TargetUnavailable, d.target, true)] + checks;
    }
    if !vacant { checks := checks + [Check(NoCapacity, None, true)]; }
  }

  method EvaluateChange(db: Db, cfg: Config, setup: Setup, now: Time, p: Id, d: Draft, snap: Snapshot, ls: Listings,
        w: Walk)
    returns (checks: seq<Check>, actions: set<Action>, ready: bool)
    requires Reviewable(db, p, d, snap, ls) && Walks(w, d, snap)
    ensures forall c :: c in checks <==> Raised(db, cfg, setup, now, p, d, snap, ls, c)
    ensures forall a :: a in actions <==> exists c :: c in checks && c.blocking && a == ActionFor(db, p, snap, c)
    ensures ready <==> ReviewedReady(db, cfg, setup, now, p, d, snap, ls)
  {
    hide ActionFor, SnapshotOf, RaisedForReversal, RaisedForLinks, RaisedForIdentity, RaisedForLimit, RaisedGenerally,
         OverlaidHosts, Mentioned, Known;
    checks := [];
    if SnapshotOf(db, p, d) != Some(snap) { checks := [Check(ConfigurationChanged, None, true)]; }
    if Forward(d) {
      ForwardHosts(db, p, d, snap);
      var general := ReviewSetup(db, cfg, setup, p);
      var destinations := ReviewDestinations(db, cfg, now, p, snap.links, d, ls, w.links);
      var identities := ReviewIdentities(db, d, w.identities);
      var limits := ReviewLimits(db, cfg, now, d, snap, ls, w.limits);
      checks := checks + general + destinations + identities + limits;
    } else {
      var reversal := ReviewReversal(db, setup, p, d, snap);
      checks := checks + reversal;
    }
    actions := RequiredActions(db, p, snap, checks);
    var blocked := AnyBlocking(checks);
    ready := !blocked;
  }

  lemma ForwardHosts(db: Db, p: Id, d: Draft, snap: Snapshot)
    requires Mentioned(db, p, d) + snap.links.Keys <= db.hosts.Keys
    ensures OverlaidHosts(snap.links, d) <= db.hosts.Keys && d.identities.Keys <= db.hosts.Keys
            && d.limits.Keys <= db.hosts.Keys
  {}

  // ----- the apply transaction's writes -----

  ghost predicate ListsOnce(order: seq<Id>, keys: set<Id>) {
    (forall h :: h in order <==> h in keys) && (forall j, k :: 0 <= j < k < |order| ==> order[j] != order[k])
  }

  lemma NextIsNew(order: seq<Id>, keys: set<Id>, k: nat)
    requires ListsOnce(order, keys) && k < |order|
    ensures order[k] in keys && order[k] !in order[..k] && forall h ::
              h in order[..k + 1] <==> h in order[..k] || h == order[k]
  {
    assert order[..k + 1] == order[..k] + [order[k]];
  }

  method WriteLimits(store: Store, d: Draft, order: seq<Id>)
    requires ListsOnce(order, d.limits.Keys) && d.limits.Keys <= store.hosts.Keys
    modifies store`hosts
    ensures store.hosts == map h | h in old(store.hosts) :: Limited(old(store.hosts)[h], d, h)
  {
    ghost var was := store.hosts;
    for k := 0 to |order|
      invariant store.hosts == map h | h in was :: if h in order[..k] then Limited(was[h], d, h) else was[h]
    {
      NextIsNew(order, d.limits.Keys, k);
      var h := order[k];
      store.hosts :=
        store.hosts[h := store.hosts[h].(maxInstances := d.limits[h].maxInstances,
                                                         configRevision := store.hosts[h].configRevision + 1)];
    }
    assert order[..|order|] == order;
  }

  method WriteIdentities(store: Store, d: Draft, order: seq<Id>)
    requires ListsOnce(order, d.identities.Keys) && d.identities.Keys <= store.hosts.Keys
    modifies store`hosts
    ensures store.hosts == map h | h in old(store.hosts) :: if h in d.identities then Identified(old(store.hosts)[h])
                                                            else old(store.hosts)[h]
  {
    ghost var was := store.hosts;
    for k := 0 to |order|
      invariant store.hosts == map h | h in was :: if h in order[..k] then Identified(was[h]) else was[h]
    {
      NextIsNew(order, d.identities.Keys, k);
      var host := store.hosts[order[k]];
      store.hosts :=
        store.hosts[order[k] := host.(verified := true, canonicalEndpoint := host.url.endpoint,
            configRevision := host.configRevision + 1)];
    }
    assert order[..|order|] == order;
  }

  method WriteLinks(store: Store, p: Id, d: Draft, order: seq<Id>)
    requires ListsOnce(order, d.links.Keys)
    modifies store`links
    ensures store.links == UpsertedLinks(old(store.links), p, d)
  {
    ghost var was := store.links;
    ghost var all := UpsertedLinks(was, p, d);
    for k := 0 to |order|
      invariant forall key :: key in store.links <==> key in was || (key.0 == p && key.1 in order[..k])
      invariant forall key :: key in store.links ==>
                                store.links[key] == if key.0 == p && key.1 in order[..k] then all[key] else was[key]
    {
      NextIsNew(order, d.links.Keys, k);
      var h := order[k];
      var edit := d.links[h];
      if (p, h) in store.links {
        var link := store.links[(p, h)];
        store.links :=
          store.links[(p, h) := Link(OrKeep(edit.accepting, link.accepting), OrKeep(edit.priority, link.priority),
                                     link.revision + 1)];
      } else {
        store.links := store.links[(p, h) := Link(OrKeep(edit.accepting, false), OrKeep(edit.priority, 0), 0)];
      }
    }
    assert order[..|order|] == order;
  }

  /** All other links stop accepting, the target starts. */
  method WriteSingle(store: Store, p: Id, target: Id)
    requires (p, target) in store.links
    modifies store`links
    ensures store.links == Narrowed(old(store.links), p, target)
  {
    store.links := map key | key in store.links ::
      if key.0 == p && key.1 != target
        then store.links[key].(accepting := false, revision := store.links[key].revision + 1) else store.links[key];
    var link := store.links[(p, target)];
    store.links := store.links[(p, target) := link.(accepting := true, revision := link.revision + 1)];
  }

  lemma UpsertKeepsLinks(links: map<(Id, Id), Link>, p: Id, d: Draft)
    ensures links.Keys <= UpsertedLinks(links, p, d).Keys
  {}

  lemma HostsComposed(db: Db, hosts: map<Id, Host>, d: Draft)
    requires var limited := map h | h in db.hosts :: Limited(db.hosts[h], d, h);
             hosts == map h | h in limited :: if h in d.identities then Identified(limited[h]) else limited[h]
    ensures hosts == WrittenHosts(db, d)
  {}

  datatype WriteOrder = WriteOrder(limits: seq<Id>, identities: seq<Id>, links: seq<Id>)

  ghost predicate Orders(o: WriteOrder, d: Draft) {
    ListsOnce(o.limits, d.limits.Keys) && ListsOnce(o.identities, d.identities.Keys) && ListsOnce(o.links, d.links.Keys)
  }

  method ApplyWrites(store: Store, p: Id, d: Draft, o: WriteOrder)
    requires p in store.products && WellFormed(d) && Forward(d) && Orders(o, d)
    requires d.limits.Keys + d.identities.Keys <= store.hosts.Keys
    requires d.purpose == ToSingle ==> (p, d.target.value) in store.links
    modifies store
    ensures store.Image() == Configured(old(store.Image()), p, d)
  {
    hide UpsertedLinks, Narrowed, WrittenHosts;
    ghost var begun := store.Image();
    WriteLimits(store, d, o.limits);
    WriteIdentities(store, d, o.identities);
    HostsComposed(begun, store.hosts, d);
    UpsertKeepsLinks(store.links, p, d);
    WriteLinks(store, p, d, o.links);
    if d.purpose == ToSingle { WriteSingle(store, p, d.target.value); }
    store.products :=
      store.products[p := store.products[p].(mode := Capacity, revision := store.products[p].revision + 1)];
  }
}
