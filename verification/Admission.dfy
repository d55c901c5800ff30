/** The admission predicate: whether a new session of a product may be placed on a host. */
module Admission {
  import opened Basics
  import opened Occupancy
  import opened Tables

  datatype Config = Config(allocationEnabled: bool, healthMaxAge: nat, inventoryMaxAge: nat, recoveryInterval: nat)

  /** Why a transaction was rolled back: the HTTP status family the source throws. */
  datatype Refusal = BadRequest | NotFound | Unavailable | Conflict | Timeout | Internal

  /** A transaction commits a new state or leaves none. */
  datatype Outcome<+T> = Done(db: Db, value: T) | Refused(why: Refusal)

  predicate Recent(at: Option<Time>, now: Time, maxAge: nat) {
    at.Some? && now - at.value <= maxAge
  }

  predicate Fresh(host: Host, cfg: Config, now: Time) {
    && host.healthy
    && Recent(host.lastHealthAt, now, cfg.healthMaxAge)
    && host.inventoryStatus == Ready
    && Recent(host.observedAt, now, cfg.inventoryMaxAge)
  }

  /** Another registration of the same installation. */
  predicate Aliased(hosts: map<Id, Host>, h: Id, url: Url) {
    url.endpoint.Some? && exists g :: g in hosts && g != h && hosts[g].url.endpoint == url.endpoint
  }

  predicate ControlledIdentity(hosts: map<Id, Host>, h: Id, host: Host) {
    && host.url.endpoint.Some?
    && host.canonicalEndpoint == host.url.endpoint
    && host.verified
    && !Aliased(hosts, h, host.url)
  }

  predicate OverLimit(host: Host, effective: nat, own: bool) {
    host.maxInstances.Some? && effective + (if own then 0 else 1) > host.maxInstances.value
  }

  function Admit(db: Db, cfg: Config, now: Time, p: Id, h: Id, own: bool, l: Listing): Outcome<()>
    requires Known(db, l)
  {
    if p !in db.products || h !in db.hosts then Refused(NotFound)
    else
      var product, host := db.products[p], db.hosts[h];
      var capacity := product.mode == Capacity;
      if !product.active then Refused(BadRequest)
      else if !capacity && product.defaultHost.None? then Refused(BadRequest)
      else if !capacity && product.defaultHost != Some(h) then Refused(Unavailable)
      else if capacity && !cfg.allocationEnabled then Refused(Unavailable)
      else if !host.active then Refused(if capacity then Unavailable else NotFound)
      else if host.adapter != product.adapter then Refused(BadRequest)
      else
        var linked := if capacity then db else EnsureLink(db, p, h, true);
        if !host.accepting || (p, h) !in linked.links || !linked.links[(p, h)].accepting then Refused(Unavailable)
        else if (capacity || host.maxInstances.Some?) && !WithinControls(db, cfg, now, product, h, own, l)
               then Refused(Unavailable)
        else Done(linked, ())
  }

  /** The controls of a host with a limit, or of any host a distributed product may use. */
  predicate WithinControls(db: Db, cfg: Config, now: Time, product: Product, h: Id, own: bool, l: Listing)
    requires Known(db, l) && h in db.hosts
  {
    var host := db.hosts[h];
    && ControlledIdentity(db.hosts, h, host)
    && host.vpsActive && Fresh(host, cfg, now)
    && (product.mode == Capacity && product.hubRelay ==> host.callbackReady)
    && var used := Used(db, h, l);
       !used.ambiguous && !OverLimit(host, |used.groups|, own)
  }

  /** What admission promises about a limited host: the count was trustworthy and there is room. */
  lemma AdmittedWithinLimit(db: Db, cfg: Config, now: Time, p: Id, h: Id, own: bool, l: Listing)
    requires Lists(db, h, l) && Known(db, l)
    requires Admit(db, cfg, now, p, h, own, l).Done?
    requires db.hosts[h].maxInstances.Some?
    ensures |Occupied(db, h)| + (if own then 0 else 1) <= db.hosts[h].maxInstances.value
  {
    UsedCountsOccupied(db, h, l);
  }
}
