/**
 What a review of a forward change asks for, and what its application writes, told from the tables
 and the draft: a second account of both, in which none of the review's own tests occurs.
 */
module ReviewMeaning {
  import opened Basics
  import opened Occupancy
  import opened Tables
  import opened Admission
  import opened Protocol
  import opened Deliveries
  import opened Outcomes
  import opened Review

  // ----- who uses a host -----

  /** A product that defaults to the host, links to it, or is about to. */
  predicate Uses(db: Db, p: Id, d: Draft, q: Id, h: Id) {
    (q in db.products && (db.products[q].defaultHost == Some(h) || (q, h) in db.links)) || (q == p && h in d.links)
  }

  ghost predicate Shared(db: Db, p: Id, d: Draft, h: Id) {
    exists q, r :: q != r && Uses(db, p, d, q, h) && Uses(db, p, d, r, h)
  }

  /**
   The draft says that it knows: the host's revision, the limit to come, and exactly the
   products that use the host.
   */
  ghost predicate Acknowledged(db: Db, p: Id, d: Draft, h: Id)
    requires h in d.limits && h in db.hosts
  {
    && h in d.shared && d.shared[h].expected == db.hosts[h].configRevision
    && d.shared[h].maxInstances == d.limits[h].maxInstances
    && forall q :: q in d.shared[h].products <==> Uses(db, p, d, q, h)
  }

  lemma UsersAreMembers(db: Db, p: Id, d: Draft, h: Id)
    requires forall q :: (q, h) in db.links ==> q in db.products
    ensures forall q :: q in MembersOf(db, p, d, h) <==> Uses(db, p, d, q, h)
    ensures |MembersOf(db, p, d, h)| > 1 <==> Shared(db, p, d, h)
  {
    var members := MembersOf(db, p, d, h);
    assert forall q :: q in members <==> Uses(db, p, d, q, h);
    TwoOrMore(members);
    if |members| > 1 { var q, r :| q in members && r in members && q != r; }
  }

  lemma TwoOrMore<T>(s: set<T>)
    ensures |s| > 1 <==> exists x, y :: x in s && y in s && x != y
  {
    if |s| > 1 {
      var x :| x in s;
      assert |s - {x}| > 0;
      var y :| y in s - {x};
    }
    if x, y :| x in s && y in s && x != y { SubsetSize({x, y}, s); }
  }

  /** With the snapshot current, a new limit for a host that two products use is held up exactly until acknowledged. */
  lemma SharedLimitAsked(db: Db, cfg: Config, setup: Setup, now: Time, p: Id, d: Draft, snap: Snapshot, ls: Listings,
        h: Id)
    requires Reviewable(db, p, d, snap, ls) && SnapshotOf(db, p, d) == Some(snap)
    requires forall key :: key in db.links ==> key.0 in db.products
    ensures Raised(db, cfg, setup, now, p, d, snap, ls, Check(SharedLimitConfirmation, Some(h), true)) <==>
              && Forward(d) && h in d.limits && d.limits[h].maxInstances != db.hosts[h].maxInstances
              && Shared(db, p, d, h) && !Acknowledged(db, p, d, h)
  {
    hide LimitUnconfirmed, Raised, Acknowledged, Shared, SnapshotOf, Reviewable;
    AskedForLimitsOnly(db, cfg, setup, now, p, d, snap, ls, h);
    if h in d.limits {
      ReviewableFacts(db, p, d, snap, ls);
      UnacknowledgedExactly(db, p, d, snap, h);
    }
  }

  lemma UnacknowledgedExactly(db: Db, p: Id, d: Draft, snap: Snapshot, h: Id)
    requires p in db.products && SnapshotOf(db, p, d) == Some(snap) && h in d.limits && h in db.hosts
    requires forall key :: key in db.links ==> key.0 in db.products
    ensures h in snap.hosts
    ensures LimitUnconfirmed(d, snap, h) <==>
              d.limits[h].maxInstances != db.hosts[h].maxInstances && Shared(db, p, d, h) && !Acknowledged(db, p, d, h)
  {
    hide Shared, Uses, MembersOf;
    UsersAreMembers(db, p, d, h);
    assert snap.hosts[h] == HostFacts(db.hosts[h].configRevision, db.hosts[h].maxInstances, db.hosts[h].verified,
                                      MembersOf(db, p, d, h));
  }

  lemma AskedForLimitsOnly(db: Db, cfg: Config, setup: Setup, now: Time, p: Id, d: Draft, snap: Snapshot, ls: Listings,
        h: Id)
    requires Reviewable(db, p, d, snap, ls)
    ensures h in d.limits ==> h in db.hosts && h in snap.hosts
    ensures Raised(db, cfg, setup, now, p, d, snap, ls, Check(SharedLimitConfirmation, Some(h), true)) <==>
              Forward(d) && h in d.limits && LimitUnconfirmed(d, snap, h)
  {
    hide Used, Known, Aliased, Unattributed, Recent, LimitUnconfirmed, OwnHosts, HasInstance, HasPending,
         DeliveriesPending, TargetUnfit, SnapshotOf, Vacant;
  }

  /** So a ready review of such a change has been told exactly whom it affects. */
  lemma SharedLimitConfirmed(db: Db, cfg: Config, setup: Setup, now: Time, p: Id, d: Draft, snap: Snapshot,
        ls: Listings, h: Id)
    requires Reviewable(db, p, d, snap, ls) && Forward(d) && ReviewedReady(db, cfg, setup, now, p, d, snap, ls)
    requires forall key :: key in db.links ==> key.0 in db.products
    requires h in d.limits && d.limits[h].maxInstances != db.hosts[h].maxInstances && Shared(db, p, d, h)
    ensures Acknowledged(db, p, d, h)
  {
    hide Raised, Acknowledged, Shared, SnapshotOf, Reviewable;
    ReadyIsCurrent(db, cfg, setup, now, p, d, snap, ls);
    SharedLimitAsked(db, cfg, setup, now, p, d, snap, ls, h);
  }

  // ----- what stands in the way of a host -----

  /** Its identity is settled, by the host's own columns or by the draft's certification of them. */
  predicate Certified(db: Db, d: Draft, h: Id)
    requires h in db.hosts
  {
    var host := db.hosts[h];
    host.url.endpoint.Some?
    && (h in d.identities || (host.verified && host.canonicalEndpoint == host.url.endpoint))
    && OnlyInstallation(db, h)
  }

  /** Every open row there belongs to its own product's link. */
  ghost predicate Attributed(db: Db, h: Id) {
    forall r :: OpenOn(db, r, h) ==> db.rows[r].link == Some((db.rows[r].product, h))
  }

  /** A host one could count on, whatever its room. */
  ghost predicate Sound(db: Db, cfg: Config, now: Time, d: Draft, h: Id, l: Listing)
    requires h in db.hosts && Known(db, l)
  {
    && Certified(db, d, h) && db.hosts[h].active && db.hosts[h].vpsActive && KnownOfLate(db.hosts[h], cfg, now)
    && !Used(db, h, l).ambiguous && Attributed(db, h)
  }

  /** The link as the draft has it: whether it accepts. */
  predicate Opened(db: Db, p: Id, d: Draft, h: Id) {
    if d.purpose == ToSingle then d.target == Some(h)
    else if h in d.links && d.links[h].accepting.Some? then d.links[h].accepting.value
    else (p, h) in db.links && db.links[(p, h)].accepting
  }

  /** A destination of the product, once the draft is applied. */
  predicate Destination(db: Db, p: Id, d: Draft, h: Id) {
    (p, h) in db.links || h in d.links
  }

  /** Nothing stands in the way of using the host for the product. */
  ghost predicate Usable(db: Db, cfg: Config, now: Time, p: Id, d: Draft, h: Id, l: Listing)
    requires p in db.products && h in db.hosts && Known(db, l)
  {
    && Sound(db, cfg, now, d, h, l)
    && db.hosts[h].accepting && db.hosts[h].adapter == Evolution == db.products[p].adapter
    && (Opened(db, p, d, h) && db.products[p].hubRelay ==> db.hosts[h].callbackReady)
  }

  /** And one more session fits under the limit the draft gives it. */
  ghost predicate HasRoom(db: Db, d: Draft, h: Id)
    requires h in db.hosts
  {
    var limit := if h in d.limits then d.limits[h].maxInstances else db.hosts[h].maxInstances;
    limit.Some? ==> |Occupied(db, h)| < limit.value
  }

  lemma BlockersExactly(db: Db, cfg: Config, now: Time, d: Draft, h: Id, relay: bool, l: Listing, limits: Draft)
    requires h in db.hosts && Known(db, l) && limits.identities == d.identities
    ensures (forall c :: !Blocks(db, cfg, now, h, OverlaidHost(db.hosts[h], limits, h), relay, l, c)) <==>
              Sound(db, cfg, now, d, h, l) && (relay ==> db.hosts[h].callbackReady)
  {
    hide Used, HostBlocks, Known;
    var host := OverlaidHost(db.hosts[h], limits, h);
    NoHostBlockers(db, cfg, now, h, host, relay);
    HostExactly(db, cfg, now, d, h, limits);
    if forall c :: !Blocks(db, cfg, now, h, host, relay, l, c) {
      forall c ensures !HostBlocks(db, cfg, now, h, host, relay, c) {
        assert !Blocks(db, cfg, now, h, host, relay, l, c);
      }
      assert !Blocks(db, cfg, now, h, host, relay, l, OccupancyAmbiguous);
      assert !Blocks(db, cfg, now, h, host, relay, l, ProvisioningUnresolved);
    }
  }

  lemma HostExactly(db: Db, cfg: Config, now: Time, d: Draft, h: Id, limits: Draft)
    requires h in db.hosts && limits.identities == d.identities
    ensures var host := OverlaidHost(db.hosts[h], limits, h);
            && host.url == db.hosts[h].url
            && (Certified(db, d, h) <==>
                  host.url.endpoint.Some? && host.canonicalEndpoint == host.url.endpoint && host.verified
                  && !Aliased(db.hosts, h, host.url))
            && host.active == db.hosts[h].active && host.vpsActive == db.hosts[h].vpsActive
            && host.callbackReady == db.hosts[h].callbackReady && host.accepting == db.hosts[h].accepting
            && host.adapter == db.hosts[h].adapter
            && (Fresh(host, cfg, now) <==> KnownOfLate(db.hosts[h], cfg, now))
            && host.maxInstances == if h in limits.limits then limits.limits[h].maxInstances
                                    else db.hosts[h].maxInstances
  {
    assert db.hosts[h].url.endpoint.Some? ==>
             (Aliased(db.hosts, h, db.hosts[h].url) <==> !OnlyInstallation(db, h));
  }

  lemma AttributedExactly(db: Db, h: Id)
    ensures Attributed(db, h) <==> !Unattributed(db, h)
  {}

  lemma OpenedExactly(db: Db, p: Id, d: Draft, h: Id)
    ensures OverlaidLink(OwnLinks(db, p), d, h).accepting <==> Opened(db, p, d, h)
    ensures h in OverlaidHosts(OwnLinks(db, p), d) <==> Destination(db, p, d, h)
  {
    assert (p, h) in db.links <==> h in OwnHosts(db, p) by {
      if (p, h) in db.links { assert (p, h).1 in OwnHosts(db, p); }
    }
  }

  lemma LinkBlockersExactly(db: Db, cfg: Config, now: Time, p: Id, d: Draft, h: Id, l: Listing)
    requires p in db.products && h in db.hosts && Known(db, l)
    ensures (forall c :: !LinkBlocks(db, cfg, now, db.products[p], h, OverlaidHost(db.hosts[h], d, h),
                                     OverlaidLink(OwnLinks(db, p), d, h), l, c)) <==>
              Usable(db, cfg, now, p, d, h, l)
  {
    hide Used, LinkBlocks, OverlaidLink, OverlaidHost, Known, Certified, KnownOfLate, Fresh, Unattributed, Attributed,
         Opened, Aliased;
    NoBlockers(db, cfg, now, db.products[p], h, OverlaidHost(db.hosts[h], d, h), OverlaidLink(OwnLinks(db, p), d, h),
               l);
    HostExactly(db, cfg, now, d, h, d);
    AttributedExactly(db, h);
    OpenedExactly(db, p, d, h);
  }

  /** Where a destination of the product stands open, usable and with room, however its rows are listed. */
  ghost predicate Vacancy(db: Db, cfg: Config, now: Time, p: Id, d: Draft, h: Id, l: Listing)
    requires p in db.products && h in db.hosts && Known(db, l)
  {
    Destination(db, p, d, h) && Opened(db, p, d, h) && Usable(db, cfg, now, p, d, h, l) && HasRoom(db, d, h)
  }

  lemma VacantExactly(db: Db, cfg: Config, now: Time, p: Id, d: Draft, ls: Listings, h: Id)
    requires p in db.products && h in db.hosts && AllKnown(db, ls) && Lists(db, h, ls[h])
    ensures h in OverlaidHosts(OwnLinks(db, p), d) && Vacant(db, cfg, now, p, OwnLinks(db, p), d, ls, h) <==>
              Vacancy(db, cfg, now, p, d, h, ls[h])
  {
    hide Used, LinkBlocks, OverlaidLink, OverlaidHost, OverlaidHosts, Known, Sound, Opened, Destination, Lists,
         Occupied;
    LinkBlockersExactly(db, cfg, now, p, d, h, ls[h]);
    OpenedExactly(db, p, d, h);
    HostExactly(db, cfg, now, d, h, d);
    if !Used(db, h, ls[h]).ambiguous { UsedCountsOccupied(db, h, ls[h]); }
    if Usable(db, cfg, now, p, d, h, ls[h]) { UsableCounts(db, cfg, now, p, d, h, ls[h]); }
  }

  lemma UsableCounts(db: Db, cfg: Config, now: Time, p: Id, d: Draft, h: Id, l: Listing)
    requires p in db.products && h in db.hosts && Known(db, l) && Usable(db, cfg, now, p, d, h, l)
    ensures !Used(db, h, l).ambiguous
  {
    hide Used;
  }

  // ----- the whole review -----

  ghost predicate ListedAll(db: Db, ls: Listings) {
    forall h :: h in db.hosts ==> h in ls && Known(db, ls[h]) && Lists(db, h, ls[h])
  }

  ghost predicate SetupFit(db: Db, cfg: Config, setup: Setup, p: Id)
    requires p in db.products
  {
    cfg.allocationEnabled && setup.consolidated && setup.writers && db.products[p].active
  }

  /** The target is a destination, whatever stands open is usable, and something has room. */
  ghost predicate LinksFit(db: Db, cfg: Config, now: Time, p: Id, d: Draft, ls: Listings)
    requires p in db.products && ListedAll(db, ls)
  {
    && (d.purpose == ToSingle ==> d.target.Some? && Destination(db, p, d, d.target.value))
    && (forall h :: h in db.hosts && Destination(db, p, d, h) && Opened(db, p, d, h) ==>
                      Usable(db, cfg, now, p, d, h, ls[h]))
    && (exists h :: h in db.hosts && Vacancy(db, cfg, now, p, d, h, ls[h]))
  }

  /** An identity is only certified of a usable and unique endpoint, even of a destination that stays closed. */
  ghost predicate IdentitiesFit(db: Db, d: Draft) {
    forall h :: h in d.identities && h in db.hosts ==> db.hosts[h].url.endpoint.Some? && OnlyInstallation(db, h)
  }

  /** A limit is acknowledged where others share the host, and only given to a host that can be counted. */
  ghost predicate LimitsFit(db: Db, cfg: Config, now: Time, p: Id, d: Draft, ls: Listings)
    requires ListedAll(db, ls)
  {
    forall h :: h in d.limits && h in db.hosts ==>
                  && (d.limits[h].maxInstances != db.hosts[h].maxInstances && Shared(db, p, d, h) ==>
                        Acknowledged(db, p, d, h))
                  && (d.limits[h].maxInstances.Some? ==> Sound(db, cfg, now, d, h, ls[h]))
  }

  lemma SetupExactly(db: Db, cfg: Config, setup: Setup, p: Id)
    requires p in db.products
    ensures (forall c :: !RaisedGenerally(db, cfg, setup, p, c)) <==> SetupFit(db, cfg, setup, p)
  {
    if !SetupFit(db, cfg, setup, p) {
      var code := if !cfg.allocationEnabled then DistributionDisabled
                  else if !setup.consolidated then DatabaseNotConsolidated
                  else if !setup.writers then WritersUnconfirmed else ProductInactive;
      assert RaisedGenerally(db, cfg, setup, p, Check(code, None, true));
    }
  }

  lemma LinksExactly(db: Db, cfg: Config, now: Time, p: Id, d: Draft, ls: Listings)
    requires p in db.products && ListedAll(db, ls) && WellFormed(d)
             && OverlaidHosts(OwnLinks(db, p), d) <= db.hosts.Keys
    ensures (forall c :: RaisedForLinks(db, cfg, now, p, OwnLinks(db, p), d, ls, c) ==> !c.blocking) <==>
              LinksFit(db, cfg, now, p, d, ls)
  {
    hide Used, LinkBlocks, OverlaidLink, OverlaidHost, OverlaidHosts, Known, Usable, Opened, Destination, Lists,
         Vacant, Vacancy, Full, OwnLinks;
    var links := OwnLinks(db, p);
    forall h | h in db.hosts
      ensures h in OverlaidHosts(links, d) <==> Destination(db, p, d, h)
      ensures h in OverlaidHosts(links, d) && Vacant(db, cfg, now, p, links, d, ls, h) <==>
                Vacancy(db, cfg, now, p, d, h, ls[h])
    {
      OpenedExactly(db, p, d, h);
      VacantExactly(db, cfg, now, p, d, ls, h);
    }
    if forall c :: RaisedForLinks(db, cfg, now, p, links, d, ls, c) ==> !c.blocking {
      NothingBlocking(db, cfg, now, p, d, ls);
    }
    if LinksFit(db, cfg, now, p, d, ls) {
      forall c | RaisedForLinks(db, cfg, now, p, links, d, ls, c) ensures !c.blocking {
        FitRaisesNothing(db, cfg, now, p, d, ls, c);
      }
    }
  }

  lemma FitRaisesNothing(db: Db, cfg: Config, now: Time, p: Id, d: Draft, ls: Listings, c: Check)
    requires p in db.products && ListedAll(db, ls) && WellFormed(d)
             && OverlaidHosts(OwnLinks(db, p), d) <= db.hosts.Keys
    requires forall h :: h in db.hosts ==> (h in OverlaidHosts(OwnLinks(db, p), d) <==> Destination(db, p, d, h))
    requires forall h :: h in db.hosts ==>
                           (h in OverlaidHosts(OwnLinks(db, p), d) && Vacant(db, cfg, now, p, OwnLinks(db, p), d, ls, h)
                            <==> Vacancy(db, cfg, now, p, d, h, ls[h]))
    requires LinksFit(db, cfg, now, p, d, ls) && RaisedForLinks(db, cfg, now, p, OwnLinks(db, p), d, ls, c)
    ensures !c.blocking
  {
    hide Used, LinkBlocks, OverlaidLink, OverlaidHost, OverlaidHosts, Known, Usable, Opened, Destination, Lists,
         Vacant, Vacancy, Full, OwnLinks;
    if d.purpose == ToSingle { OpenedExactly(db, p, d, d.target.value); }
    if c.host.Some? && c.host.value in OverlaidHosts(OwnLinks(db, p), d) {
      OpenedExactly(db, p, d, c.host.value);
      LinkBlockersExactly(db, cfg, now, p, d, c.host.value, ls[c.host.value]);
    }
  }

  lemma NothingBlocking(db: Db, cfg: Config, now: Time, p: Id, d: Draft, ls: Listings)
    requires p in db.products && ListedAll(db, ls) && WellFormed(d)
             && OverlaidHosts(OwnLinks(db, p), d) <= db.hosts.Keys
    requires forall h :: h in db.hosts ==> (h in OverlaidHosts(OwnLinks(db, p), d) <==> Destination(db, p, d, h))
    requires forall h :: h in db.hosts ==>
                           (h in OverlaidHosts(OwnLinks(db, p), d) && Vacant(db, cfg, now, p, OwnLinks(db, p), d, ls, h)
                            <==> Vacancy(db, cfg, now, p, d, h, ls[h]))
    requires forall c :: RaisedForLinks(db, cfg, now, p, OwnLinks(db, p), d, ls, c) ==> !c.blocking
    ensures LinksFit(db, cfg, now, p, d, ls)
  {
    hide Used, LinkBlocks, OverlaidLink, OverlaidHost, OverlaidHosts, Known, Usable, Opened, Destination, Lists,
         Vacant, Vacancy, Full, OwnLinks;
    assert !RaisedForLinks(db, cfg, now, p, OwnLinks(db, p), d, ls, Check(NoCapacity, None, true));
    if d.purpose == ToSingle {
      assert !RaisedForLinks(db, cfg, now, p, OwnLinks(db, p), d, ls, Check(TargetUnavailable, d.target, true));
      OpenedExactly(db, p, d, d.target.value);
    }
    forall h | h in db.hosts && Destination(db, p, d, h) && Opened(db, p, d, h)
      ensures Usable(db, cfg, now, p, d, h, ls[h])
    {
      OpenedExactly(db, p, d, h);
      LinkBlockersExactly(db, cfg, now, p, d, h, ls[h]);
      forall c ensures !LinkBlocks(db, cfg, now, db.products[p], h, OverlaidHost(db.hosts[h], d, h),
                                   OverlaidLink(OwnLinks(db, p), d, h), ls[h], c)
      {
        assert !RaisedForLinks(db, cfg, now, p, OwnLinks(db, p), d, ls, Check(c, Some(h), true));
      }
    }
  }

  lemma IdentitiesExactly(db: Db, d: Draft)
    ensures (forall c :: !RaisedForIdentity(db, d, c)) <==> IdentitiesFit(db, d)
  {
    if !IdentitiesFit(db, d) {
      var h :| h in d.identities && h in db.hosts && !(db.hosts[h].url.endpoint.Some? && OnlyInstallation(db, h));
      if db.hosts[h].url.endpoint.None? { assert RaisedForIdentity(db, d, Check(IdentityUnverified, Some(h), true)); }
      else { assert RaisedForIdentity(db, d, Check(EndpointAlias, Some(h), true)); }
    }
  }

  lemma LimitsExactly(db: Db, cfg: Config, now: Time, p: Id, d: Draft, snap: Snapshot, ls: Listings)
    requires p in db.products && ListedAll(db, ls) && SnapshotOf(db, p, d) == Some(snap)
    requires forall key :: key in db.links ==> key.0 in db.products
    ensures (forall c :: !RaisedForLimit(db, cfg, now, d, snap, ls, c)) <==> LimitsFit(db, cfg, now, p, d, ls)
  {
    hide Used, Blocks, OverlaidHost, Known, Lists, LimitUnconfirmed, SnapshotOf, Acknowledged, Shared, Sound;
    forall h | h in d.limits && h in db.hosts
      ensures h in snap.hosts
      ensures LimitUnconfirmed(d, snap, h) <==>
                d.limits[h].maxInstances != db.hosts[h].maxInstances && Shared(db, p, d, h)
                && !Acknowledged(db, p, d, h)
      ensures (forall c :: !Blocks(db, cfg, now, h, OverlaidHost(db.hosts[h], d.(limits := map[]), h), false, ls[h], c))
              <==> Sound(db, cfg, now, d, h, ls[h])
    {
      UnacknowledgedExactly(db, p, d, snap, h);
      BlockersExactly(db, cfg, now, d, h, false, ls[h], d.(limits := map[]));
    }
    if forall c :: !RaisedForLimit(db, cfg, now, d, snap, ls, c) {
      forall h | h in d.limits && h in db.hosts
        ensures !LimitUnconfirmed(d, snap, h)
        ensures d.limits[h].maxInstances.Some? ==> Sound(db, cfg, now, d, h, ls[h])
      {
        assert !RaisedForLimit(db, cfg, now, d, snap, ls, Check(SharedLimitConfirmation, Some(h), true));
        if d.limits[h].maxInstances.Some? {
          forall c ensures !Blocks(db, cfg, now, h, OverlaidHost(db.hosts[h], d.(limits := map[]), h), false, ls[h], c)
          {
            assert !RaisedForLimit(db, cfg, now, d, snap, ls, Check(c, Some(h), true));
          }
        }
      }
    }
  }

  /**
   A review of a forward change is ready exactly if the configuration is still the one drafted
   against, the environment and the product allow it, and its destinations, certifications and
   limits are in order.
   */
  lemma ReadyExactly(db: Db, cfg: Config, setup: Setup, now: Time, p: Id, d: Draft, snap: Snapshot, ls: Listings)
    requires Reviewable(db, p, d, snap, ls) && Forward(d) && ListedAll(db, ls)
    requires forall key :: key in db.links ==> key.0 in db.products
    ensures ReviewedReady(db, cfg, setup, now, p, d, snap, ls) <==>
              && SnapshotOf(db, p, d) == Some(snap)
              && SetupFit(db, cfg, setup, p) && LinksFit(db, cfg, now, p, d, ls)
              && IdentitiesFit(db, d) && LimitsFit(db, cfg, now, p, d, ls)
  {
    hide SetupFit, LinksFit, IdentitiesFit, LimitsFit, RaisedGenerally, RaisedForLinks, RaisedForIdentity,
         RaisedForLimit, SnapshotOf, Known, Lists, OwnLinks, OverlaidHosts;
    SetupExactly(db, cfg, setup, p);
    IdentitiesExactly(db, d);
    if SnapshotOf(db, p, d) == Some(snap) {
      SnapshotLinks(db, p, d, snap);
      OverlayExists(db, p, d, snap, ls);
      LinksExactly(db, cfg, now, p, d, ls);
      LimitsExactly(db, cfg, now, p, d, snap, ls);
    }
    PartsReady(db, cfg, setup, now, p, d, snap, ls);
  }

  lemma OverlayExists(db: Db, p: Id, d: Draft, snap: Snapshot, ls: Listings)
    requires Reviewable(db, p, d, snap, ls)
    ensures OverlaidHosts(OwnLinks(db, p), d) <= db.hosts.Keys && OverlaidHosts(snap.links, d) <= db.hosts.Keys
  {}

  /** Ready means that none of the parts raises anything that blocks. */
  lemma PartsReady(db: Db, cfg: Config, setup: Setup, now: Time, p: Id, d: Draft, snap: Snapshot, ls: Listings)
    requires Reviewable(db, p, d, snap, ls) && Forward(d)
    ensures OverlaidHosts(snap.links, d) <= db.hosts.Keys
    ensures ReviewedReady(db, cfg, setup, now, p, d, snap, ls) <==>
              && SnapshotOf(db, p, d) == Some(snap)
              && (forall c :: !RaisedGenerally(db, cfg, setup, p, c))
              && (forall c :: RaisedForLinks(db, cfg, now, p, snap.links, d, ls, c) ==> !c.blocking)
              && (forall c :: !RaisedForIdentity(db, d, c))
              && (forall c :: !RaisedForLimit(db, cfg, now, d, snap, ls, c))
  {
    hide RaisedForLinks, SnapshotOf, Known, OverlaidHosts, Blocks, LimitUnconfirmed, Aliased, OverlaidHost;
    OverlayExists(db, p, d, snap, ls);
    if ReviewedReady(db, cfg, setup, now, p, d, snap, ls) {
      ReadyIsCurrent(db, cfg, setup, now, p, d, snap, ls);
      forall c ensures !RaisedGenerally(db, cfg, setup, p, c) && !RaisedForIdentity(db, d, c)
                       && !RaisedForLimit(db, cfg, now, d, snap, ls, c)
                       && (RaisedForLinks(db, cfg, now, p, snap.links, d, ls, c) ==> !c.blocking)
      {
        assert Raised(db, cfg, setup, now, p, d, snap, ls, c) ==> !c.blocking;
      }
    }
  }

  // ----- the single checks and actions -----

  /** The host as the draft has it is blocked under this code. */
  predicate BlockedBy(db: Db, cfg: Config, now: Time, d: Draft, h: Id, relay: bool, l: Listing, c: Code)
    requires h in db.hosts && Known(db, l)
  {
    Blocks(db, cfg, now, h, OverlaidHost(db.hosts[h], d, h), relay, l, c)
  }

  lemma OfTheHost(db: Db, cfg: Config, now: Time, d: Draft, h: Id, relay: bool, l: Listing, c: Code)
    requires h in db.hosts && Known(db, l) && c != OccupancyAmbiguous && c != ProvisioningUnresolved
    ensures BlockedBy(db, cfg, now, d, h, relay, l, c) <==>
              HostBlocks(db, cfg, now, h, OverlaidHost(db.hosts[h], d, h), relay, c)
  {
    hide HostBlocks, Used, Unattributed, OverlaidHost;
  }

  /** What is said of the host's own columns, as the draft leaves them, by a code. */
  predicate Says(db: Db, cfg: Config, now: Time, d: Draft, h: Id, relay: bool, c: Code)
    requires h in db.hosts
  {
    var host := db.hosts[h];
    match c
    case IdentityUnverified =>
      host.url.endpoint.None?
      || (h !in d.identities && (host.canonicalEndpoint != host.url.endpoint || !host.verified))
    case EndpointAlias => host.url.endpoint.Some? && !OnlyInstallation(db, h)
    case ProviderInactive => !host.active
    case VpsInactive => !host.vpsActive
    case HealthUnconfirmed =>
      !host.healthy || host.lastHealthAt.None? || host.lastHealthAt.value + cfg.healthMaxAge < now
    case InventoryUnconfirmed =>
      host.inventoryStatus != InventoryStatus.Ready || host.observedAt.None?
      || host.observedAt.value + cfg.inventoryMaxAge < now
    case CallbackUnconfirmed => relay && !host.callbackReady
    case _ => false
  }

  /** Which code stands for what: the host's own columns first. */
  lemma HostCodes(db: Db, cfg: Config, now: Time, d: Draft, h: Id, relay: bool, l: Listing, c: Code)
    requires h in db.hosts && Known(db, l) && c != OccupancyAmbiguous && c != ProvisioningUnresolved
    ensures BlockedBy(db, cfg, now, d, h, relay, l, c) <==> Says(db, cfg, now, d, h, relay, c)
  {
    hide BlockedBy, Used, Known;
    OfTheHost(db, cfg, now, d, h, relay, l, c);
  }

  /** What stands against a reversal, told from the tables: of the target, and of what the product leaves behind. */
  ghost predicate Stands(db: Db, setup: Setup, p: Id, legacy: bool, t: Id, c: Code)
    requires p in db.products
  {
    match c
    case TargetUnavailable =>
      (p, t) !in db.links
      || (legacy && (t !in db.hosts || !db.hosts[t].active || !db.hosts[t].vpsActive
                     || db.hosts[t].adapter != db.products[p].adapter))
    case InstancesOutsideTarget =>
      legacy && exists i :: i in db.instances && db.instances[i].product == p && db.instances[i].host != t
    case DefaultProvider => !legacy && db.products[p].defaultHost == Some(t)
    case InstancesPresent =>
      !legacy && exists i :: i in db.instances && db.instances[i].product == p && db.instances[i].host == t
    case ProvisioningPending =>
      exists r :: r in db.rows && db.rows[r].product == p && (legacy || db.rows[r].host == t)
                  && (OpenRow(db, r) || db.rows[r].leaseOwner.Some? || db.rows[r].leaseExpiresAt.Some?)
    case DeliveryPending =>
      Awaited(db, setup.events, setup.batches, p,
              if legacy then set key | key in db.links && key.0 == p && key.1 != t :: key.1 else {t})
    case _ => false
  }

  lemma ReversalCodes(db: Db, setup: Setup, p: Id, d: Draft, snap: Snapshot, c: Code)
    requires p in db.products && d.target.Some? && SnapshotOf(db, p, d) == Some(snap)
    ensures RaisedForReversal(db, setup, p, d, snap, Check(c, d.target, true)) <==>
              Stands(db, setup, p, d.purpose == ToLegacy, d.target.value, c)
  {
    hide Awaited, SnapshotOf, OwnLinks, LeftBehind, Pending, OpenRow;
    var t := d.target.value;
    SnapshotLinks(db, p, d, snap);
    LinksListed(db, p);
    LeftExactly(db, p, d.purpose == ToLegacy, t);
    forall r | r in db.rows
      ensures Pending(db.rows[r]) <==>
                OpenRow(db, r) || db.rows[r].leaseOwner.Some? || db.rows[r].leaseExpiresAt.Some?
    {
      PendingExactly(db, r);
    }
  }

  lemma PendingExactly(db: Db, r: Id)
    requires r in db.rows
    ensures Pending(db.rows[r]) <==>
              OpenRow(db, r) || db.rows[r].leaseOwner.Some? || db.rows[r].leaseExpiresAt.Some?
  {}

  lemma LeftExactly(db: Db, p: Id, legacy: bool, t: Id)
    ensures LeftBehind(db, p, legacy, t) ==
              if legacy then set key | key in db.links && key.0 == p && key.1 != t :: key.1 else {t}
  {}

  /** Then what is on it. */
  lemma CountCodes(db: Db, cfg: Config, now: Time, d: Draft, h: Id, relay: bool, l: Listing)
    requires h in db.hosts && Known(db, l)
    ensures BlockedBy(db, cfg, now, d, h, relay, l, OccupancyAmbiguous) <==> Used(db, h, l).ambiguous
    ensures BlockedBy(db, cfg, now, d, h, relay, l, ProvisioningUnresolved) <==> !Attributed(db, h)
  {
    hide Used, Aliased, Recent, Unattributed, Attributed;
    AttributedExactly(db, h);
  }

  /** Every action answers one blocking check: whose webhook to confirm, where to test, whom a limit affects. */
  lemma ActionsNamed(db: Db, p: Id, snap: Snapshot, checks: seq<Check>, actions: set<Action>)
    requires forall a :: a in actions <==> exists c :: c in checks && c.blocking && a == ActionFor(db, p, snap, c)
    ensures forall h :: UseTestProduct(h) in actions <==>
                          Check(CallbackUnconfirmed, Some(h), true) in checks
                          && forall i :: i in db.instances && db.instances[i].host == h ==> db.instances[i].product != p
    ensures forall h, ids :: ConfirmWebhook(h, ids) in actions <==>
                               && Check(CallbackUnconfirmed, Some(h), true) in checks && ids != {}
                               && forall i :: i in ids <==> i in db.instances && db.instances[i].host == h
                                                            && db.instances[i].product == p
    ensures forall h, qs :: ConfirmSharedLimit(h, qs) in actions <==>
                              && Check(SharedLimitConfirmation, Some(h), true) in checks
                              && h in snap.hosts && qs == snap.hosts[h].members
    ensures forall code, at :: Resolve(code, at) in actions <==>
                                 && Check(code, at, true) in checks && !(code == CallbackUnconfirmed && at.Some?)
                                 && !(code == SharedLimitConfirmation && at.Some? && at.value in snap.hosts)
  {
    forall c | c in checks && c.blocking
      ensures ActionFor(db, p, snap, c) in actions && c == Check(c.code, c.host, true)
    {}
    forall h ensures OwnInstances(db, p, h) == {} <==>
                       forall i :: i in db.instances && db.instances[i].host == h ==> db.instances[i].product != p
    {
      assert forall i :: i in OwnInstances(db, p, h) <==>
                           i in db.instances && db.instances[i].host == h && db.instances[i].product == p;
    }
  }

  // ----- what is compared, and what is written -----

  /** The columns of the product that a draft was shown. */
  predicate SameProduct(x: Product, y: Product) {
    && x.revision == y.revision && x.adapter == y.adapter && x.hubRelay == y.hubRelay && x.active == y.active
    && x.defaultHost == y.defaultHost && x.mode == y.mode
  }

  ghost predicate SameLinks(was: Db, db: Db, p: Id) {
    forall h :: ((p, h) in was.links <==> (p, h) in db.links)
                && ((p, h) in was.links && (p, h) in db.links ==> was.links[(p, h)] == db.links[(p, h)])
  }

  /** The columns of a host, and who uses it. */
  predicate SameHost(was: Db, db: Db, p: Id, d: Draft, h: Id) {
    h in was.hosts && h in db.hosts ==>
      && was.hosts[h].configRevision == db.hosts[h].configRevision
      && was.hosts[h].maxInstances == db.hosts[h].maxInstances && was.hosts[h].verified == db.hosts[h].verified
      && MembersOf(was, p, d, h) == MembersOf(db, p, d, h)
  }

  /** A host the draft or the product's links speak of. */
  predicate SpokenOf(db: Db, p: Id, d: Draft, h: Id) {
    (p, h) in db.links || h in d.links || h in d.limits || h in d.identities || d.target == Some(h)
  }

  lemma SpokenOfExactly(db: Db, p: Id, d: Draft)
    ensures forall h :: h in Mentioned(db, p, d) <==> SpokenOf(db, p, d, h)
  {
    LinksListed(db, p);
    KeysAreHosts(db, p);
  }

  /** A draft is still current exactly if nothing it was shown has changed. */
  lemma CurrentExactly(was: Db, db: Db, p: Id, d: Draft)
    requires p in was.products && p in db.products && SnapshotOf(was, p, d).Some? && SnapshotOf(db, p, d).Some?
    ensures SnapshotOf(was, p, d) == SnapshotOf(db, p, d) <==>
              && SameProduct(was.products[p], db.products[p]) && SameLinks(was, db, p)
              && forall h :: SpokenOf(db, p, d, h) ==> SameHost(was, db, p, d, h)
  {
    hide MembersOf, OwnLinks, OwnHosts, SameLinks, SameHost, Mentioned, SpokenOf;
    SpokenOfExactly(db, p, d);
    var a, b := SnapshotOf(was, p, d).value, SnapshotOf(db, p, d).value;
    LinksExactlySame(was, db, p);
    if SameLinks(was, db, p) {
      HostsExactlySame(was, db, p, d, a, b);
    }
  }

  lemma LinksExactlySame(was: Db, db: Db, p: Id)
    ensures OwnLinks(was, p) == OwnLinks(db, p) <==> SameLinks(was, db, p)
  {
    LinksListed(was, p);
    LinksListed(db, p);
  }

  lemma HostsExactlySame(was: Db, db: Db, p: Id, d: Draft, a: Snapshot, b: Snapshot)
    requires p in was.products && p in db.products && SameLinks(was, db, p)
    requires SnapshotOf(was, p, d) == Some(a) && SnapshotOf(db, p, d) == Some(b)
    ensures a.hosts == b.hosts <==> forall h :: h in Mentioned(db, p, d) ==> SameHost(was, db, p, d, h)
  {
    hide MembersOf, OwnLinks, SameLinks;
    assert Mentioned(was, p, d) == Mentioned(db, p, d) by {
      LinksExactlySame(was, db, p);
      LinksListed(was, p);
      LinksListed(db, p);
      assert OwnHosts(was, p) == OwnHosts(db, p) by {
        hide Mentioned;
        assert OwnLinks(was, p).Keys == OwnHosts(was, p) && OwnLinks(db, p).Keys == OwnHosts(db, p) by {
          KeysAreHosts(was, p); KeysAreHosts(db, p);
        }
      }
    }
    hide Mentioned;
    assert a.hosts.Keys == Mentioned(was, p, d) && b.hosts.Keys == Mentioned(db, p, d);
  }

  lemma KeysAreHosts(db: Db, p: Id)
    ensures OwnLinks(db, p).Keys == OwnHosts(db, p)
  {}

  lemma LinksListed(db: Db, p: Id)
    ensures forall h :: h in OwnLinks(db, p) <==> (p, h) in db.links
    ensures forall h :: (p, h) in db.links ==> OwnLinks(db, p)[h] == db.links[(p, h)]
  {
    forall h ensures h in OwnHosts(db, p) <==> (p, h) in db.links {
      if (p, h) in db.links { assert (p, h).1 in OwnHosts(db, p); }
    }
  }

  function PriorityAfter(db: Db, p: Id, d: Draft, h: Id): nat {
    if h in d.links && d.links[h].priority.Some? then d.links[h].priority.value
    else if (p, h) in db.links then db.links[(p, h)].priority else 0
  }

  /** Applied, a forward change has done what its draft says, to its own product, links and hosts, and nothing else. */
  lemma WrittenAsDrafted(db: Db, p: Id, d: Draft, q: Id, h: Id)
    requires p in db.products && WellFormed(d) && Forward(d)
    ensures var after := Configured(db, p, d);
            && after.instances == db.instances && after.rows == db.rows && after.entries == db.entries
            && after.reports == db.reports && after.collections == db.collections
            && after.products == db.products[p := db.products[p].(mode := Mode.Capacity,
                                                                  revision := db.products[p].revision + 1)]
            && ((p, h) in after.links <==> Destination(db, p, d, h))
            && ((p, h) in after.links ==>
                  && after.links[(p, h)].accepting == Opened(db, p, d, h)
                  && after.links[(p, h)].priority == PriorityAfter(db, p, d, h))
            && (q != p ==> ((q, h) in after.links <==> (q, h) in db.links)
                           && ((q, h) in db.links ==> after.links[(q, h)] == db.links[(q, h)]))
            && (h in after.hosts <==> h in db.hosts)
            && (h in db.hosts ==>
                  after.hosts[h] ==
                    db.hosts[h].(maxInstances := if h in d.limits then d.limits[h].maxInstances
                                                 else db.hosts[h].maxInstances,
                                 verified := h in d.identities || db.hosts[h].verified,
                                 canonicalEndpoint := if h in d.identities then db.hosts[h].url.endpoint
                                                      else db.hosts[h].canonicalEndpoint,
                                 configRevision := db.hosts[h].configRevision + (if h in d.limits then 1 else 0)
                                                   + (if h in d.identities then 1 else 0)))
  {
    var key := (p, h);
    assert key in UpsertedLinks(db.links, p, d) <==> Destination(db, p, d, h);
  }
}
