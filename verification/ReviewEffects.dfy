/** What applying a change leaves intact: the invariants, and products the review did not name. */
module ReviewEffects {
  import opened Basics
  import opened Occupancy
  import opened Tables
  import opened Admission
  import opened Protocol
  import opened Invariants
  import opened Review

  /** The writes of a forward change keep the name lock, the row shape and every link. */
  lemma ConfiguredKeeps(db: Db, p: Id, d: Draft)
    requires Inv(db) && p in db.products && WellFormed(d) && d.links.Keys <= db.hosts.Keys
    ensures Inv(Configured(db, p, d))
  {
    hide Inv;
    LinkFacts(db);
    var after := Configured(db, p, d);
    forall q | q in after.products && after.products[q].defaultHost.Some?
      ensures (q, after.products[q].defaultHost.value) in after.links {
      assert (q, db.products[q].defaultHost.value) in db.links;
    }
    SameFactsKeep(db, after);
  }

  /** A restore, which is not tested again, must still be one that the guarded switch would allow. */
  lemma AppliedKeepsInv(db: Db, setup: Setup, p: Id, d: Draft)
    requires Inv(db) && p in db.products && WellFormed(d) && d.links.Keys <= db.hosts.Keys
    requires d.purpose == ToLegacy ==> Switched(db, setup, p, d).Done?
    ensures Inv(Commit(db, Applied(db, setup, p, d)))
  {
    hide Inv, Configured, DeliveriesPending;
    if d.purpose == ToLegacy {
      RestoreLegacyKeeps(db, p, d.target.value, DeliveriesPending(db, setup, p, true, d.target.value));
    } else if d.purpose == ToDetach {
      var pending := DeliveriesPending(db, setup, p, false, d.target.value);
      DetachKeeps(db, p, d.target.value, pending);
      var o := Detach(db, p, d.target.value, pending);
      if o.Done? {
        LinkFacts(o.db);
        SetProductKeeps(o.db, p, db.products[p].(revision := db.products[p].revision + 1));
      }
    } else {
      ConfiguredKeeps(db, p, d);
    }
  }

  /** The products the review reports as affected. */
  function Affected(p: Id, d: Draft, snap: Snapshot): set<Id> {
    {p} + set h, q | h in snap.hosts && (h in d.limits || h in d.identities) && q in snap.hosts[h].members :: q
  }

  /** The list of affected products is complete: for any other product every admission answers as before. */
  lemma OthersUnaffected(db: Db, cfg: Config, now: Time, p: Id, d: Draft, snap: Snapshot, q: Id, h: Id, own: bool,
        l: Listing)
    requires p in db.products && WellFormed(d) && SnapshotOf(db, p, d) == Some(snap) && Known(db, l)
    requires q !in Affected(p, d, snap)
    ensures Known(Configured(db, p, d), l)
    ensures var was, is_ := Admit(db, cfg, now, q, h, own, l), Admit(Configured(db, p, d), cfg, now, q, h, own, l);
            (was.Done? <==> is_.Done?) && (was.Refused? ==> is_.why == was.why)
  {
    hide Used, Fresh, Aliased, Admit, WrittenHosts, WrittenLinks;
    var after := Configured(db, p, d);
    CountsAgree(db, p, d, h, l);
    WrittenDomain(db, d);
    if h in db.hosts && q in db.products {
      AliasesAgree(db, d, h, db.hosts[h].url);
      OtherLinksStay(db, p, d, q, h);
      if h in d.limits || h in d.identities {
        NotAMember(db, p, d, snap, q, h);
        EditedHostSame(db, d, h);
        StrangersRefused(db, after, cfg, now, q, h, own, l);
      } else {
        UneditedHostSame(db, d, h);
        SameAnswer(db, after, cfg, now, q, h, own, l);
      }
    } else {
      AbsentRefused(db, after, cfg, now, q, h, own, l);
    }
  }

  lemma WrittenDomain(db: Db, d: Draft)
    ensures WrittenHosts(db, d).Keys == db.hosts.Keys
  {}

  lemma EditedHostSame(db: Db, d: Draft, h: Id)
    requires h in db.hosts
    ensures h in WrittenHosts(db, d)
    ensures var was, is_ := db.hosts[h], WrittenHosts(db, d)[h];
                            is_.active == was.active && is_.adapter == was.adapter && is_.accepting == was.accepting
  {}

  lemma UneditedHostSame(db: Db, d: Draft, h: Id)
    requires h in db.hosts && h !in d.limits && h !in d.identities
    ensures h in WrittenHosts(db, d) && WrittenHosts(db, d)[h] == db.hosts[h]
  {}

  lemma AbsentRefused(db: Db, after: Db, cfg: Config, now: Time, q: Id, h: Id, own: bool, l: Listing)
    requires Known(db, l) && Known(after, l) && (q !in db.products || h !in db.hosts)
             && (q !in after.products || h !in after.hosts)
    ensures Admit(db, cfg, now, q, h, own, l) == Admit(after, cfg, now, q, h, own, l)
  {}

  /** A product that neither links to a host nor defaults to it is refused there, for the same reason. */
  lemma StrangersRefused(db: Db, after: Db, cfg: Config, now: Time, q: Id, h: Id, own: bool, l: Listing)
    requires Known(db, l) && Known(after, l) && q in db.products && h in db.hosts && h in after.hosts
             && q in after.products
    requires after.products[q] == db.products[q] && db.products[q].defaultHost != Some(h) && (q, h) !in db.links
             && (q, h) !in after.links
    requires after.hosts[h].active == db.hosts[h].active && after.hosts[h].adapter == db.hosts[h].adapter
             && after.hosts[h].accepting == db.hosts[h].accepting
    ensures var was, is_ := Admit(db, cfg, now, q, h, own, l), Admit(after, cfg, now, q, h, own, l);
            was.Refused? && is_.Refused? && is_.why == was.why
  {
    hide WithinControls;
  }

  lemma SameAnswer(db: Db, after: Db, cfg: Config, now: Time, q: Id, h: Id, own: bool, l: Listing)
    requires Known(db, l) && Known(after, l) && q in db.products && h in db.hosts && h in after.hosts
             && q in after.products
    requires after.products[q] == db.products[q] && after.hosts[h] == db.hosts[h]
    requires (q, h) in after.links <==> (q, h) in db.links
    requires (q, h) in db.links ==> after.links[(q, h)] == db.links[(q, h)]
    requires Aliased(after.hosts, h, db.hosts[h].url) <==> Aliased(db.hosts, h, db.hosts[h].url)
    requires Used(after, h, l) == Used(db, h, l)
    ensures var was, is_ := Admit(db, cfg, now, q, h, own, l), Admit(after, cfg, now, q, h, own, l);
            (was.Done? <==> is_.Done?) && (was.Refused? ==> is_.why == was.why)
  {
    SameControls(db, after, cfg, now, db.products[q], h, own, l);
    hide WithinControls;
  }

  lemma SameControls(db: Db, after: Db, cfg: Config, now: Time, product: Product, h: Id, own: bool, l: Listing)
    requires Known(db, l) && Known(after, l) && h in db.hosts && h in after.hosts && after.hosts[h] == db.hosts[h]
    requires Aliased(after.hosts, h, db.hosts[h].url) <==> Aliased(db.hosts, h, db.hosts[h].url)
    requires Used(after, h, l) == Used(db, h, l)
    ensures WithinControls(after, cfg, now, product, h, own, l) <==> WithinControls(db, cfg, now, product, h, own, l)
  {
    hide Used, Fresh, Aliased;
  }

  lemma NotAMember(db: Db, p: Id, d: Draft, snap: Snapshot, q: Id, h: Id)
    requires p in db.products && q in db.products && SnapshotOf(db, p, d) == Some(snap) && q !in Affected(p, d, snap)
    requires h in d.limits || h in d.identities
    ensures db.products[q].defaultHost != Some(h) && (q, h) !in db.links
  {
    assert h in Mentioned(db, p, d) && h in snap.hosts;
    assert snap.hosts[h].members == MembersOf(db, p, d, h);
    assert q !in snap.hosts[h].members;
  }

  lemma OtherLinksStay(db: Db, p: Id, d: Draft, q: Id, h: Id)
    requires p in db.products && WellFormed(d) && q != p
    ensures (q, h) in WrittenLinks(db.links, p, d) <==> (q, h) in db.links
    ensures (q, h) in db.links ==> WrittenLinks(db.links, p, d)[(q, h)] == db.links[(q, h)]
  {}
}
