/** The apply transaction as a run of the protocol's own steps, so every theorem over runs covers it. */
module ApplySteps {
  import opened Basics
  import opened Tables
  import opened Admission
  import opened Provisioning
  import opened Protocol
  import opened Invariants
  import opened Guarantees
  import opened Review

  /** A run from one state to another, all at one moment, by administrative edits alone. */
  ghost predicate Edits(cfg: Config, now: Time, db: Db, states: seq<Db>, events: seq<Event>, after: Db) {
    && IsRun(cfg, states, events) && states[0] == db && states[|events|] == after
    && forall k :: 0 <= k < |events| ==> events[k].now == now && IsEdit(events[k].step)
  }

  predicate IsEdit(step: Step) {
    step.DoEditHost? || step.DoPutLink? || step.DoSetMode? || step.DoRestoreLegacy? || step.DoDetach?
    || step.DoEditProduct?
  }

  lemma NoEdit(cfg: Config, now: Time, db: Db)
    ensures Edits(cfg, now, db, [db], [], db)
  {}

  lemma OneMore(cfg: Config, now: Time, db: Db, states: seq<Db>, events: seq<Event>, mid: Db, step: Step, after: Db)
    requires Edits(cfg, now, db, states, events, mid) && IsEdit(step) && Can(mid, step)
             && after == After(mid, cfg, now, step)
    ensures Edits(cfg, now, db, states + [after], events + [Event(now, step)], after)
  {
    hide After, Can;
    var longer, more := states + [after], events + [Event(now, step)];
    forall k | 0 <= k < |more| ensures StepsTo(cfg, longer[k], more[k], longer[k + 1]) {
      if k < |events| { assert StepsTo(cfg, states[k], events[k], states[k + 1]); }
    }
  }

  // ----- hosts -----

  /** The hosts of a prefix of the order written, the others still as they were. */
  function HostsUpTo(db: Db, d: Draft, done: set<Id>): map<Id, Host> {
    map h | h in db.hosts :: if h in done then WrittenHost(db.hosts[h], d, h) else db.hosts[h]
  }

  lemma HostWritten(db: Db, d: Draft, done: set<Id>, h: Id)
    requires h in db.hosts && h !in done
    ensures EditHost(db.(hosts := HostsUpTo(db, d, done)), h, WrittenHost(db.hosts[h], d, h)) ==
              db.(hosts := HostsUpTo(db, d, done + {h}))
  {
    var was := db.(hosts := HostsUpTo(db, d, done));
    assert EditHost(was, h, WrittenHost(db.hosts[h], d, h)).hosts == HostsUpTo(db, d, done + {h});
  }

  lemma WriteHosts(cfg: Config, now: Time, db: Db, d: Draft) returns (states: seq<Db>, events: seq<Event>)
    ensures Edits(cfg, now, db, states, events, db.(hosts := WrittenHosts(db, d)))
  {
    hide Edits, WrittenHost;
    var order := Enumeration(db.hosts.Keys);
    var done: set<Id> := {};
    states, events := [db], [];
    NoEdit(cfg, now, db);
    assert db.(hosts := HostsUpTo(db, d, done)) == db by { assert HostsUpTo(db, d, done) == db.hosts; }
    for k := 0 to |order|
      invariant done == set h | h in order[..k]
      invariant Edits(cfg, now, db, states, events, db.(hosts := HostsUpTo(db, d, done)))
    {
      var h := order[k];
      assert order[..k + 1] == order[..k] + [h];
      HostWritten(db, d, done, h);
      var step := DoEditHost(h, WrittenHost(db.hosts[h], d, h));
      EditIsStep(db.(hosts := HostsUpTo(db, d, done)), cfg, now, h, WrittenHost(db.hosts[h], d, h));
      OneMore(cfg, now, db, states, events, db.(hosts := HostsUpTo(db, d, done)), step,
              db.(hosts := HostsUpTo(db, d, done + {h})));
      states, events, done := states + [db.(hosts := HostsUpTo(db, d, done + {h}))], events + [Event(now, step)],
                              done + {h};
    }
    assert order[..|order|] == order;
    assert HostsUpTo(db, d, done) == WrittenHosts(db, d);
  }

  lemma EditIsStep(db: Db, cfg: Config, now: Time, h: Id, host: Host)
    ensures Can(db, DoEditHost(h, host)) && After(db, cfg, now, DoEditHost(h, host)) == EditHost(db, h, host)
  {}

  lemma LinkIsStep(db: Db, cfg: Config, now: Time, p: Id, h: Id, link: Link)
    ensures Can(db, DoPutLink(p, h, link)) && After(db, cfg, now, DoPutLink(p, h, link)) == PutLink(db, p, h, link)
  {}

  // ----- links -----

  function LinksUpTo(links: map<(Id, Id), Link>, written: map<(Id, Id), Link>, p: Id, done: set<Id>)
    : map<(Id, Id), Link>
  {
    map key | key in links.Keys + written.Keys && (key in links || (key.0 == p && key.1 in done)) ::
      if key in written && key.0 == p && key.1 in done then written[key] else links[key]
  }

  lemma LinkWritten(db: Db, written: map<(Id, Id), Link>, p: Id, done: set<Id>, h: Id)
    requires p in db.products && h in db.hosts && (p, h) in written && h !in done
    ensures PutLink(db.(links := LinksUpTo(db.links, written, p, done)), p, h, written[(p, h)]) ==
              db.(links := LinksUpTo(db.links, written, p, done + {h}))
  {
    var was := db.(links := LinksUpTo(db.links, written, p, done));
    assert PutLink(was, p, h, written[(p, h)]).links == LinksUpTo(db.links, written, p, done + {h});
  }

  lemma WriteTheLinks(cfg: Config, now: Time, db: Db, p: Id, written: map<(Id, Id), Link>, first: seq<Db>,
        before: seq<Event>, origin: Db)
    returns (states: seq<Db>, events: seq<Event>)
    requires p in db.products && Edits(cfg, now, origin, first, before, db) && db.links.Keys <= written.Keys
    requires forall key :: key in written && (key !in db.links || written[key] != db.links[key]) ==>
                             key.0 == p && key.1 in db.hosts
    ensures Edits(cfg, now, origin, states, events, db.(links := written))
  {
    hide Edits;
    var changed := set key | key in written && key.0 == p && (key !in db.links || written[key] != db.links[key]) ::
                     key.1;
    var order := Enumeration(changed);
    var done: set<Id> := {};
    states, events := first, before;
    assert db.(links := LinksUpTo(db.links, written, p, done)) == db by {
      assert LinksUpTo(db.links, written, p, done) == db.links;
    }
    for k := 0 to |order|
      invariant done == set h | h in order[..k]
      invariant Edits(cfg, now, origin, states, events, db.(links := LinksUpTo(db.links, written, p, done)))
    {
      var h := order[k];
      assert order[..k + 1] == order[..k] + [h];
      assert h in changed && (p, h) in written;
      LinkWritten(db, written, p, done, h);
      var step := DoPutLink(p, h, written[(p, h)]);
      LinkIsStep(db.(links := LinksUpTo(db.links, written, p, done)), cfg, now, p, h, written[(p, h)]);
      OneMore(cfg, now, origin, states, events, db.(links := LinksUpTo(db.links, written, p, done)), step,
              db.(links := LinksUpTo(db.links, written, p, done + {h})));
      states, events, done := states + [db.(links := LinksUpTo(db.links, written, p, done + {h}))],
                              events + [Event(now, step)], done + {h};
    }
    assert order[..|order|] == order;
    AllLinksWritten(db, written, p, done);
  }

  lemma AllLinksWritten(db: Db, written: map<(Id, Id), Link>, p: Id, done: set<Id>)
    requires db.links.Keys <= written.Keys
    requires forall key :: key in written && (key !in db.links || written[key] != db.links[key]) ==>
                             key.0 == p && key.1 in done
    ensures LinksUpTo(db.links, written, p, done) == written
  {}

  // ----- the whole transaction -----

  lemma OnlyOwnLinksWritten(db: Db, p: Id, d: Draft)
    requires Inv(db) && WellFormed(d) && d.links.Keys <= db.hosts.Keys
    ensures db.links.Keys <= WrittenLinks(db.links, p, d).Keys
    ensures forall key ::
              key in WrittenLinks(db.links, p, d)
              && (key !in db.links || WrittenLinks(db.links, p, d)[key] != db.links[key]) ==>
                            key.0 == p && key.1 in db.hosts
  {
    LinkFacts(db);
  }

  lemma ConfiguredIsRun(cfg: Config, now: Time, db: Db, p: Id, d: Draft) returns (states: seq<Db>, events: seq<Event>)
    requires Inv(db) && p in db.products && WellFormed(d) && d.links.Keys <= db.hosts.Keys
    ensures Edits(cfg, now, db, states, events, Configured(db, p, d))
  {
    hide Edits, Inv, WrittenLinks, WrittenHosts;
    states, events := WriteHosts(cfg, now, db, d);
    var hosted := db.(hosts := WrittenHosts(db, d));
    HostsStay(db, d);
    OnlyOwnLinksWritten(db, p, d);
    states, events := WriteTheLinks(cfg, now, hosted, p, WrittenLinks(db.links, p, d), states, events, db);
    var linked := hosted.(links := WrittenLinks(db.links, p, d));
    var step := DoSetMode(p, Mode.Capacity);
    OneMore(cfg, now, db, states, events, linked, step, Configured(db, p, d));
    states, events := states + [Configured(db, p, d)], events + [Event(now, step)];
  }

  lemma HostsStay(db: Db, d: Draft)
    ensures WrittenHosts(db, d).Keys == db.hosts.Keys
  {}

  /** Detaching counts as a change of the product: an edit that changes nothing but its revision. */
  lemma RevisedIsEdit(db: Db, cfg: Config, now: Time, p: Id)
    requires Inv(db) && p in db.products
    ensures After(db, cfg, now, DoEditProduct(p, db.products[p])) ==
              db.(products := db.products[p := db.products[p].(revision := db.products[p].revision + 1)])
  {
    LinkFacts(db);
  }

  lemma LegacyIsRun(cfg: Config, now: Time, db: Db, p: Id, t: Id, deliveries: bool)
    returns (states: seq<Db>, events: seq<Event>)
    requires RestoreLegacy(db, p, t, deliveries).Done?
    ensures Edits(cfg, now, db, states, events, RestoreLegacy(db, p, t, deliveries).db)
  {
    hide Edits, RestoreLegacy;
    var step, after := DoRestoreLegacy(p, t, deliveries), RestoreLegacy(db, p, t, deliveries).db;
    NoEdit(cfg, now, db);
    OneMore(cfg, now, db, [db], [], db, step, after);
    states, events := [db] + [after], [] + [Event(now, step)];
  }

  lemma DetachIsRun(cfg: Config, now: Time, db: Db, p: Id, t: Id, deliveries: bool)
    returns (states: seq<Db>, events: seq<Event>)
    requires Inv(db) && p in db.products && Detach(db, p, t, deliveries).Done?
    ensures var o := Detach(db, p, t, deliveries);
            Edits(cfg, now, db, states, events,
                  o.db.(products := o.db.products[p := db.products[p].(revision := db.products[p].revision + 1)]))
  {
    hide Edits, Inv, Detach, EditProduct;
    var step, detached := DoDetach(p, t, deliveries), Detach(db, p, t, deliveries).db;
    var edit := DoEditProduct(p, db.products[p]);
    DetachKeepsProducts(db, p, t, deliveries);
    RevisedIsEdit(detached, cfg, now, p);
    NoEdit(cfg, now, db);
    OneMore(cfg, now, db, [db], [], db, step, detached);
    OneMore(cfg, now, db, [db] + [detached], [] + [Event(now, step)], detached, edit, After(detached, cfg, now, edit));
    states, events := [db] + [detached] + [After(detached, cfg, now, edit)],
                      [] + [Event(now, step)] + [Event(now, edit)];
  }

  /** Whatever the purpose, an application that goes through after a ready review is such a run. */
  lemma ApplicationIsRun(cfg: Config, now: Time, db: Db, setup: Setup, p: Id, d: Draft)
    returns (states: seq<Db>, events: seq<Event>)
    requires Inv(db) && p in db.products && WellFormed(d) && d.links.Keys <= db.hosts.Keys
    requires Review.Applied(db, setup, p, d).Done? && (d.purpose == ToLegacy ==> Switched(db, setup, p, d).Done?)
    ensures Edits(cfg, now, db, states, events, Review.Applied(db, setup, p, d).db)
  {
    hide Edits, Inv, LegacyBlocked, Detach, Configured, DeliveriesPending;
    if d.purpose == ToLegacy {
      states, events := LegacyIsRun(cfg, now, db, p, d.target.value,
                                    DeliveriesPending(db, setup, p, true, d.target.value));
    }
    else if d.purpose == ToDetach {
      states, events := DetachIsRun(cfg, now, db, p, d.target.value,
                                    DeliveriesPending(db, setup, p, false, d.target.value));
    }
    else { states, events := ConfiguredIsRun(cfg, now, db, p, d); }
  }

  lemma DetachKeepsProducts(db: Db, p: Id, h: Id, deliveries: bool)
    requires Inv(db) && Detach(db, p, h, deliveries).Done?
    ensures Detach(db, p, h, deliveries).db.products == db.products && Inv(Detach(db, p, h, deliveries).db)
  {
    hide Inv, DetachBlocked;
    DetachKeeps(db, p, h, deliveries);
  }
}
