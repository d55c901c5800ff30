/**
 Exactly which act moves a change from one status to another, and when a request makes a change:
 every statement is over all acts and all earlier statuses.
 */
module ChangeMoves {
  import opened Basics
  import opened Tables
  import opened Admission
  import opened Provisioning
  import opened Protocol
  import opened Transactions
  import opened Review
  import opened ChangeControl
  import opened ChangeSafety

  /** No preparer holds the change under a live lease. */
  predicate Unleased(c: Change, now: Time) {
    c.leaseExpiresAt.None? || c.leaseExpiresAt.value <= now
  }

  predicate Waiting(c: Change) {
    c.status == Status.Queued || c.status == Status.Running
  }

  /** The preparer to whom it was given. */
  predicate GivenTo(c: Change, owner: Token) {
    c.status == Status.Running && c.leaseOwner == Some(owner)
  }

  /** It was read as it is. */
  predicate ReadAsIs(c: Change, seen: Change) {
    c.revision == seen.revision && c.status == seen.status
  }

  /** A preparer takes a waiting change over. */
  predicate Claims(w: World, now: Time, a: Act, id: Id)
    requires id in w.changes
  {
    a.ClaimNext? && a.id == id && Waiting(w.changes[id]) && Unleased(w.changes[id], now)
    && now < w.changes[id].executionDeadline
  }

  /** A review of it is stored: by its preparer, or on reading, if it says something new. */
  predicate Reviews(w: World, a: Act, id: Id)
    requires id in w.changes
  {
    var c := w.changes[id];
    || (a.Publish? && a.id == id && GivenTo(c, a.owner))
    || (a.Reassess? && a.id == id && ReadAsIs(c, a.seen)
        && (c.status == Status.Ready || c.status == Status.ActionRequired)
        && (a.seen.diagnostics != Some(a.result) || (c.status == Status.Ready) != a.result.ready))
  }

  /** An administrator confirms the webhook of an instance that the stored review pointed at. */
  ghost predicate Confirms(w: World, now: Time, a: Act, id: Id)
    requires id in w.changes
  {
    var c := w.changes[id];
    a.AskCallback? && a.id == id && a.p == c.product && a.p in w.db.products && a.revision == c.revision && a.confirmed
    && w.db.products[a.p].hubRelay && c.status == Status.ActionRequired && now < c.executionDeadline
    && a.instance in w.db.instances && w.db.instances[a.instance].product == a.p
    && c.diagnostics.Some?
    && exists ids: set<Id> :: ConfirmWebhook(w.db.instances[a.instance].host, ids) in c.diagnostics.value.actions
                              && a.instance in ids
  }

  /** Its time is up: found so on reading, on claiming it, or by its preparer. */
  predicate RunsOut(w: World, now: Time, a: Act, id: Id)
    requires id in w.changes
  {
    var c := w.changes[id];
    || (a.Expire? && a.id == id && ReadAsIs(c, a.seen)
        && (c.status == Status.Queued || c.status == Status.Running || c.status == Status.ActionRequired
            || c.status == Status.Ready)
        && (c.expiresAt <= now || (Waiting(c) && c.executionDeadline <= now)))
    || (a.ClaimNext? && a.id == id && Waiting(c) && Unleased(c, now) && c.executionDeadline <= now)
    || (a.Fault? && a.id == id && a.aborted && GivenTo(c, a.owner))
  }

  predicate Fails(w: World, a: Act, id: Id)
    requires id in w.changes
  {
    a.Fault? && a.id == id && !a.aborted && GivenTo(w.changes[id], a.owner)
  }

  predicate Cancels(w: World, a: Act, id: Id)
    requires id in w.changes
  {
    var c := w.changes[id];
    a.Cancel? && a.id == id && a.p == c.product && a.p in w.db.products && a.revision == c.revision
    && c.status != Status.Applied && c.status != Status.Cancelled
  }

  function ResultOf(a: Act): Diagnostics {
    match a
    case Publish(_, _, result) => result
    case Reassess(_, _, result) => result
    case _ => Diagnostics(false, {}, 0)
  }

  /** Where an act takes a change: nothing else changes a status. */
  ghost function StatusAfter(w: World, cfg: Config, now: Time, a: Act, id: Id): Status
    requires id in w.changes
  {
    var c := w.changes[id];
    if Claims(w, now, a, id) then Status.Running
    else if Reviews(w, a, id) then (if ResultOf(a).ready then Status.Ready else Status.ActionRequired)
    else if Confirms(w, now, a, id) then Status.Queued
    else if RunsOut(w, now, a, id) then Status.Expired
    else if Fails(w, a, id) then Status.Failed
    else if Cancels(w, a, id) then Status.Cancelled
    else if c.status != Status.Applied && Applies(w, cfg, now, a, id) then Status.Applied
    else c.status
  }

  lemma ClaimMoves(w: World, cfg: Config, now: Time, a: Act, id: Id)
    requires May(w, a) && id in w.changes && a.ClaimNext?
    ensures id in Do(w, cfg, now, a).changes
            && Do(w, cfg, now, a).changes[id].status == StatusAfter(w, cfg, now, a, id)
  {
    hide After, Can, Reviewable, ReviewedReady, Review.Applied, Valid, WellFormed, PointedAt;
  }

  lemma PreparersMove(w: World, cfg: Config, now: Time, a: Act, id: Id)
    requires May(w, a) && id in w.changes && (a.Renew? || a.Publish? || a.Fault?)
    ensures id in Do(w, cfg, now, a).changes
            && Do(w, cfg, now, a).changes[id].status == StatusAfter(w, cfg, now, a, id)
  {
    hide After, Can, Reviewable, ReviewedReady, Review.Applied, Valid, WellFormed, PointedAt;
  }

  lemma CancelMoves(w: World, cfg: Config, now: Time, a: Act, id: Id)
    requires May(w, a) && id in w.changes && a.Cancel?
    ensures id in Do(w, cfg, now, a).changes
            && Do(w, cfg, now, a).changes[id].status == StatusAfter(w, cfg, now, a, id)
  {
    hide After, Can, Reviewable, ReviewedReady, Review.Applied, Valid, WellFormed, PointedAt;
  }

  lemma CallbackMoves(w: World, cfg: Config, now: Time, a: Act, id: Id)
    requires May(w, a) && id in w.changes && a.AskCallback?
    ensures id in Do(w, cfg, now, a).changes
            && Do(w, cfg, now, a).changes[id].status == StatusAfter(w, cfg, now, a, id)
  {
    hide After, Can, Reviewable, ReviewedReady, Review.Applied, Valid, WellFormed;
  }

  lemma ExpiryMoves(w: World, cfg: Config, now: Time, a: Act, id: Id)
    requires May(w, a) && id in w.changes && a.Expire?
    ensures id in Do(w, cfg, now, a).changes
            && Do(w, cfg, now, a).changes[id].status == StatusAfter(w, cfg, now, a, id)
  {
    hide After, Can, Reviewable, ReviewedReady, Review.Applied, Valid, WellFormed, PointedAt;
  }

  lemma ReadingMoves(w: World, cfg: Config, now: Time, a: Act, id: Id)
    requires May(w, a) && id in w.changes && a.Reassess?
    ensures id in Do(w, cfg, now, a).changes
            && Do(w, cfg, now, a).changes[id].status == StatusAfter(w, cfg, now, a, id)
  {
    hide After, Can, Reviewable, ReviewedReady, Review.Applied, Valid, WellFormed, PointedAt;
  }

  /**
   Every status is reached exactly so: running by a claim; ready or with actions required by a
   stored review, as it turned out; queued again by a confirmation; expired when time is up;
   failed, cancelled and applied each by the one act for it. Nothing else changes a status.
   */
  lemma StatusMovesExactly(w: World, cfg: Config, now: Time, a: Act, id: Id)
    requires WorldInv(w) && May(w, a) && id in w.changes
    ensures id in Do(w, cfg, now, a).changes
    ensures Do(w, cfg, now, a).changes[id].status == StatusAfter(w, cfg, now, a, id)
  {
    hide WorldInv, ChangeOk, After, Can, StatusAfter, SnapshotOf, Valid, WellFormed, Ending, Drafting;
    ActMovesChange(w, cfg, now, a, id);
    match a
    case ClaimNext(_, _) => ClaimMoves(w, cfg, now, a, id);
    case Renew(_, _) => PreparersMove(w, cfg, now, a, id);
    case Publish(_, _, _) => PreparersMove(w, cfg, now, a, id);
    case Fault(_, _, _, _) => PreparersMove(w, cfg, now, a, id);
    case Cancel(_, _, _) => CancelMoves(w, cfg, now, a, id);
    case AskCallback(_, _, _, _, _) => CallbackMoves(w, cfg, now, a, id);
    case Expire(_, _) => ExpiryMoves(w, cfg, now, a, id);
    case Reassess(_, _, _) => ReadingMoves(w, cfg, now, a, id);
    case EndApply(_, _, _) => ApplyMoves(w, cfg, now, a, id);
    case Create(p, request, expected, d, newId) => CreatingMovesNone(w, cfg, now, a, id);
    case _ => OthersApplyNothing(w, cfg, now, a, id);
  }

  lemma ApplyMoves(w: World, cfg: Config, now: Time, a: Act, id: Id)
    requires WorldInv(w) && May(w, a) && id in w.changes && a.EndApply?
    ensures id in Do(w, cfg, now, a).changes
            && Do(w, cfg, now, a).changes[id].status == StatusAfter(w, cfg, now, a, id)
  {
    hide WorldInv, Reviewable, ReviewedReady, Review.Applied;
    if w.changes[id].status != Status.Applied { BecomesApplied(w, cfg, now, a, id); }
    ActMovesChange(w, cfg, now, a, id);
  }

  lemma CreatingMovesNone(w: World, cfg: Config, now: Time, a: Act, id: Id)
    requires May(w, a) && id in w.changes && a.Create?
    ensures id in Do(w, cfg, now, a).changes && Do(w, cfg, now, a).changes[id] == w.changes[id]
            && StatusAfter(w, cfg, now, a, id) == w.changes[id].status
  {
    hide SnapshotOf, Valid, WellFormed;
  }

  lemma OthersApplyNothing(w: World, cfg: Config, now: Time, a: Act, id: Id)
    requires May(w, a) && id in w.changes && (a.BeginApply? || a.Outside?)
    ensures id in Do(w, cfg, now, a).changes && Do(w, cfg, now, a).changes[id] == w.changes[id]
            && StatusAfter(w, cfg, now, a, id) == w.changes[id].status
  {
    hide After, Can;
  }

  function Earlier(a: Time, b: Time): Time { if a < b then a else b }

  /** Its own preparer prolongs a lease that still runs. */
  predicate Prolongs(w: World, now: Time, a: Act, id: Id)
    requires id in w.changes
  {
    a.Renew? && a.id == id && GivenTo(w.changes[id], a.owner)
    && w.changes[id].leaseExpiresAt.Some? && now < w.changes[id].leaseExpiresAt.value
  }

  /**
   The lease goes to who claims the change and ends with its preparation; claimed or prolonged it
   runs ten seconds, but never past the deadline. The report is the last stored review, or fault.
   */
  lemma LeaseAndReportExactly(w: World, cfg: Config, now: Time, a: Act, id: Id)
    requires WorldInv(w) && May(w, a) && id in w.changes && !Applies(w, cfg, now, a, id)
    ensures id in Do(w, cfg, now, a).changes
    ensures var c, c2 := w.changes[id], Do(w, cfg, now, a).changes[id];
            && c2.leaseOwner == (if Claims(w, now, a, id) then Some(a.owner)
                                 else if c2.status == Status.Running then c.leaseOwner else None)
            && (Claims(w, now, a, id) || Prolongs(w, now, a, id) ==>
                  c2.leaseExpiresAt == Some(Earlier(now + 10000, c.executionDeadline)))
            && (c2.status == Status.Running && !Claims(w, now, a, id) && !Prolongs(w, now, a, id) ==>
                  c2.leaseExpiresAt == c.leaseExpiresAt)
            && c2.diagnostics == (if Reviews(w, a, id) then Some(ResultOf(a))
                                  else if a.Fault? && a.id == id && GivenTo(c, a.owner) then Some(a.result)
                                  else c.diagnostics)
  {
    hide WorldInv, After, Can, Reviewable, ReviewedReady, Review.Applied, SnapshotOf, Valid, WellFormed, Underway;
    MaybeFact(w, id);
    ActMovesChange(w, cfg, now, a, id);
  }

  // ----- making a change -----

  /** What the draft expects of a host it edits. */
  predicate ExpectsHost(db: Db, p: Id, d: Draft, h: Id, revision: nat) {
    ((p, h) in db.links || h in d.links) && h in db.hosts && db.hosts[h].configRevision == revision
  }

  /** A host the draft or the product's links speak of. */
  predicate SpokenOf(db: Db, p: Id, d: Draft, h: Id) {
    (p, h) in db.links || h in d.links || h in d.limits || h in d.identities || d.target == Some(h)
  }

  /** The draft was made against the configuration as it is. */
  ghost predicate AgainstCurrent(db: Db, p: Id, expected: nat, d: Draft)
    requires p in db.products
  {
    && expected == db.products[p].revision
    && (forall h :: SpokenOf(db, p, d, h) ==> h in db.hosts)
    && (forall h :: h in d.links ==>
                      d.links[h].expected == if (p, h) in db.links then Some(db.links[(p, h)].revision) else None)
    && (forall h :: h in d.limits ==> ExpectsHost(db, p, d, h, d.limits[h].expected))
    && (forall h :: h in d.identities ==> ExpectsHost(db, p, d, h, d.identities[h]) && !db.hosts[h].verified)
    && (forall h :: h in d.shared ==>
                      && ExpectsHost(db, p, d, h, d.shared[h].expected) && h in d.limits
                      && d.limits[h].maxInstances == d.shared[h].maxInstances)
  }

  lemma SnapshotFacts(db: Db, p: Id, d: Draft)
    requires p in db.products
    ensures SnapshotOf(db, p, d).Some? <==> forall h :: SpokenOf(db, p, d, h) ==> h in db.hosts
    ensures SnapshotOf(db, p, d).Some? ==>
              var snap := SnapshotOf(db, p, d).value;
              && snap.product.revision == db.products[p].revision
              && (forall h :: h in snap.links <==> (p, h) in db.links)
              && (forall h :: h in snap.links ==> snap.links[h] == db.links[(p, h)])
              && (forall h :: h in snap.hosts <==> SpokenOf(db, p, d, h))
              && (forall h :: h in snap.hosts ==> h in db.hosts && snap.hosts[h].revision == db.hosts[h].configRevision
                                                  && snap.hosts[h].verified == db.hosts[h].verified)
  {
    hide MembersOf;
    forall h ensures h in Mentioned(db, p, d) <==> SpokenOf(db, p, d, h)
             ensures h in OwnHosts(db, p) <==> (p, h) in db.links
    {
      if (p, h) in db.links { assert (p, h).1 in OwnHosts(db, p); }
    }
    hide OwnHosts, Mentioned, SpokenOf;
  }

  lemma ExpectsExactly(db: Db, p: Id, d: Draft, snap: Snapshot, h: Id, revision: nat)
    requires p in db.products && SnapshotOf(db, p, d) == Some(snap)
    requires h in d.limits || h in d.identities
    ensures Expects(d, snap, h, revision) <==> ExpectsHost(db, p, d, h, revision)
    ensures h in snap.hosts && h in db.hosts && snap.hosts[h].verified == db.hosts[h].verified
  {
    hide SnapshotOf;
    SnapshotFacts(db, p, d);
    assert SpokenOf(db, p, d, h);
  }

  lemma CurrentExactly(db: Db, p: Id, expected: nat, d: Draft)
    requires p in db.products
    ensures SnapshotOf(db, p, d).Some? && Valid(d, expected, SnapshotOf(db, p, d).value) <==>
              AgainstCurrent(db, p, expected, d)
  {
    hide SnapshotOf, Expects, ExpectsHost, SpokenOf;
    SnapshotFacts(db, p, d);
    if SnapshotOf(db, p, d).Some? {
      var snap := SnapshotOf(db, p, d).value;
      forall h, revision: nat | h in d.limits || h in d.identities
        ensures Expects(d, snap, h, revision) <==> ExpectsHost(db, p, d, h, revision)
      {
        ExpectsExactly(db, p, d, snap, h, revision);
      }
      forall h | h in d.limits || h in d.identities
        ensures h in snap.hosts && h in db.hosts && snap.hosts[h].verified == db.hosts[h].verified
      {
        ExpectsExactly(db, p, d, snap, h, 0);
      }
      SameParts(db, p, expected, d, snap);
    }
  }

  lemma SameParts(db: Db, p: Id, expected: nat, d: Draft, snap: Snapshot)
    requires p in db.products && snap.product.revision == db.products[p].revision
    requires forall h :: SpokenOf(db, p, d, h) ==> h in db.hosts
    requires forall h :: h in snap.links <==> (p, h) in db.links
    requires forall h :: h in snap.links ==> snap.links[h] == db.links[(p, h)]
    requires forall h, revision: nat :: h in d.limits || h in d.identities ==>
                                          (Expects(d, snap, h, revision) <==> ExpectsHost(db, p, d, h, revision))
    requires forall h :: h in d.limits || h in d.identities ==>
                           h in snap.hosts && h in db.hosts && snap.hosts[h].verified == db.hosts[h].verified
    ensures Valid(d, expected, snap) <==> AgainstCurrent(db, p, expected, d)
  {
    hide Expects, ExpectsHost, SpokenOf;
    assert Valid(d, expected, snap) ==> AgainstCurrent(db, p, expected, d);
  }

  /**
   A new request makes a change exactly if its draft is against the current configuration; a
   request made before is answered with the change it made if it says the same, and makes no other.
   */
  lemma CreatedExactly(w: World, now: Time, p: Id, request: Id, expected: nat, d: Draft, newId: Id)
    requires newId !in w.changes && newId !in w.index.Values
    requires (p, request) in w.index ==> w.index[(p, request)] in w.changes
    ensures var (w2, reply) := Drafting(w, now, p, request, expected, d, newId);
            var listed := p in w.db.products && SnapshotOf(w.db, p, d).Some?;
            && (newId in w2.changes <==>
                  (p, request) !in w.index && p in w.db.products && AgainstCurrent(w.db, p, expected, d))
            && (newId in w2.changes ==>
                  && reply == Answered(newId) && w2.index == w.index[(p, request) := newId]
                  && var c := w2.changes[newId];
                     && w2.changes == w.changes[newId := c]
                     && c.product == p && c.request == request && c.expected == expected && c.draft == d
                     && SnapshotOf(w.db, p, d) == Some(c.snapshot)
                     && c.status == Status.Queued && c.leaseOwner.None? && c.diagnostics.None?
                     && c.executionDeadline == now + 120000 && c.expiresAt == now + 1800000)
            && (newId !in w2.changes ==> w2 == w)
            && (reply.Threw? ==> reply.why == if p in w.db.products then Conflict else NotFound)
            && (listed && (p, request) in w.index ==>
                  var c := w.changes[w.index[(p, request)]];
                  reply == if c.draft == d && c.expected == expected then Answered(w.index[(p, request)])
                           else Threw(Conflict))
            && (newId !in w2.changes && !(listed && (p, request) in w.index) ==> reply.Threw?)
  {
    hide SnapshotOf, Valid, AgainstCurrent;
    if p in w.db.products { CurrentExactly(w.db, p, expected, d); }
  }

  /** Apply begins exactly for a ready change of the product, at the revision named, before it expires. */
  lemma BegunExactly(w: World, now: Time, p: Id, id: Id, revision: nat)
    requires p !in w.applying
    ensures var (w2, reply) := Beginning(w, now, p, id, revision);
            && (p in w2.applying <==>
                  && p in w.db.products && id in w.changes && w.changes[id].product == p
                  && w.changes[id].status == Status.Ready && w.changes[id].revision == revision
                  && now < w.changes[id].expiresAt)
            && (p in w2.applying ==> w2 == w.(applying := w.applying[p := Begun(id, now)]))
            && (p !in w2.applying ==> w2 == w)
            && (reply.Answered? <==>
                  p in w2.applying
                  || (p in w.db.products && id in w.changes && w.changes[id].product == p
                      && w.changes[id].status == Status.Applied))
  {}

  /**
   A cancellation goes through exactly for a change of the product at its revision that is neither
   applied nor cancelled; a cancelled one is answered again, at any revision, and nothing is written.
   */
  lemma CancelledExactly(w: World, p: Id, id: Id, revision: nat)
    ensures var (w2, reply) := Cancelling(w, p, id, revision);
            var there := p in w.db.products && id in w.changes && w.changes[id].product == p;
            var again := there && w.changes[id].status == Status.Cancelled;
            && (w2 != w <==> there && !again && w.changes[id].status != Status.Applied
                             && w.changes[id].revision == revision)
            && (reply.Answered? <==> again || w2 != w) && (reply.Answered? ==> reply.value == id)
            && (reply.Threw? ==> reply.why == if there then Conflict else NotFound)
            && (w2 != w ==>
                  && id in w2.changes
                  && w2 == w.(changes := w.changes[id := w.changes[id].(
                                                           status := Status.Cancelled, leaseOwner := None,
                                                           leaseExpiresAt := None, revision := revision + 1)]))
  {
    if p in w.db.products && id in w.changes { assert w.changes[id].revision + 1 != w.changes[id].revision; }
  }

  /** No act moves a revision by more than one. */
  lemma RevisionsMoveByOne(w: World, cfg: Config, now: Time, a: Act, id: Id)
    requires May(w, a) && id in w.changes
    ensures id in Do(w, cfg, now, a).changes
    ensures var c, c2 := w.changes[id], Do(w, cfg, now, a).changes[id];
            c2.revision == if c2 == c || Prolongs(w, now, a, id) then c.revision else c.revision + 1
  {
    hide After, Can, Reviewable, ReviewedReady, Review.Applied, SnapshotOf, Valid, WellFormed, PointedAt;
  }

  /** What an administrator is told when an act does not go through. */
  lemma RefusedAs(w: World, cfg: Config, now: Time, p: Id, id: Id, revision: nat, confirmed: bool, instance: Id)
    ensures var (w2, reply) := AskingCallback(w, now, p, id, revision, confirmed, instance);
            reply.Threw? ==>
              w2 == w
              && reply.why == if p in w.db.products && id in w.changes && w.changes[id].product == p then Conflict
                              else NotFound
    ensures var (w2, reply) := Beginning(w, now, p, id, revision);
            reply.Threw? ==>
              w2 == w
              && reply.why == if p in w.db.products && id in w.changes && w.changes[id].product == p then Conflict
                              else NotFound
  {
    hide PointedAt;
  }

  /** An apply that does not go through releases its lock: too late it is rolled back, in time it is a conflict. */
  lemma NotAppliedAs(w: World, cfg: Config, now: Time, p: Id, setup: Setup, ls: Listings)
    requires p in w.applying && w.applying[p].id in w.changes
    ensures var (w2, reply) := Ending(w, cfg, now, p, setup, ls);
            reply.Threw? ==>
              w2 == w.(applying := w.applying - {p})
              && reply.why == if w.applying[p].at + 15000 < now then Internal else Conflict
  {
    hide Reviewable, ReviewedReady, Review.Applied;
  }
}
