/** Over every interleaving: one applied draft per product revision, one application per change, fenced preparers. */
module ChangeSafety {
  import opened Basics
  import opened Occupancy
  import opened Tables
  import opened Admission
  import opened Provisioning
  import opened Protocol
  import opened Frames
  import opened Invariants
  import opened Transactions
  import opened Review
  import opened ReviewEffects
  import opened ChangeControl

  // ----- product revisions -----

  /** No product is lost, and its configuration revision does not go back. */
  ghost predicate RevisionsGrow(db: Db, after: Db) {
    forall p :: p in db.products ==> p in after.products && db.products[p].revision <= after.products[p].revision
  }

  lemma StepRaisesRevisions(db: Db, cfg: Config, now: Time, step: Step)
    requires Can(db, step)
    ensures RevisionsGrow(db, After(db, cfg, now, step))
  {
    hide Finish, EditProduct, SetMode, RestoreLegacy, After, Can;
    if !WritesProducts(step) { StepLeaves(db, cfg, now, step); } else { ProductStepRaises(db, cfg, now, step); }
  }

  lemma ProductStepRaises(db: Db, cfg: Config, now: Time, step: Step)
    requires Can(db, step) && WritesProducts(step)
    ensures RevisionsGrow(db, After(db, cfg, now, step))
  {
    hide Finish, EditProduct, SetMode, RestoreLegacy, RevisionsGrow;
    match step
    case DoFinish(t) => FinishKeepsRevisions(db, now, t);
    case DoEditProduct(p, product) => EditRaises(db, p, product);
    case DoSetMode(p, mode) => ModeRaises(db, p, mode);
    case DoRestoreLegacy(p, target, deliveries) => LegacyRaises(db, p, target, deliveries);
  }

  lemma FinishKeepsRevisions(db: Db, now: Time, t: Ticket)
    ensures RevisionsGrow(db, Commit(db, Finish(db, now, t)))
  {}

  lemma EditRaises(db: Db, p: Id, product: Product)
    ensures RevisionsGrow(db, Commit(db, EditProduct(db, p, product)))
  {
    var o := EditProduct(db, p, product);
    if o.Done? {
      assert o.db.products.Keys == db.products.Keys;
      assert o.db.products[p].revision == db.products[p].revision + 1;
      assert forall q :: q in db.products && q != p ==> o.db.products[q] == db.products[q];
    }
  }

  lemma ModeRaises(db: Db, p: Id, mode: Mode)
    ensures RevisionsGrow(db, SetMode(db, p, mode))
  {}

  lemma LegacyRaises(db: Db, p: Id, target: Id, deliveries: bool)
    ensures RevisionsGrow(db, Commit(db, RestoreLegacy(db, p, target, deliveries)))
  {
    hide LegacyBlocked;
  }

  /** Applying a draft raises its product's revision by exactly one, and no other product's. */
  lemma ApplicationRaises(db: Db, setup: Setup, p: Id, d: Draft)
    requires p in db.products && WellFormed(d) && Review.Applied(db, setup, p, d).Done?
    ensures var after := Review.Applied(db, setup, p, d).db;
            && after.products.Keys == db.products.Keys
            && after.products[p].revision == db.products[p].revision + 1
            && forall q :: q in db.products && q != p ==> after.products[q] == db.products[q]
  {
    hide Detach, DeliveriesPending, WrittenHosts, WrittenLinks, OwnHosts;
    if d.purpose == ToDetach {
      DetachKeepsProducts(db, p, d.target.value, DeliveriesPending(db, setup, p, false, d.target.value));
    }
  }

  lemma DetachKeepsProducts(db: Db, p: Id, h: Id, deliveries: bool)
    requires Detach(db, p, h, deliveries).Done?
    ensures Detach(db, p, h, deliveries).db.products == db.products
  {
    hide DetachBlocked;
  }

  // ----- what one act does to a change -----

  /** The statuses an act may lead to. `Applied` may follow even `Expired`: the last write of apply is not guarded. */
  predicate Follows(was: Status, is_: Status) {
    match was
    case Queued => is_ == Status.Queued || is_ == Status.Running || is_ == Status.Expired || is_ == Status.Cancelled
    case Running =>
      is_ == Status.Running || is_ == Status.Ready || is_ == Status.ActionRequired || is_ == Status.Expired
      || is_ == Status.Failed || is_ == Status.Cancelled
    case ActionRequired =>
      is_ == Status.ActionRequired || is_ == Status.Ready || is_ == Status.Queued || is_ == Status.Expired
      || is_ == Status.Cancelled || is_ == Status.Applied
    case Ready =>
      is_ == Status.Ready || is_ == Status.ActionRequired || is_ == Status.Expired || is_ == Status.Cancelled
      || is_ == Status.Applied
    case Expired => is_ == Status.Expired || is_ == Status.Cancelled || is_ == Status.Applied
    case Failed => is_ == Status.Failed || is_ == Status.Cancelled
    case _ => is_ == was
  }

  ghost predicate ChangeMoved(was: Change, c: Change) {
    && SameDraft(was, c) && Follows(was.status, c.status)
    && (if c.status == was.status then was.revision <= c.revision else was.revision < c.revision)
  }

  ghost predicate ChangeOk(w: World, id: Id)
    requires id in w.changes
  {
    var c := w.changes[id];
    && c.product in w.db.products && WellFormed(c.draft) && Valid(c.draft, c.expected, c.snapshot)
    && (c.product, c.request) in w.index && w.index[(c.product, c.request)] == id
    && (c.status == Status.Running <==> c.leaseOwner.Some?)
    && (c.leaseOwner.Some? ==> c.leaseOwner.value in w.tokens)
    && c.expected <= w.db.products[c.product].revision
    && (if c.status == Status.Applied then w.applies[id] == 1 && c.expected < w.db.products[c.product].revision
        else w.applies[id] == 0)
  }

  ghost predicate ApplyingOk(w: World) {
    forall p :: p in w.applying ==> Underway(w, p)
  }

  ghost predicate Underway(w: World, p: Id)
    requires p in w.applying
  {
    var id := w.applying[p].id;
    id in w.changes && w.changes[id].product == p && w.applying[p].at < w.changes[id].expiresAt &&
    var status := w.changes[id].status;
    status == Status.Ready || status == Status.ActionRequired || status == Status.Expired
  }

  /** Two applied changes of a product were drafted against different revisions of it. */
  ghost predicate OnePerRevision(w: World) {
    forall a, b :: a in w.changes && b in w.changes && AppliedTogether(w.changes[a], w.changes[b]) ==> a == b
  }

  predicate AppliedTogether(a: Change, b: Change) {
    a.status == Status.Applied && b.status == Status.Applied && a.product == b.product && a.expected == b.expected
  }

  ghost predicate WorldInv(w: World) {
    && (forall id :: id in w.changes ==> ChangeOk(w, id))
    && ApplyingOk(w) && OnePerRevision(w)
    && (forall id :: id in w.applies ==> id in w.changes)
  }

  /** An act that writes at most the one change, and neither the tables nor the history of applications. */
  ghost predicate Touches(w: World, w2: World, id: Id) {
    && w2.db == w.db && w2.applies == w.applies && w2.index == w.index && w2.applying == w.applying
       && w.tokens <= w2.tokens
    && (w2.changes == w.changes
        || (id in w.changes && id in w2.changes && w2.changes == w.changes[id := w2.changes[id]]
            && ChangeMoved(w.changes[id], w2.changes[id])))
  }

  /** The lease columns agree with the status, and nothing but apply applies. */
  ghost predicate TouchedWell(w: World, w2: World, id: Id) {
    id in w.changes && id in w2.changes ==>
      var c := w2.changes[id];
      && (c.status == Status.Running <==> c.leaseOwner.Some?)
      && (c.leaseOwner.Some? ==> c.leaseOwner.value in w2.tokens)
      && (c.status == Status.Applied ==> w.changes[id].status == Status.Applied)
      && (c.product in w.applying && w.applying[c.product].id == id ==>
            c.status == Status.Ready || c.status == Status.ActionRequired || c.status == Status.Expired)
  }

  lemma TouchedChangeOk(w: World, w2: World, id: Id, k: Id)
    requires k in w.changes && ChangeOk(w, k) && Touches(w, w2, id) && TouchedWell(w, w2, id) && k in w2.changes
    ensures ChangeOk(w2, k)
  {
    hide Valid;
  }

  lemma TouchedUnderway(w: World, w2: World, id: Id, p: Id)
    requires p in w.applying && Underway(w, p) && Touches(w, w2, id) && TouchedWell(w, w2, id)
    ensures Underway(w2, p)
  {}

  lemma TouchKeeps(w: World, w2: World, id: Id)
    requires WorldInv(w) && Touches(w, w2, id) && TouchedWell(w, w2, id)
    ensures WorldInv(w2)
  {
    hide ChangeOk, Underway, Follows;
    forall k | k in w2.changes ensures ChangeOk(w2, k) { TouchedChangeOk(w, w2, id, k); }
    forall p | p in w2.applying ensures Underway(w2, p) { TouchedUnderway(w, w2, id, p); }
    forall a, b | a in w2.changes && b in w2.changes && AppliedTogether(w2.changes[a], w2.changes[b]) ensures a == b {
      assert AppliedTogether(w.changes[a], w.changes[b]);
    }
  }

  /** What the invariant says of one change. */
  lemma ChangeFact(w: World, id: Id)
    requires WorldInv(w) && id in w.changes
    ensures ChangeOk(w, id)
    ensures w.changes[id].product in w.applying && w.applying[w.changes[id].product].id == id ==>
              Underway(w, w.changes[id].product)
  {
    hide ChangeOk, OnePerRevision;
  }

  lemma GuardedActsTouch(w: World, now: Time, id: Id, seen: Change, result: Diagnostics)
    requires id in w.changes && ChangeOk(w, id)
    requires w.changes[id].product in w.applying && w.applying[w.changes[id].product].id == id ==>
               Underway(w, w.changes[id].product)
    ensures Touches(w, Expiring(w, now, id, seen), id) && TouchedWell(w, Expiring(w, now, id, seen), id)
    ensures Touches(w, Reassessed(w, id, seen, result), id) && TouchedWell(w, Reassessed(w, id, seen, result), id)
  {
    hide Valid, WellFormed;
  }

  lemma AdministratorTouches(w: World, now: Time, p: Id, id: Id, revision: nat, confirmed: bool, instance: Id)
    requires p !in w.applying && (id in w.changes ==> ChangeOk(w, id))
    requires id in w.changes && w.changes[id].product in w.applying && w.applying[w.changes[id].product].id == id ==>
               Underway(w, w.changes[id].product)
    ensures Touches(w, Cancelling(w, p, id, revision).0, id) && TouchedWell(w, Cancelling(w, p, id, revision).0, id)
    ensures Touches(w, AskingCallback(w, now, p, id, revision, confirmed, instance).0, id)
            && TouchedWell(w, AskingCallback(w, now, p, id, revision, confirmed, instance).0, id)
  {
    hide Valid, WellFormed;
  }

  lemma ClaimTouches(w: World, now: Time, id: Id, owner: Token)
    requires id in w.changes ==> ChangeOk(w, id)
    requires id in w.changes && w.changes[id].product in w.applying && w.applying[w.changes[id].product].id == id ==>
               Underway(w, w.changes[id].product)
    ensures Touches(w, Claiming(w, now, id, owner), id) && TouchedWell(w, Claiming(w, now, id, owner), id)
  {
    hide Valid, WellFormed;
  }

  lemma PreparerTouches(w: World, now: Time, id: Id, owner: Token, result: Diagnostics, aborted: bool)
    requires id in w.changes ==> ChangeOk(w, id)
    requires id in w.changes && w.changes[id].product in w.applying && w.applying[w.changes[id].product].id == id ==>
               Underway(w, w.changes[id].product)
    ensures Touches(w, Renewing(w, now, id, owner), id) && TouchedWell(w, Renewing(w, now, id, owner), id)
    ensures Touches(w, Publishing(w, id, owner, result), id) && TouchedWell(w, Publishing(w, id, owner, result), id)
    ensures Touches(w, Faulting(w, id, owner, aborted, result), id)
            && TouchedWell(w, Faulting(w, id, owner, aborted, result), id)
  {
    hide Valid, WellFormed;
  }

  lemma CreateKeeps(w: World, now: Time, p: Id, request: Id, expected: nat, d: Draft, newId: Id)
    requires WorldInv(w) && p !in w.applying && WellFormed(d) && newId !in w.changes && w.applies[newId] == 0
    ensures WorldInv(Drafting(w, now, p, request, expected, d, newId).0)
  {
    hide Valid, WellFormed, Follows, ChangeOk, SnapshotOf;
    var w2 := Drafting(w, now, p, request, expected, d, newId).0;
    if newId in w2.changes {
      forall id | id in w2.changes ensures ChangeOk(w2, id) {
        if id == newId {
          DraftedOk(w, now, p, request, expected, d, newId);
        } else {
          ChangeFact(w, id); OlderRowOk(w, w2, newId, id);
        }
      }
      forall q | q in w2.applying ensures Underway(w2, q) { assert Underway(w, q); }
      forall a, b | a in w2.changes && b in w2.changes && AppliedTogether(w2.changes[a], w2.changes[b]) ensures a == b {
        assert AppliedTogether(w.changes[a], w.changes[b]);
      }
    } else {
      DraftingNothing(w, now, p, request, expected, d, newId);
    }
  }

  lemma DraftingNothing(w: World, now: Time, p: Id, request: Id, expected: nat, d: Draft, newId: Id)
    requires newId !in Drafting(w, now, p, request, expected, d, newId).0.changes
    ensures Drafting(w, now, p, request, expected, d, newId).0 == w
  {
    hide Valid, SnapshotOf;
  }

  lemma DraftedOk(w: World, now: Time, p: Id, request: Id, expected: nat, d: Draft, newId: Id)
    requires WellFormed(d) && newId !in w.changes && w.applies[newId] == 0
    requires newId in Drafting(w, now, p, request, expected, d, newId).0.changes
    ensures ChangeOk(Drafting(w, now, p, request, expected, d, newId).0, newId)
  {
    hide Valid, WellFormed, SnapshotOf;
    SnapshotProduct(w.db, p, d);
  }

  lemma OlderRowOk(w: World, w2: World, newId: Id, id: Id)
    requires id in w.changes && ChangeOk(w, id) && newId !in w.changes && newId in w2.changes
    requires w2.changes == w.changes[newId := w2.changes[newId]] && w2.db == w.db && w2.tokens == w.tokens
             && w2.applies == w.applies
    requires (w2.changes[newId].product, w2.changes[newId].request) !in w.index
    requires w2.index == w.index[(w2.changes[newId].product, w2.changes[newId].request) := newId]
    ensures ChangeOk(w2, id)
  {
    hide Valid, WellFormed;
  }

  lemma SnapshotProduct(db: Db, p: Id, d: Draft)
    ensures p in db.products && SnapshotOf(db, p, d).Some? ==>
              SnapshotOf(db, p, d).value.product.revision == db.products[p].revision
    ensures p in db.products && SnapshotOf(db, p, d).Some? ==> forall expected: nat ::
                                                                 Valid(d, expected, SnapshotOf(db, p, d).value) ==>
                                                                   expected == db.products[p].revision
  {}

  lemma BeginKeeps(w: World, now: Time, p: Id, id: Id, revision: nat)
    requires WorldInv(w) && p !in w.applying
    ensures WorldInv(Beginning(w, now, p, id, revision).0)
  {
    hide WorldInv;
    if Beginning(w, now, p, id, revision).0 != w { LockKeeps(w, now, p, id); }
  }

  /** Apply takes the product lock for a change that is ready and has not expired. */
  lemma LockKeeps(w: World, now: Time, p: Id, id: Id)
    requires WorldInv(w) && id in w.changes && w.changes[id].product == p && w.changes[id].status == Status.Ready
    requires now < w.changes[id].expiresAt
    ensures WorldInv(w.(applying := w.applying[p := Begun(id, now)]))
  {
    hide ChangeOk;
    var w2 := w.(applying := w.applying[p := Begun(id, now)]);
    forall k | k in w2.changes ensures ChangeOk(w2, k) { ChangeFact(w, k); SameRowOk(w, w2, k); }
    forall q | q in w2.applying ensures Underway(w2, q) { if q != p { assert Underway(w, q); } }
  }

  lemma SameRowOk(w: World, w2: World, k: Id)
    requires k in w.changes && ChangeOk(w, k) && k in w2.changes && w2.changes[k] == w.changes[k] && w2.index == w.index
    requires w.tokens <= w2.tokens && w2.applies[k] == w.applies[k] && RevisionsGrow(w.db, w2.db)
    ensures ChangeOk(w2, k)
  {
    hide Valid, WellFormed;
  }

  lemma OutsideKeeps(w: World, cfg: Config, now: Time, step: Step)
    requires WorldInv(w) && Can(w.db, step)
    ensures WorldInv(w.(db := After(w.db, cfg, now, step)))
  {
    hide Valid, WellFormed, Follows, ChangeOk, After, Can;
    var w2 := w.(db := After(w.db, cfg, now, step));
    StepRaisesRevisions(w.db, cfg, now, step);
    forall k | k in w2.changes ensures ChangeOk(w2, k) { ChangeFact(w, k); SameRowOk(w, w2, k); }
    forall q | q in w2.applying ensures Underway(w2, q) { assert Underway(w, q); }
  }

  /** The review inside apply finds the product at the revision the draft was made against. */
  lemma ReviewedAtItsRevision(db: Db, cfg: Config, setup: Setup, now: Time, p: Id, c: Change, ls: Listings)
    requires Reviewable(db, p, c.draft, c.snapshot, ls)
             && ReviewedReady(db, cfg, setup, now, p, c.draft, c.snapshot, ls)
    requires Valid(c.draft, c.expected, c.snapshot)
    ensures p in db.products && db.products[p].revision == c.expected && SnapshotOf(db, p, c.draft) == Some(c.snapshot)
  {
    hide RaisedForward, RaisedForReversal, Known;
    assert Raised(db, cfg, setup, now, p, c.draft, c.snapshot, ls, Check(ConfigurationChanged, None, true))
           || SnapshotOf(db, p, c.draft) == Some(c.snapshot);
  }

  lemma EndKeeps(w: World, cfg: Config, now: Time, p: Id, setup: Setup, ls: Listings)
    requires WorldInv(w) && p in w.applying && w.applying[p].id in w.changes
    ensures WorldInv(Ending(w, cfg, now, p, setup, ls).0)
  {
    hide Valid, WellFormed, Follows, ChangeOk, Reviewable, ReviewedReady, Review.Applied;
    var w2 := Ending(w, cfg, now, p, setup, ls).0;
    var id := w.applying[p].id;
    var c := w.changes[id];
    assert Underway(w, p);
    ChangeFact(w, id);
    EndFacts(w, cfg, now, p, setup, ls);
    forall k | k in w2.changes ensures ChangeOk(w2, k) {
      ChangeFact(w, k);
      if k != id || w2.changes == w.changes { SameRowOk(w, w2, k); } else { AppliedRowOk(w, w2, id); }
    }
    forall q | q in w2.applying ensures Underway(w2, q) { assert Underway(w, q); }
    forall a, b | a in w2.changes && b in w2.changes && AppliedTogether(w2.changes[a], w2.changes[b]) ensures a == b {
      NoTwin(w, w2, id, a, b);
    }
  }

  /** What the last step of apply does: all of it, or nothing but releasing the lock. */
  lemma EndFacts(w: World, cfg: Config, now: Time, p: Id, setup: Setup, ls: Listings)
    requires p in w.applying && w.applying[p].id in w.changes && ChangeOk(w, w.applying[p].id)
             && w.changes[w.applying[p].id].product == p
    ensures var w2, id := Ending(w, cfg, now, p, setup, ls).0, w.applying[p].id;
            && w2.applying == w.applying - {p} && w2.index == w.index && w2.tokens == w.tokens
               && RevisionsGrow(w.db, w2.db)
            && (if w2.changes == w.changes then w2.db == w.db && w2.applies == w.applies
                else
                  && w2.changes == w.changes[id := Freed(w.changes[id], Status.Applied)]
                     && w2.applies == w.applies[id := w.applies[id] + 1]
                  && p in w.db.products && w.db.products[p].revision == w.changes[id].expected
                  && p in w2.db.products && w2.db.products[p].revision == w.changes[id].expected + 1)
  {
    hide Reviewable, ReviewedReady, Valid, Review.Applied;
    var c := w.changes[w.applying[p].id];
    var w2 := Ending(w, cfg, now, p, setup, ls).0;
    if w2.changes != w.changes {
      ReviewedAtItsRevision(w.db, cfg, setup, now, p, c, ls);
      ApplicationRaises(w.db, setup, p, c.draft);
    } else {
      NotApplied(w, cfg, now, p, setup, ls);
    }
  }

  lemma NotApplied(w: World, cfg: Config, now: Time, p: Id, setup: Setup, ls: Listings)
    requires p in w.applying && w.applying[p].id in w.changes
    requires Ending(w, cfg, now, p, setup, ls).0.changes == w.changes
    ensures Ending(w, cfg, now, p, setup, ls).0 == w.(applying := w.applying - {p})
  {
    hide Reviewable, ReviewedReady, Review.Applied;
    var id := w.applying[p].id;
    assert Freed(w.changes[id], Status.Applied).revision != w.changes[id].revision;
    assert w.changes[id := Freed(w.changes[id], Status.Applied)][id] != w.changes[id];
  }

  lemma AppliedRowOk(w: World, w2: World, id: Id)
    requires id in w.changes && ChangeOk(w, id) && w.changes[id].status != Status.Applied
    requires w2.changes == w.changes[id := Freed(w.changes[id], Status.Applied)]
             && w2.applies == w.applies[id := w.applies[id] + 1]
    requires w2.index == w.index && w2.tokens == w.tokens && w.changes[id].product in w2.db.products
    requires w2.db.products[w.changes[id].product].revision == w.changes[id].expected + 1
    ensures ChangeOk(w2, id)
  {
    hide Valid, WellFormed;
  }

  /** Every earlier application of the product was drafted against an earlier revision. */
  lemma NoTwin(w: World, w2: World, id: Id, a: Id, b: Id)
    requires WorldInv(w) && id in w.changes && a in w2.changes && b in w2.changes
             && AppliedTogether(w2.changes[a], w2.changes[b])
    requires w2.changes == w.changes
             || (w2.changes == w.changes[id := Freed(w.changes[id], Status.Applied)]
                 && w.changes[id].product in w.db.products
                 && w.db.products[w.changes[id].product].revision == w.changes[id].expected)
    ensures a == b
  {
    hide Valid, WellFormed, Follows;
    if w2.changes == w.changes || (a != id && b != id) { assert AppliedTogether(w.changes[a], w.changes[b]); }
    else if a != id { ChangeFact(w, a); }
    else if b != id { ChangeFact(w, b); }
  }

  lemma ActKeeps(w: World, cfg: Config, now: Time, a: Act)
    requires WorldInv(w) && May(w, a)
    ensures WorldInv(Do(w, cfg, now, a))
  {
    hide WorldInv, ChangeOk, After, Can, Ending, Drafting;
    match a
    case Create(p, request, expected, d, newId) => CreateKeeps(w, now, p, request, expected, d, newId);
    case Expire(id, seen) =>
      ChangeFact(w, id);
      GuardedActsTouch(w, now, id, seen, Diagnostics(true, {}, 0));
      TouchKeeps(w, Expiring(w, now, id, seen), id);
    case Reassess(id, seen, result) =>
      ChangeFact(w, id);
      GuardedActsTouch(w, now, id, seen, result);
      TouchKeeps(w, Reassessed(w, id, seen, result), id);
    case Cancel(p, id, revision) =>
      MaybeFact(w, id);
      AdministratorTouches(w, now, p, id, revision, true, 0);
      TouchKeeps(w, Cancelling(w, p, id, revision).0, id);
    case AskCallback(p, id, revision, confirmed, instance) =>
      MaybeFact(w, id);
      AdministratorTouches(w, now, p, id, revision, confirmed, instance);
      TouchKeeps(w, AskingCallback(w, now, p, id, revision, confirmed, instance).0, id);
    case BeginApply(p, id, revision) => BeginKeeps(w, now, p, id, revision);
    case EndApply(p, setup, ls) => EndKeeps(w, cfg, now, p, setup, ls);
    case ClaimNext(id, owner) =>
      MaybeFact(w, id);
      ClaimTouches(w, now, id, owner);
      TouchKeeps(w, Claiming(w, now, id, owner), id);
    case Renew(id, owner) =>
      MaybeFact(w, id);
      PreparerTouches(w, now, id, owner, Diagnostics(true, {}, 0), true);
      TouchKeeps(w, Renewing(w, now, id, owner), id);
    case Publish(id, owner, result) =>
      MaybeFact(w, id);
      PreparerTouches(w, now, id, owner, result, true);
      TouchKeeps(w, Publishing(w, id, owner, result), id);
    case Fault(id, owner, aborted, result) =>
      MaybeFact(w, id);
      PreparerTouches(w, now, id, owner, result, aborted);
      TouchKeeps(w, Faulting(w, id, owner, aborted, result), id);
    case Outside(step) => OutsideKeeps(w, cfg, now, step);
  }

  lemma MaybeFact(w: World, id: Id)
    requires WorldInv(w)
    ensures id in w.changes ==>
              ChangeOk(w, id)
              && (w.changes[id].product in w.applying && w.applying[w.changes[id].product].id == id ==>
                    Underway(w, w.changes[id].product))
  {
    hide WorldInv, ChangeOk, Underway;
    if id in w.changes { ChangeFact(w, id); }
  }

  // ----- every act on every change -----

  lemma TouchMoves(w: World, w2: World, id: Id, k: Id)
    requires Touches(w, w2, id) && k in w.changes
    ensures k in w2.changes && ChangeMoved(w.changes[k], w2.changes[k])
  {}

  lemma ActMovesChange(w: World, cfg: Config, now: Time, a: Act, k: Id)
    requires WorldInv(w) && May(w, a) && k in w.changes
    ensures k in Do(w, cfg, now, a).changes && ChangeMoved(w.changes[k], Do(w, cfg, now, a).changes[k])
  {
    hide WorldInv, ChangeOk, After, Can, Ending, Drafting, Touches, ChangeMoved, TouchedWell, Underway, SameDraft;
    match a
    case Create(p, request, expected, d, newId) => DraftingSpares(w, now, p, request, expected, d, newId, k);
    case Expire(id, seen) =>
      ChangeFact(w, id);
      GuardedActsTouch(w, now, id, seen, Diagnostics(true, {}, 0));
      TouchMoves(w, Expiring(w, now, id, seen), id, k);
    case Reassess(id, seen, result) =>
      ChangeFact(w, id);
      GuardedActsTouch(w, now, id, seen, result);
      TouchMoves(w, Reassessed(w, id, seen, result), id, k);
    case Cancel(p, id, revision) =>
      MaybeFact(w, id);
      AdministratorTouches(w, now, p, id, revision, true, 0);
      TouchMoves(w, Cancelling(w, p, id, revision).0, id, k);
    case AskCallback(p, id, revision, confirmed, instance) =>
      MaybeFact(w, id);
      AdministratorTouches(w, now, p, id, revision, confirmed, instance);
      TouchMoves(w, AskingCallback(w, now, p, id, revision, confirmed, instance).0, id, k);
    case EndApply(p, setup, ls) => EndMoves(w, cfg, now, p, setup, ls, k);
    case ClaimNext(id, owner) =>
      MaybeFact(w, id);
      ClaimTouches(w, now, id, owner);
      TouchMoves(w, Claiming(w, now, id, owner), id, k);
    case Renew(id, owner) =>
      MaybeFact(w, id);
      PreparerTouches(w, now, id, owner, Diagnostics(true, {}, 0), true);
      TouchMoves(w, Renewing(w, now, id, owner), id, k);
    case Publish(id, owner, result) =>
      MaybeFact(w, id);
      PreparerTouches(w, now, id, owner, result, true);
      TouchMoves(w, Publishing(w, id, owner, result), id, k);
    case Fault(id, owner, aborted, result) =>
      MaybeFact(w, id);
      PreparerTouches(w, now, id, owner, result, aborted);
      TouchMoves(w, Faulting(w, id, owner, aborted, result), id, k);
    case _ => StillMoved(w.changes[k]);
  }

  lemma StillMoved(c: Change)
    ensures ChangeMoved(c, c)
  {}

  lemma DraftingSpares(w: World, now: Time, p: Id, request: Id, expected: nat, d: Draft, newId: Id, k: Id)
    requires k in w.changes && newId !in w.changes
    ensures k in Drafting(w, now, p, request, expected, d, newId).0.changes
            && ChangeMoved(w.changes[k], Drafting(w, now, p, request, expected, d, newId).0.changes[k])
  {
    hide SnapshotOf, Valid;
  }

  lemma EndMoves(w: World, cfg: Config, now: Time, p: Id, setup: Setup, ls: Listings, k: Id)
    requires WorldInv(w) && p in w.applying && w.applying[p].id in w.changes && k in w.changes
    ensures k in Ending(w, cfg, now, p, setup, ls).0.changes
            && ChangeMoved(w.changes[k], Ending(w, cfg, now, p, setup, ls).0.changes[k])
  {
    hide ChangeOk, Ending;
    var id := w.applying[p].id;
    assert Underway(w, p);
    ChangeFact(w, id);
    EndFacts(w, cfg, now, p, setup, ls);
  }

  // ----- the tables under change control -----

  /** Apply's writes keep the invariants, restoring legacy mode included, because a ready review came first. */
  lemma EndKeepsTables(w: World, cfg: Config, now: Time, p: Id, setup: Setup, ls: Listings)
    requires Inv(w.db) && p in w.applying && w.applying[p].id in w.changes
    ensures Inv(Ending(w, cfg, now, p, setup, ls).0.db)
  {
    hide Inv, Reviewable, ReviewedReady, Review.Applied, SnapshotOf;
    var c := w.changes[w.applying[p].id];
    if Ending(w, cfg, now, p, setup, ls).0.db != w.db {
      ReviewableFacts(w.db, p, c.draft, c.snapshot, ls);
      if c.draft.purpose == ToLegacy {
        ReadyIsCurrent(w.db, cfg, setup, now, p, c.draft, c.snapshot, ls);
        ReversalDelivers(w.db, cfg, setup, now, p, c.draft, c.snapshot, ls);
      }
      AppliedKeepsInv(w.db, setup, p, c.draft);
    }
  }

  lemma ActKeepsTables(w: World, cfg: Config, now: Time, a: Act)
    requires Inv(w.db) && May(w, a)
    ensures Inv(Do(w, cfg, now, a).db)
  {
    hide Inv, After, Can, Ending, SnapshotOf, Valid, WellFormed;
    match a
    case EndApply(p, setup, ls) => EndKeepsTables(w, cfg, now, p, setup, ls);
    case Outside(step) => StepKeepsInv(w.db, cfg, now, step);
    case _ =>
  }

  // ----- whole courses -----

  datatype Moment = Moment(now: Time, act: Act)

  ghost predicate IsCourse(cfg: Config, worlds: seq<World>, moments: seq<Moment>) {
    && |worlds| == |moments| + 1
    && forall k :: 0 <= k < |moments| ==> Turns(cfg, worlds[k], moments[k], worlds[k + 1])
  }

  ghost predicate Turns(cfg: Config, w: World, m: Moment, w2: World) {
    May(w, m.act) && w2 == Do(w, cfg, m.now, m.act)
  }

  lemma NoChangesYet(db: Db)
    ensures WorldInv(World(db, map[], map[], map[], {}, multiset{}))
  {}

  lemma {:induction false} CourseKeepsInv(cfg: Config, worlds: seq<World>, moments: seq<Moment>, k: nat)
    requires IsCourse(cfg, worlds, moments) && WorldInv(worlds[0]) && k < |worlds|
    ensures WorldInv(worlds[k])
  {
    hide WorldInv, May, Do;
    if k > 0 {
      CourseKeepsInv(cfg, worlds, moments, k - 1);
      assert Turns(cfg, worlds[k - 1], moments[k - 1], worlds[k]);
      ActKeeps(worlds[k - 1], cfg, moments[k - 1].now, moments[k - 1].act);
    }
  }

  /** In every world of a course the shared tables keep their invariants, whatever changes were applied. */
  lemma {:induction false} CourseKeepsTables(cfg: Config, worlds: seq<World>, moments: seq<Moment>, k: nat)
    requires IsCourse(cfg, worlds, moments) && Inv(worlds[0].db) && k < |worlds|
    ensures Inv(worlds[k].db)
  {
    hide Inv, May, Do;
    if k > 0 {
      CourseKeepsTables(cfg, worlds, moments, k - 1);
      assert Turns(cfg, worlds[k - 1], moments[k - 1], worlds[k]);
      ActKeepsTables(worlds[k - 1], cfg, moments[k - 1].now, moments[k - 1].act);
    }
  }

  /** `applied` and `cancelled` are never left, and a status that changed did so under a higher revision. */
  lemma {:induction false} FinalStatuses(cfg: Config, worlds: seq<World>, moments: seq<Moment>, i: nat, j: nat, id: Id)
    requires IsCourse(cfg, worlds, moments) && WorldInv(worlds[0]) && i <= j < |worlds| && id in worlds[i].changes
    ensures id in worlds[j].changes && SameDraft(worlds[i].changes[id], worlds[j].changes[id])
    ensures worlds[i].changes[id].status == Status.Applied || worlds[i].changes[id].status == Status.Cancelled ==>
              worlds[j].changes[id].status == worlds[i].changes[id].status
    ensures worlds[i].changes[id].revision <= worlds[j].changes[id].revision
    ensures worlds[i].changes[id].status != worlds[j].changes[id].status ==>
              worlds[i].changes[id].revision < worlds[j].changes[id].revision
    decreases j - i
  {
    hide WorldInv, May, Do;
    if i < j {
      FinalStatuses(cfg, worlds, moments, i, j - 1, id);
      CourseKeepsInv(cfg, worlds, moments, j - 1);
      assert Turns(cfg, worlds[j - 1], moments[j - 1], worlds[j]);
      ActMovesChange(worlds[j - 1], cfg, moments[j - 1].now, moments[j - 1].act, id);
    }
  }

  /** Of all the drafts made from one revision of a product at most one is ever applied, and each at most once. */
  lemma AppliedAtMostOnce(cfg: Config, worlds: seq<World>, moments: seq<Moment>, i: nat, j: nat, a: Id, b: Id)
    requires IsCourse(cfg, worlds, moments) && WorldInv(worlds[0]) && i <= j < |worlds|
    requires a in worlds[i].changes && worlds[i].changes[a].status == Status.Applied
    requires b in worlds[j].changes && worlds[j].changes[b].status == Status.Applied
    requires worlds[i].changes[a].product == worlds[j].changes[b].product
             && worlds[i].changes[a].expected == worlds[j].changes[b].expected
    ensures a == b && worlds[i].applies[a] == worlds[j].applies[a] == 1
  {
    hide May, Do, Valid, WellFormed, Follows;
    FinalStatuses(cfg, worlds, moments, i, j, a);
    CourseKeepsInv(cfg, worlds, moments, i);
    CourseKeepsInv(cfg, worlds, moments, j);
    assert AppliedTogether(worlds[j].changes[a], worlds[j].changes[b]);
    ChangeFact(worlds[i], a);
    ChangeFact(worlds[j], a);
  }

  /** Applying again answers with the applied change and begins nothing. */
  lemma ReapplyIsSafe(w: World, now: Time, p: Id, id: Id, revision: nat)
    requires WorldInv(w) && Found(w, p, id) && w.changes[id].status == Status.Applied
    ensures Beginning(w, now, p, id, revision) == (w, Answered(id))
  {
    hide Valid, WellFormed;
    ChangeFact(w, id);
  }

  /** Apply only ever writes over the very revisions the draft expected. */
  lemma AppliesWhatWasExpected(db: Db, cfg: Config, setup: Setup, now: Time, p: Id, c: Change, ls: Listings, h: Id)
    requires Reviewable(db, p, c.draft, c.snapshot, ls)
             && ReviewedReady(db, cfg, setup, now, p, c.draft, c.snapshot, ls)
    requires Valid(c.draft, c.expected, c.snapshot)
    ensures p in db.products && db.products[p].revision == c.expected
    ensures h in c.draft.limits ==> h in db.hosts && db.hosts[h].configRevision == c.draft.limits[h].expected
    ensures h in c.draft.identities ==>
              h in db.hosts && db.hosts[h].configRevision == c.draft.identities[h] && !db.hosts[h].verified
    ensures h in c.draft.links ==> c.draft.links[h].expected == if (p, h) in db.links
                                                                  then Some(db.links[(p, h)].revision) else None
  {
    hide Reviewable, ReviewedReady;
    ReviewedAtItsRevision(db, cfg, setup, now, p, c, ls);
    if (p, h) in db.links { assert (p, h).1 in OwnHosts(db, p); }
  }

  /** The second half of this change's own apply, in time, with a ready review and writes that succeed. */
  ghost predicate Applies(w: World, cfg: Config, now: Time, a: Act, id: Id)
    requires id in w.changes
  {
    a.EndApply? && a.p in w.applying && w.applying[a.p].id == id && now <= w.applying[a.p].at + 15000 &&
    var c := w.changes[id];
    && Reviewable(w.db, a.p, c.draft, c.snapshot, a.ls)
    && ReviewedReady(w.db, cfg, a.setup, now, a.p, c.draft, c.snapshot, a.ls)
    && Review.Applied(w.db, a.setup, a.p, c.draft).Done?
  }

  /** Whatever its status, expired too, an act makes a change applied exactly if it is that. */
  lemma BecomesApplied(w: World, cfg: Config, now: Time, a: Act, id: Id)
    requires WorldInv(w) && May(w, a) && id in w.changes && w.changes[id].status != Status.Applied
    ensures id in Do(w, cfg, now, a).changes
    ensures Do(w, cfg, now, a).changes[id].status == Status.Applied <==> Applies(w, cfg, now, a, id)
  {
    hide WorldInv, ChangeOk, After, Can, Reviewable, ReviewedReady, Review.Applied, SnapshotOf, Valid, WellFormed;
    ActMovesChange(w, cfg, now, a, id);
  }

  /** Its apply had begun before it expired, so no change is applied later than that and the bound on a transaction. */
  lemma AppliedInTime(w: World, cfg: Config, now: Time, a: Act, id: Id)
    requires WorldInv(w) && May(w, a) && id in w.changes && w.changes[id].status != Status.Applied
    ensures id in Do(w, cfg, now, a).changes
    ensures Do(w, cfg, now, a).changes[id].status == Status.Applied ==> now < w.changes[id].expiresAt + 15000
  {
    hide WorldInv, ChangeOk, After, Can, Reviewable, ReviewedReady, Review.Applied, Do, May;
    BecomesApplied(w, cfg, now, a, id);
    if Applies(w, cfg, now, a, id) { UnderwayFact(w, a.p); }
  }

  /** Closed, and no apply of it under way. */
  ghost predicate Settled(w: World, id: Id) {
    && id in w.changes
    && (w.changes[id].status == Status.Expired || w.changes[id].status == Status.Failed
        || w.changes[id].status == Status.Cancelled)
    && !(w.changes[id].product in w.applying && w.applying[w.changes[id].product].id == id)
  }

  lemma StaysSettled(w: World, cfg: Config, now: Time, a: Act, id: Id)
    requires WorldInv(w) && May(w, a) && Settled(w, id)
    ensures Settled(Do(w, cfg, now, a), id)
  {
    hide WorldInv, ChangeOk, After, Can, Reviewable, ReviewedReady, Review.Applied, SnapshotOf, Valid, WellFormed;
    ActMovesChange(w, cfg, now, a, id);
    ChangeFact(w, id);
    BecomesApplied(w, cfg, now, a, id);
    if a.EndApply? { assert Underway(w, a.p) by { UnderwayFact(w, a.p); } }
  }

  lemma UnderwayFact(w: World, p: Id)
    requires WorldInv(w) && p in w.applying
    ensures Underway(w, p)
  {
    hide ChangeOk, OnePerRevision, Underway;
  }

  /** A change that expired, failed or was cancelled before its apply began is never applied. */
  lemma {:induction false} ExpiredBeforeApply(cfg: Config, worlds: seq<World>, moments: seq<Moment>, i: nat, j: nat,
        id: Id)
    requires IsCourse(cfg, worlds, moments) && WorldInv(worlds[0]) && i <= j < |worlds| && Settled(worlds[i], id)
    ensures Settled(worlds[j], id) && worlds[j].changes[id].status != Status.Applied && worlds[j].applies[id] == 0
    decreases j - i
  {
    hide WorldInv, May, Do, ChangeOk;
    CourseKeepsInv(cfg, worlds, moments, j);
    if i < j {
      ExpiredBeforeApply(cfg, worlds, moments, i, j - 1, id);
      CourseKeepsInv(cfg, worlds, moments, j - 1);
      assert Turns(cfg, worlds[j - 1], moments[j - 1], worlds[j]);
      StaysSettled(worlds[j - 1], cfg, moments[j - 1].now, moments[j - 1].act, id);
    }
    ChangeFact(worlds[j], id);
    assert worlds[j].applies[id] == 0 by { assert ChangeOk(worlds[j], id); NeverApplied(worlds[j], id); }
  }

  /** And one that is still not applied that long after its expiry, whatever its status, never will be. */
  lemma {:induction false} NeverAppliedLate(cfg: Config, worlds: seq<World>, moments: seq<Moment>, i: nat, j: nat,
        id: Id)
    requires IsCourse(cfg, worlds, moments) && WorldInv(worlds[0]) && i <= j < |worlds| && id in worlds[i].changes
    requires worlds[i].changes[id].status != Status.Applied
    requires ClockAdvances(moments)
             && (i < |moments| ==> worlds[i].changes[id].expiresAt + 15000 <= moments[i].now)
    ensures id in worlds[j].changes && worlds[j].changes[id].status != Status.Applied && worlds[j].applies[id] == 0
    decreases j - i
  {
    hide WorldInv, May, Do, ChangeOk;
    FinalStatuses(cfg, worlds, moments, i, j, id);
    CourseKeepsInv(cfg, worlds, moments, j);
    if i < j {
      NeverAppliedLate(cfg, worlds, moments, i, j - 1, id);
      FinalStatuses(cfg, worlds, moments, i, j - 1, id);
      CourseKeepsInv(cfg, worlds, moments, j - 1);
      assert Turns(cfg, worlds[j - 1], moments[j - 1], worlds[j]);
      AppliedInTime(worlds[j - 1], cfg, moments[j - 1].now, moments[j - 1].act, id);
    }
    ChangeFact(worlds[j], id);
    NeverApplied(worlds[j], id);
  }

  ghost predicate ClockAdvances(moments: seq<Moment>) {
    forall j, k :: 0 <= j <= k < |moments| ==> moments[j].now <= moments[k].now
  }

  lemma NeverApplied(w: World, id: Id)
    requires id in w.changes && ChangeOk(w, id) && w.changes[id].status != Status.Applied
    ensures w.applies[id] == 0
  {}

  /** An expired or failed change is still open to cancelling, at its current revision. */
  lemma ClosedCanBeCancelled(w: World, p: Id, id: Id, revision: nat)
    requires p in w.db.products && Found(w, p, id)
    requires w.changes[id].status == Status.Expired || w.changes[id].status == Status.Failed
    ensures Cancelling(w, p, id, revision).0.changes[id].status == Status.Cancelled <==>
              revision == w.changes[id].revision
  {}

  // ----- preparers -----

  /** The preparer was given a token for a change it no longer prepares. */
  predicate Superseded(w: World, id: Id, owner: Token) {
    owner in w.tokens && !Holds(w, id, owner)
  }

  /** It can neither publish, nor fail the change, nor prolong its lease. */
  lemma SupersededWritesNothing(w: World, now: Time, id: Id, owner: Token, result: Diagnostics, aborted: bool)
    requires Superseded(w, id, owner)
    ensures Publishing(w, id, owner, result) == w && Faulting(w, id, owner, aborted, result) == w
            && Renewing(w, now, id, owner) == w
  {}

  lemma StaysSuperseded(w: World, cfg: Config, now: Time, a: Act, id: Id, owner: Token)
    requires May(w, a) && Superseded(w, id, owner)
    ensures Superseded(Do(w, cfg, now, a), id, owner)
  {
    hide After, Can, Reviewable, ReviewedReady, Review.Applied, SnapshotOf, Valid, WellFormed;
  }

  /** A preparer whose lease another took, or whose draft was cancelled or expired, stays superseded. */
  lemma {:induction false} SupersededForever(cfg: Config, worlds: seq<World>, moments: seq<Moment>, i: nat, j: nat,
        id: Id, owner: Token)
    requires IsCourse(cfg, worlds, moments) && i <= j < |worlds| && Superseded(worlds[i], id, owner)
    ensures Superseded(worlds[j], id, owner)
    decreases j - i
  {
    hide May, Do, Superseded;
    if i < j {
      SupersededForever(cfg, worlds, moments, i, j - 1, id, owner);
      assert Turns(cfg, worlds[j - 1], moments[j - 1], worlds[j]);
      StaysSuperseded(worlds[j - 1], cfg, moments[j - 1].now, moments[j - 1].act, id, owner);
    }
  }

  /** Being claimed by another, being cancelled and being applied all supersede. */
  lemma SupersededBy(w: World, now: Time, id: Id, owner: Token, other: Token, p: Id, revision: nat)
    requires Holds(w, id, owner) && owner in w.tokens && other !in w.tokens
    ensures Claiming(w, now, id, other) != w ==> Superseded(Claiming(w, now, id, other), id, owner)
    ensures Cancelling(w, p, id, revision).0 != w ==> Superseded(Cancelling(w, p, id, revision).0, id, owner)
  {}
}
