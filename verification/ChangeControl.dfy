/**
 The configuration change operation: drafts, the preparers that review them under a lease,
 cancellation, expiry and apply. Every update of a change is guarded by what it must still
 be, except the last write of apply, which relies on the product lock it holds.
 */
module ChangeControl {
  import opened Basics
  import opened Occupancy
  import opened Tables
  import opened Admission
  import opened Provisioning
  import opened Protocol
  import opened Transactions
  import opened Review

  const PREPARATION_TIME: nat := 120000
  const DRAFT_LIFETIME: nat := 1800000
  const PREPARER_LEASE: nat := 10000
  const APPLY_TIMEOUT: nat := 15000

  datatype Status = Queued | Running | ActionRequired | Ready | Applied | Failed | Expired | Cancelled

  /** The outcome of a review as stored: `text` stands for all that is compared besides. */
  datatype Diagnostics = Diagnostics(ready: bool, actions: set<Action>, text: nat)

  datatype Change = Change(
    product: Id, request: Id, expected: nat, draft: Draft, snapshot: Snapshot, status: Status,
    diagnostics: Option<Diagnostics>, revision: nat,
    leaseOwner: Option<Token>, leaseExpiresAt: Option<Time>, executionDeadline: Time, expiresAt: Time)

  /** An apply transaction under way: for which change, and when it found that change ready. */
  datatype Begun = Begun(id: Id, at: Time)

  /**
   `index` is the unique index on product and request. `applying` holds the apply transactions
   under way, by the product they lock. The last two fields are history: every token handed
   to a preparer, and how often each change was applied.
   */
  datatype World = World(db: Db, changes: map<Id, Change>, index: map<(Id, Id), Id>, applying: map<Id, Begun>,
                         tokens: set<Token>, applies: multiset<Id>)

  datatype Act =
    | Create(p: Id, request: Id, expected: nat, draft: Draft, newId: Id)
    | Expire(id: Id, seen: Change)
    | Reassess(id: Id, seen: Change, result: Diagnostics)
    | Cancel(p: Id, id: Id, revision: nat)
    | AskCallback(p: Id, id: Id, revision: nat, confirmed: bool, instance: Id)
    | BeginApply(p: Id, id: Id, revision: nat)
    | EndApply(p: Id, setup: Setup, ls: Listings)
    | ClaimNext(id: Id, owner: Token)
    | Renew(id: Id, owner: Token)
    | Publish(id: Id, owner: Token, result: Diagnostics)
    | Fault(id: Id, owner: Token, aborted: bool, result: Diagnostics)
    | Outside(step: Step)

  predicate Closed(status: Status) {
    status == Status.Applied || status == Status.Cancelled || status == Status.Expired || status == Status.Failed
  }

  /** What never changes about a change. */
  predicate SameDraft(a: Change, b: Change) {
    && a.product == b.product && a.request == b.request && a.expected == b.expected && a.draft == b.draft
    && a.snapshot == b.snapshot && a.executionDeadline == b.executionDeadline && a.expiresAt == b.expiresAt
  }

  function Moved(c: Change, status: Status): Change {
    c.(status := status, revision := c.revision + 1)
  }

  function Freed(c: Change, status: Status): Change {
    Moved(c, status).(leaseOwner := None, leaseExpiresAt := None)
  }

  function Set(w: World, id: Id, c: Change): World {
    w.(changes := w.changes[id := c])
  }

  // ----- drafts -----

  /** Every revision the draft expects is the snapshot's, and what it touches it links to. */
  predicate Valid(d: Draft, expected: nat, snap: Snapshot) {
    && expected == snap.product.revision
    && (forall h :: h in d.links ==> d.links[h].expected == if h in snap.links then Some(snap.links[h].revision)
                                                            else None)
    && (forall h :: h in d.limits ==> Expects(d, snap, h, d.limits[h].expected))
    && (forall h :: h in d.identities ==> Expects(d, snap, h, d.identities[h]) && !snap.hosts[h].verified)
    && (forall h :: h in d.shared ==>
                      Expects(d, snap, h, d.shared[h].expected) && h in d.limits
                      && d.limits[h].maxInstances == d.shared[h].maxInstances)
  }

  predicate Expects(d: Draft, snap: Snapshot, h: Id, revision: nat) {
    (h in snap.links || h in d.links) && h in snap.hosts && snap.hosts[h].revision == revision
  }

  /** The same request with the same content returns the change it made before. */
  function Drafting(w: World, now: Time, p: Id, request: Id, expected: nat, d: Draft, newId: Id): (World, Reply<Id>) {
    if p !in w.db.products || SnapshotOf(w.db, p, d).None?
      then (w, Threw(if p in w.db.products then Conflict else NotFound))
    else if (p, request) in w.index then
      var id := w.index[(p, request)];
      (w, if id in w.changes && w.changes[id].draft == d && w.changes[id].expected == expected then Answered(id)
          else Threw(Conflict))
    else
      var snap := SnapshotOf(w.db, p, d).value;
      if !Valid(d, expected, snap) then (w, Threw(Conflict))
      else
        var c :=
          Change(p, request, expected, d, snap, Status.Queued, None, 0, None, None, now + PREPARATION_TIME,
                 now + DRAFT_LIFETIME);
        (Set(w, newId, c).(index := w.index[(p, request) := newId]), Answered(newId))
  }

  // ----- expiry and reading -----

  predicate Due(c: Change, now: Time) {
    !Closed(c.status)
    && (c.expiresAt <= now || ((c.status == Status.Queued || c.status == Status.Running) && c.executionDeadline <= now))
  }

  /** Writes only if the row is still as it was read. */
  predicate Unmoved(w: World, id: Id, seen: Change) {
    id in w.changes && w.changes[id].revision == seen.revision && w.changes[id].status == seen.status
  }

  function Expiring(w: World, now: Time, id: Id, seen: Change): World {
    if Due(seen, now) && Unmoved(w, id, seen) then Set(w, id, Freed(w.changes[id], Status.Expired)) else w
  }

  function StatusOf(result: Diagnostics): Status {
    if result.ready then Status.Ready else Status.ActionRequired
  }

  /** Reading a reviewed change evaluates it again, and stores the outcome if it differs from the one read. */
  function Reassessed(w: World, id: Id, seen: Change, result: Diagnostics): World {
    if (seen.status == Status.Ready || seen.status == Status.ActionRequired)
       && (seen.diagnostics != Some(result) || seen.status != StatusOf(result)) && Unmoved(w, id, seen)
    then Set(w, id, Moved(w.changes[id], StatusOf(result)).(diagnostics := Some(result))) else w
  }

  // ----- the administrator's steps -----

  predicate Found(w: World, p: Id, id: Id) {
    id in w.changes && w.changes[id].product == p
  }

  function Cancelling(w: World, p: Id, id: Id, revision: nat): (World, Reply<Id>) {
    if p !in w.db.products || !Found(w, p, id) then (w, Threw(NotFound))
    else
      var c := w.changes[id];
      if c.status == Status.Cancelled then (w, Answered(id))
      else if c.status == Status.Applied || c.revision != revision then (w, Threw(Conflict))
      else (Set(w, id, Freed(c, Status.Cancelled)), Answered(id))
  }

  /** The product's own instance, one that the stored review pointed at. */
  predicate PointedAt(db: Db, c: Change, p: Id, i: Id) {
    && i in db.instances && db.instances[i].product == p && c.diagnostics.Some?
    && exists a ::
         a in c.diagnostics.value.actions && a.ConfirmWebhook? && a.host == db.instances[i].host && i in a.instances
  }

  function AskingCallback(w: World, now: Time, p: Id, id: Id, revision: nat, confirmed: bool, instance: Id)
    : (World, Reply<Id>)
  {
    if p !in w.db.products || !Found(w, p, id) then (w, Threw(NotFound))
    else
      var c := w.changes[id];
      if c.revision != revision || !confirmed || !w.db.products[p].hubRelay || c.status != Status.ActionRequired
         || c.executionDeadline <= now then (w, Threw(Conflict))
      else if !PointedAt(w.db, c, p, instance) then (w, Threw(Conflict))
      else (Set(w, id, Moved(c, Status.Queued)), Answered(id))
  }

  /** Apply locks the product and reads the change. An applied change is returned as it is. */
  function Beginning(w: World, now: Time, p: Id, id: Id, revision: nat): (World, Reply<Id>) {
    if p !in w.db.products || !Found(w, p, id) then (w, Threw(NotFound))
    else
      var c := w.changes[id];
      if c.status == Status.Applied then (w, Answered(id))
      else if c.revision != revision || c.status != Status.Ready || c.expiresAt <= now then (w, Threw(Conflict))
      else (w.(applying := w.applying[p := Begun(id, now)]), Answered(id))
  }

  /** The database rolls back a transaction that takes too long. */
  predicate RolledBack(begun: Begun, now: Time) {
    begun.at + APPLY_TIMEOUT < now
  }

  /**
   It reviews the draft once more, writes, and marks the change applied, whatever others did to
   the change meanwhile.
   */
  ghost function Ending(w: World, cfg: Config, now: Time, p: Id, setup: Setup, ls: Listings): (World, Reply<Id>)
    requires p in w.applying && w.applying[p].id in w.changes
  {
    var id := w.applying[p].id;
    var c := w.changes[id];
    var released := w.(applying := w.applying - {p});
    if RolledBack(w.applying[p], now) then (released, Threw(Internal))
    else if Reviewable(w.db, p, c.draft, c.snapshot, ls)
       && ReviewedReady(w.db, cfg, setup, now, p, c.draft, c.snapshot, ls)
       && Review.Applied(w.db, setup, p, c.draft).Done?
    then (Set(released, id, Freed(c, Status.Applied)).(db := Review.Applied(w.db, setup, p, c.draft).db,
                                                             applies := w.applies[id := w.applies[id] + 1]),
          Answered(id))
    else (released, Threw(Conflict))
  }

  // ----- the preparer's steps -----

  function Claiming(w: World, now: Time, id: Id, owner: Token): World {
    if id !in w.changes then w
    else
      var c := w.changes[id];
      if (c.status != Status.Queued && c.status != Status.Running)
         || (c.leaseExpiresAt.Some? && now < c.leaseExpiresAt.value) then w
      else if c.executionDeadline <= now then Set(w, id, Freed(c, Status.Expired))
      else Set(w, id,
               Moved(c, Status.Running).(leaseOwner := Some(owner),
                                                       leaseExpiresAt := Some(Sooner(now + PREPARER_LEASE,
                                                           c.executionDeadline)))).(tokens := w.tokens + {owner})
  }

  function Sooner(a: Time, b: Time): Time { if a < b then a else b }

  predicate Holds(w: World, id: Id, owner: Token) {
    id in w.changes && w.changes[id].status == Status.Running && w.changes[id].leaseOwner == Some(owner)
  }

  function Renewing(w: World, now: Time, id: Id, owner: Token): World {
    if Holds(w, id, owner) && w.changes[id].leaseExpiresAt.Some? && now < w.changes[id].leaseExpiresAt.value
    then Set(w, id,
             w.changes[id].(leaseExpiresAt := Some(Sooner(now + PREPARER_LEASE, w.changes[id].executionDeadline))))
           else w
  }

  function Publishing(w: World, id: Id, owner: Token, result: Diagnostics): World {
    if Holds(w, id, owner) then Set(w, id, Freed(w.changes[id], StatusOf(result)).(diagnostics := Some(result))) else w
  }

  /** `result` is what the fault leaves in place of a review: prepare again. */
  function Faulting(w: World, id: Id, owner: Token, aborted: bool, result: Diagnostics): World {
    if Holds(w, id, owner)
      then Set(w, id,
               Freed(w.changes[id], if aborted then Status.Expired else Status.Failed).(diagnostics := Some(result)))
    else w
  }

  // ----- the step relation -----

  /** The product whose row lock a protocol step takes. */
  function Locks(step: Step): Option<Id> {
    match step
    case DoReserve(_, q, _, _) => Some(q.product)
    case DoMarkCreating(_, t, _) => Some(t.product)
    case DoRecordCreated(t, _, _) => Some(t.product)
    case DoFinish(t) => Some(t.product)
    case DoRemove(_, p, _, _) => Some(p)
    case DoImport(p, _, _, _, _, _) => Some(p)
    case DoEditProduct(p, _) => Some(p)
    case DoSetMode(p, _) => Some(p)
    case DoRestoreLegacy(p, _, _) => Some(p)
    case DoPutLink(p, _, _) => Some(p)
    case DoDetach(p, _, _) => Some(p)
    case _ => None
  }

  ghost predicate May(w: World, a: Act) {
    match a
    case Create(p, _, _, d, newId) => p !in w.applying && WellFormed(d) && newId !in w.changes && w.applies[newId] == 0
    case Expire(id, seen) => id in w.changes && SameDraft(seen, w.changes[id])
    case Reassess(id, seen, _) => id in w.changes && SameDraft(seen, w.changes[id])
    case Cancel(p, _, _) => p !in w.applying
    case AskCallback(p, _, _, _, _) => p !in w.applying
    case BeginApply(p, _, _) => p !in w.applying
    case EndApply(p, _, _) => p in w.applying && w.applying[p].id in w.changes
    case ClaimNext(_, owner) => owner !in w.tokens
    case Outside(step) => Can(w.db, step) && (Locks(step).Some? ==> Locks(step).value !in w.applying)
    case _ => true
  }

  ghost function Do(w: World, cfg: Config, now: Time, a: Act): World
    requires May(w, a)
  {
    match a
    case Create(p, request, expected, d, newId) => Drafting(w, now, p, request, expected, d, newId).0
    case Expire(id, seen) => Expiring(w, now, id, seen)
    case Reassess(id, seen, result) => Reassessed(w, id, seen, result)
    case Cancel(p, id, revision) => Cancelling(w, p, id, revision).0
    case AskCallback(p, id, revision, confirmed, instance) =>
      AskingCallback(w, now, p, id, revision, confirmed, instance).0
    case BeginApply(p, id, revision) => Beginning(w, now, p, id, revision).0
    case EndApply(p, setup, ls) => Ending(w, cfg, now, p, setup, ls).0
    case ClaimNext(id, owner) => Claiming(w, now, id, owner)
    case Renew(id, owner) => Renewing(w, now, id, owner)
    case Publish(id, owner, result) => Publishing(w, id, owner, result)
    case Fault(id, owner, aborted, result) => Faulting(w, id, owner, aborted, result)
    case Outside(step) => w.(db := After(w.db, cfg, now, step))
  }
}
