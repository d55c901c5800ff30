/**
 The transactions of the provisioning protocol, one function each: a row goes from
 `Reserved` through `Creating` and `Uncertain`/`CleanupPending` to a terminal state.
 The source locks the product and the host it writes, so a transaction is one atomic step.
 */
module Provisioning {
  import opened Basics
  import opened Occupancy
  import opened Tables
  import opened Admission

  const LEASE_MARGIN: nat := 5000

  /** The time budget of one request or recovery pass. */
  datatype Budget = Budget(deadline: Time, aborted: bool)

  predicate Active(b: Budget, now: Time) {
    !b.aborted && now < b.deadline
  }

  function Remaining(b: Budget, now: Time): nat {
    if now < b.deadline then b.deadline - now else 0
  }

  function Lease(b: Budget, now: Time): Time {
    now + Remaining(b, now) + LEASE_MARGIN
  }

  /** What an executor holds: the row and the lease owner it was given. */
  datatype Ticket = Ticket(row: Id, product: Id, host: Id, owner: Token)

  /** What `prepare` read before its transaction, and must find again inside it. */
  datatype Observed = Observed(product: Product, host: Host, candidates: seq<Id>)

  datatype Request = Request(product: Id, host: Id, name: Name, row: Id, owner: Token, payload: Payload)

  // ----- prepare -----

  predicate Accepting(db: Db, p: Id, h: Id) {
    (p, h) in db.links && db.links[(p, h)].accepting
  }

  predicate Before(db: Db, p: Id, g: Id, h: Id)
    requires (p, g) in db.links && (p, h) in db.links
  {
    var a, b := db.links[(p, g)].priority, db.links[(p, h)].priority;
    a < b || (a == b && g < h)
  }

  /** The accepting destinations of a product by priority, then by host id. */
  predicate CandidateOrder(db: Db, p: Id, order: seq<Id>) {
    && (forall k :: 0 <= k < |order| ==> Accepting(db, p, order[k]))
    && (forall key :: key in db.links && key.0 == p && db.links[key].accepting ==> key.1 in order)
    && (forall j, k :: 0 <= j < k < |order| ==> Before(db, p, order[j], order[k]))
  }

  predicate Unchanged(db: Db, q: Request, seen: Observed)
    requires q.product in db.products && q.host in db.hosts
  {
    var product, host := db.products[q.product], db.hosts[q.host];
    && product.revision == seen.product.revision
    && product.mode == seen.product.mode
    && product.defaultHost == seen.product.defaultHost
    && host.configRevision == seen.host.configRevision
    && host.url == seen.host.url
    && host.adapter == seen.host.adapter
    && (seen.product.mode == Capacity ==> CandidateOrder(db, q.product, seen.candidates))
  }

  predicate SharesName(product: Id, host: Id, name: Name, p: Id, h: Id, n: Name) {
    name == n && (product == p || host == h)
  }

  predicate NameTaken(db: Db, p: Id, h: Id, n: Name) {
    || (exists i ::
          i in db.instances && SharesName(db.instances[i].product, db.instances[i].host, db.instances[i].name, p, h, n))
    || (exists r ::
          r in db.rows && OpenRow(db, r) && SharesName(db.rows[r].product, db.rows[r].host, db.rows[r].name, p, h, n))
    || (exists e :: e in Entries(db, h) && e.name == n)
  }

  function NewRow(q: Request, b: Budget, now: Time): Row {
    Row(q.product, q.host, Some((q.product, q.host)), q.name, Reserved, None, None, Some(q.payload),
        Some(q.owner), Some(Lease(b, now)), 0)
  }

  function Reserve(db: Db, cfg: Config, now: Time, b: Budget, q: Request, seen: Observed, l: Listing): Outcome<Ticket>
    requires Known(db, l) && q.row !in db.rows
  {
    var admitted := Admit(db, cfg, now, q.product, q.host, false, l);
    if admitted.Refused? then Refused(admitted.why)
    else if !Unchanged(admitted.db, q, seen) then Refused(Unavailable)
    else if !Active(b, now) then Refused(Timeout)
    else if NameTaken(db, q.product, q.host, q.name) then Refused(Conflict)
    else Done(Advance(SetRow(admitted.db, q.row, NewRow(q, b, now)), q.host), Ticket(q.row, q.product, q.host, q.owner))
  }

  // ----- steps of the ticket's holder -----

  predicate Owns(db: Db, t: Ticket) {
    OpenRow(db, t.row) && db.rows[t.row].leaseOwner == Some(t.owner)
  }

  /** `owned`: the row must exist, be open and still be leased to the ticket. */
  function Disowned(db: Db, t: Ticket): Refusal {
    if t.row in db.rows then Conflict else NotFound
  }

  predicate Leased(row: Row, now: Time) {
    row.leaseExpiresAt.Some? && now < row.leaseExpiresAt.value
  }

  function AssertOwned(db: Db, now: Time, t: Ticket): Outcome<()> {
    if t.host !in db.hosts then Refused(NotFound)
    else if !Owns(db, t) then Refused(Disowned(db, t))
    else if !Leased(db.rows[t.row], now) then Refused(Conflict)
    else Done(db, ())
  }

  function MarkCreating(db: Db, cfg: Config, now: Time, b: Budget, t: Ticket, l: Listing): Outcome<()>
    requires Known(db, l)
  {
    var admitted := Admit(db, cfg, now, t.product, t.host, true, l);
    if admitted.Refused? then Refused(admitted.why)
    else if !Owns(db, t) then Refused(Disowned(db, t))
    else
      var row := db.rows[t.row];
      if !Active(b, now) then Refused(Timeout)
      else if row.state != Reserved || !Leased(row, now) then Refused(Conflict)
      else Done(SetRow(admitted.db, t.row, row.(state := Creating, revision := row.revision + 1)), ())
  }

  /** The unique indexes on instances. */
  predicate InstanceCollides(db: Db, x: Instance) {
    exists i :: i in db.instances && Collides(db.instances[i], x)
  }

  predicate Collides(a: Instance, b: Instance) {
    || SharesName(a.product, a.host, a.name, b.product, b.host, b.name)
    || (a.host == b.host && a.remoteId.Some? && a.remoteId == b.remoteId)
  }

  function RecordCreated(db: Db, now: Time, t: Ticket, newId: Id, remoteId: Option<RemoteId>): Outcome<Id>
    requires newId !in db.instances
  {
    if t.product !in db.products || t.host !in db.hosts then Refused(NotFound)
    else if !Owns(db, t) then Refused(Disowned(db, t))
    else
      var row := db.rows[t.row];
      if row.payload.None? then Refused(Internal)
      else if row.state != Creating && row.state != Uncertain then Refused(Conflict)
      else if row.instance.Some? then
        if row.instance.value in db.instances then Done(db, row.instance.value) else Refused(NotFound)
      else
        var x := Instance(row.product, row.host, row.name, remoteId, now);
        if InstanceCollides(db, x) || row.host !in db.hosts then Refused(Internal)
        else
          var inserted := db.(instances := db.instances[newId := x]);
          Done(Advance(SetRow(inserted, t.row,
                              row.(instance := Some(newId), remoteId := remoteId, revision := row.revision + 1)),
                       row.host), newId)
  }

  function MarkWebhookApplied(db: Db, t: Ticket): Outcome<()> {
    if t.host !in db.hosts then Refused(NotFound)
    else if !Owns(db, t) then Refused(Disowned(db, t))
    else
      var row := db.rows[t.row];
      if row.payload.None? then Refused(Internal)
      else Done(SetRow(db, t.row,
                       row.(payload := Some(row.payload.value.(webhookApplied := true)),
                                       revision := row.revision + 1)), ())
  }

  /** A closed row keeps no link, lease or request. */
  function Closed(row: Row, state: RowState): Row {
    row.(state := state, link := None, leaseOwner := None, leaseExpiresAt := None, payload := None,
        revision := row.revision + 1)
  }

  function Finish(db: Db, now: Time, t: Ticket): Outcome<()> {
    if t.product !in db.products || t.host !in db.hosts then Refused(NotFound)
    else if !Owns(db, t) then Refused(Disowned(db, t))
    else
      var row := db.rows[t.row];
      if (row.state != Creating && row.state != Uncertain) || row.instance.None? then Refused(Conflict)
      else if row.payload.None? then Refused(Internal)
      else if !row.payload.value.webhookApplied || row.host !in db.hosts then Refused(Conflict)
      else
        var closed := SetRow(db, t.row, Closed(row, Committed));
        Done(Advance(FirstUse(closed, now, row.product), row.host), ())
  }

  function FirstUse(db: Db, now: Time, p: Id): Db {
    if p in db.products && db.products[p].mode == Capacity && db.products[p].firstCapacityUse.None?
    then db.(products := db.products[p := db.products[p].(firstCapacityUse := Some(now))])
    else db
  }

  function MarkCleanup(db: Db, t: Ticket): Outcome<()> {
    if t.host !in db.hosts then Refused(NotFound)
    else if !Owns(db, t) then Refused(Disowned(db, t))
    else
      var row := db.rows[t.row];
      if row.state != Creating && row.state != Uncertain && row.state != CleanupPending then Refused(Conflict)
      else Done(SetRow(db, t.row, row.(state := CleanupPending, revision := row.revision + 1)), ())
  }

  /** Releases an unsent reservation; anything already authorised stays open on its host. */
  function Abandoned(row: Row, cfg: Config, now: Time): Row {
    var unsent := row.state == Reserved;
    row.(state := if unsent then Released else if row.state == CleanupPending then CleanupPending else Uncertain,
         link := if unsent then None else row.link,
         payload := if unsent then None else row.payload,
         leaseOwner := None, leaseExpiresAt := Some(now + cfg.recoveryInterval), revision := row.revision + 1)
  }

  function Abandon(db: Db, cfg: Config, now: Time, t: Ticket): Outcome<()> {
    if t.host !in db.hosts then Refused(NotFound)
    else if !Owns(db, t) then Done(db, ())
    else if db.rows[t.row].host !in db.hosts then Refused(NotFound)
    else Done(Advance(SetRow(db, t.row, Abandoned(db.rows[t.row], cfg, now)), db.rows[t.row].host), ())
  }

  function RemoveConfirmed(db: Db, i: Id, p: Id, h: Id, t: Option<Ticket>): Outcome<Option<Instance>> {
    if p !in db.products || h !in db.hosts then Refused(NotFound)
    else if t.Some? && !Owns(db, t.value) then Refused(Disowned(db, t.value))
    else if t.None? && (exists r :: r in db.rows && OpenRow(db, r) && db.rows[r].instance == Some(i))
           then Refused(Conflict)
    else if i !in db.instances || db.instances[i].product != p || db.instances[i].host != h then Done(db, None)
    else
      var x := db.instances[i];
      var removed := DeleteInstance(DropEntries(db, h, x.name), i);
      var closed := if t.None? then removed
                    else SetRow(removed, t.value.row, Closed(removed.rows[t.value.row], Failed));
      Done(Advance(closed, h), Some(x))
  }

  // ----- recovery takes over expired leases -----

  function Claimed(row: Row, now: Time, b: Budget, owner: Token): Row {
    row.(leaseOwner := Some(owner), leaseExpiresAt := Some(Lease(b, now)), revision := row.revision + 1)
  }

  function Claim(db: Db, now: Time, b: Budget, r: Id, owner: Token): Outcome<Option<Ticket>> {
    if r !in db.rows then Done(db, None)
    else
      var row := db.rows[r];
      if row.host !in db.hosts then Refused(NotFound)
      else if !Open(row.state) || Leased(row, now) then Done(db, None)
      else if !Active(b, now) then Refused(Timeout)
      else if row.state == Reserved then
        Done(Advance(SetRow(db, r, Closed(row, Released)), row.host), None)
      else
        Done(SetRow(db, r, Claimed(row, now, b, owner)),
             Some(Ticket(r, row.product, row.host, owner)))
  }

  // ----- administrative import of an observed session -----

  datatype Source = Source(url: Url, apiKey: nat, configRevision: nat)

  datatype Imported = Created(id: Id) | Skipped(id: Id)

  function Import(db: Db, now: Time, p: Id, h: Id, name: Name, remoteId: RemoteId, source: Source, newId: Id)
    : Outcome<Imported>
    requires newId !in db.instances
  {
    if p !in db.products || h !in db.hosts then Refused(NotFound)
    else
      var host := db.hosts[h];
      if !db.products[p].active then Refused(BadRequest)
      else if Source(host.url, host.apiKey, host.configRevision) != source then Refused(Conflict)
      else if (p, h) !in db.links then Refused(BadRequest)
      else if exists r :: r in db.rows && OpenRow(db, r) && RowBlocksImport(db.rows[r], p, h, name, remoteId)
                            then Refused(Conflict)
      else
        var x := Instance(p, h, name, Some(remoteId), now);
        var existing := set i | i in db.instances && Collides(db.instances[i], x);
        if existing == {} then Done(Advance(db.(instances := db.instances[newId := x]), h), Created(newId))
        else if exists i :: i in existing && existing == {i} && SameImport(db.instances[i], x) then
          var i :| i in existing && existing == {i} && SameImport(db.instances[i], x);
          Done(db, Skipped(i))
        else Refused(Conflict)
  }

  predicate RowBlocksImport(row: Row, p: Id, h: Id, name: Name, remoteId: RemoteId) {
    SharesName(row.product, row.host, row.name, p, h, name) || (row.host == h && row.remoteId == Some(remoteId))
  }

  predicate SameImport(a: Instance, b: Instance) {
    a.product == b.product && a.host == b.host && a.name == b.name && a.remoteId == b.remoteId
  }

  // ----- inventory collection -----

  function StartCollection(db: Db, now: Time, b: Budget, h: Id, owner: Token): Outcome<Host> {
    if h !in db.hosts then Refused(NotFound)
    else if h in db.collections && db.collections[h].leaseExpiresAt.Some?
         && now < db.collections[h].leaseExpiresAt.value then Refused(Unavailable)
    else Done(db.(collections := db.collections[h := Collection(true, db.hosts[h].occupancyRevision, Some(owner),
                                                                Some(Lease(b, now)), now)]), db.hosts[h])
  }

  /** A remote session as collected, with the secret the remote showed for it. */
  datatype Seen = Seen(session: Session, secret: Option<Secret>)

  /** An open row proves a remote session by its id, or by a secret only the hub knew. */
  predicate Proven(row: Row, s: Seen) {
    || (row.remoteId.Some? && row.remoteId == s.session.remoteId)
    || (row.payload.Some? && row.payload.value.generated && s.secret == Some(row.payload.value.secret))
  }

  predicate SameIdentity(x: Instance, s: Session) {
    x.name == s.name && (x.remoteId.None? || s.remoteId.None? || x.remoteId == s.remoteId)
  }

  predicate NamedOn(db: Db, h: Id, n: Name) {
    exists i :: i in db.instances && InstanceOn(db, i, h) && db.instances[i].name == n
  }

  predicate Contradicted(db: Db, h: Id, s: Seen) {
    exists i ::
      i in db.instances && InstanceOn(db, i, h) && db.instances[i].name == s.session.name
      && !SameIdentity(db.instances[i], s.session)
  }

  predicate Explained(db: Db, h: Id, s: Seen) {
    || NamedOn(db, h, s.session.name)
    || (exists r :: r in db.rows && OpenOn(db, r, h) && db.rows[r].name == s.session.name && Proven(db.rows[r], s))
  }

  predicate Unsettled(db: Db, h: Id, remote: seq<Seen>) {
    exists k :: 0 <= k < |remote| && (Contradicted(db, h, remote[k]) || !Explained(db, h, remote[k]))
  }

  function NotFoundIn(db: Db, h: Id, remote: seq<Seen>): set<Id> {
    set i | i in db.instances && InstanceOn(db, i, h) &&
            !exists k :: 0 <= k < |remote| && SameIdentity(db.instances[i], remote[k].session)
  }

  function Publish(db: Db, now: Time, b: Budget, h: Id, owner: Token, started: Host, remote: seq<Seen>): Outcome<()> {
    if h !in db.hosts || h !in db.collections then Refused(NotFound)
    else
      var host, c := db.hosts[h], db.collections[h];
      if c.owner != Some(owner) || !c.running then Refused(Unavailable)
      else if host.occupancyRevision != c.observedRevision || host.configRevision != started.configRevision ||
              host.url != started.url || host.apiKey != started.apiKey then Refused(Unavailable)
      else if !Active(b, now) then Refused(Timeout)
      else
        var revision := host.inventoryRevision + 1;
        var updated :=
          host.(inventoryRevision := revision, observedAt := Some(now), lastHealthAt := Some(now), healthy := true,
                             inventoryStatus := if Unsettled(db, h, remote) then Unresolved else Ready);
        Done(db.(hosts := db.hosts[h := updated],
                 entries := db.entries[h := set k | 0 <= k < |remote| :: remote[k].session],
                 collections := db.collections - {h},
                 reports := db.reports[h := Report(revision, c.startedAt, NotFoundIn(db, h, remote))]), ())
  }

  function FailCollection(db: Db, h: Id, owner: Token): Db {
    if h in db.collections && db.collections[h].running && db.collections[h].owner == Some(owner)
    then db.(collections := db.collections - {h})
    else db
  }
}
