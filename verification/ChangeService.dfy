/** The change service over its table: each method is one guarded update, proved to be its step. */
module ChangeService {
  import opened Basics
  import opened Tables
  import opened Admission
  import opened Protocol
  import opened Transactions
  import opened Deliveries
  import opened Review
  import opened ReviewRun
  import opened ChangeControl

  class Service {
    const store: Store
    var changes: map<Id, Change>
    var index: map<(Id, Id), Id>
    var applying: map<Id, Begun>
    ghost var tokens: set<Token>
    ghost var applies: multiset<Id>

    constructor (store: Store)
      ensures this.store == store && State() == World(store.Image(), map[], map[], map[], {}, multiset{})
    {
      this.store := store;
      changes, index, applying, tokens, applies := map[], map[], map[], {}, multiset{};
    }

    ghost function State(): World
      reads this, store
    {
      World(store.Image(), changes, index, applying, tokens, applies)
    }

    method Create(now: Time, p: Id, request: Id, expected: nat, draft: Draft, newId: Id) returns (reply: Reply<Id>)
      modifies this
      ensures (State(), reply) == Drafting(old(State()), now, p, request, expected, draft, newId)
    {
      hide Valid, SnapshotOf;
      if p !in store.products { return Threw(NotFound); }
      var snapshot := SnapshotOf(store.Image(), p, draft);
      if snapshot.None? { return Threw(Conflict); }
      if (p, request) in index {
        var previous := index[(p, request)];
        if previous !in changes || changes[previous].draft != draft || changes[previous].expected != expected {
          return Threw(Conflict);
        }
        return Answered(previous);
      }
      if !Valid(draft, expected, snapshot.value) { return Threw(Conflict); }
      changes :=
        changes[newId := Change(p, request, expected, draft, snapshot.value, Status.Queued, None, 0, None, None,
                                now + PREPARATION_TIME, now + DRAFT_LIFETIME)];
      index := index[(p, request) := newId];
      return Answered(newId);
    }

    /** `updateMany` with the revision and status that were read. */
    method ExpireRow(now: Time, id: Id, seen: Change)
      modifies this`changes
      ensures State() == Expiring(old(State()), now, id, seen)
    {
      if Closed(seen.status) { return; }
      if seen.expiresAt <= now
         || ((seen.status == Status.Queued || seen.status == Status.Running) && seen.executionDeadline <= now) {
        if id in changes && changes[id].revision == seen.revision && changes[id].status == seen.status {
          var c := changes[id];
          changes :=
            changes[id := c.(status := Status.Expired, leaseOwner := None, leaseExpiresAt := None,
                revision := c.revision + 1)];
        }
      }
    }

    /** Stores a review only if it says something else than the one that was read. */
    method Get(id: Id, seen: Change, result: Diagnostics)
      modifies this`changes
      ensures State() == Reassessed(old(State()), id, seen, result)
    {
      if seen.status != Status.Ready && seen.status != Status.ActionRequired { return; }
      if seen.diagnostics == Some(result) && seen.status == StatusOf(result) { return; }
      if id in changes && changes[id].revision == seen.revision && changes[id].status == seen.status {
        var c := changes[id];
        changes :=
          changes[id := c.(status := StatusOf(result), diagnostics := Some(result), revision := c.revision + 1)];
      }
    }

    method Cancel(p: Id, id: Id, revision: nat) returns (reply: Reply<Id>)
      modifies this`changes
      ensures (State(), reply) == Cancelling(old(State()), p, id, revision)
    {
      if p !in store.products || id !in changes || changes[id].product != p { return Threw(NotFound); }
      var c := changes[id];
      if c.status == Status.Cancelled { return Answered(id); }
      if c.status == Status.Applied || c.revision != revision { return Threw(Conflict); }
      changes :=
        changes[id := c.(status := Status.Cancelled, leaseOwner := None, leaseExpiresAt := None,
            revision := c.revision + 1)];
      return Answered(id);
    }

    method CallbackCheck(now: Time, p: Id, id: Id, revision: nat, confirmed: bool, instance: Id)
      returns (reply: Reply<Id>)
      modifies this`changes
      ensures (State(), reply) == AskingCallback(old(State()), now, p, id, revision, confirmed, instance)
    {
      if p !in store.products || id !in changes || changes[id].product != p { return Threw(NotFound); }
      var c := changes[id];
      if c.revision != revision { return Threw(Conflict); }
      if !confirmed || !store.products[p].hubRelay || c.status != Status.ActionRequired || c.executionDeadline <= now {
        return Threw(Conflict);
      }
      if !PointedAt(store.Image(), c, p, instance) { return Threw(Conflict); }
      changes := changes[id := c.(status := Status.Queued, revision := c.revision + 1)];
      return Answered(id);
    }

    method BeginApply(now: Time, p: Id, id: Id, revision: nat) returns (reply: Reply<Id>)
      modifies this`applying
      ensures (State(), reply) == Beginning(old(State()), now, p, id, revision)
    {
      if p !in store.products || id !in changes || changes[id].product != p { return Threw(NotFound); }
      var c := changes[id];
      if c.status == Status.Applied { return Answered(id); }
      if c.revision != revision { return Threw(Conflict); }
      if c.status != Status.Ready || c.expiresAt <= now { return Threw(Conflict); }
      applying := applying[p := Begun(id, now)];
      return Answered(id);
    }

    /** The second half of apply: review, write, mark. A throw, or too long a wait, leaves the tables as they were. */
    method EndApply(cfg: Config, now: Time, p: Id, setup: Setup, ls: Listings, walk: Walk, order: WriteOrder)
      returns (reply: Reply<Id>)
      requires p in applying && applying[p].id in changes
      requires AllKnown(store.Image(), ls) && WellFormed(changes[applying[p].id].draft)
      requires Walks(walk, changes[applying[p].id].draft, changes[applying[p].id].snapshot)
               && Orders(order, changes[applying[p].id].draft)
      modifies this, store
      ensures (State(), reply) == Ending(old(State()), cfg, now, p, setup, ls)
    {
      hide Raised, ReviewedReady, Configured, AllKnown, Walks, Detach, Review.Applied;
      var begun := applying[p];
      var id := begun.id;
      var c := changes[id];
      var d := c.draft;
      applying := applying - {p};
      if begun.at + APPLY_TIMEOUT < now { return Threw(Internal); }
      if p !in store.products || !(Mentioned(store.Image(), p, d) + c.snapshot.links.Keys <= store.hosts.Keys)
         || !(d.limits.Keys <= c.snapshot.hosts.Keys) {
        return Threw(Conflict);
      }
      var checks, actions, ready := EvaluateChange(store.Image(), cfg, setup, now, p, d, c.snapshot, ls, walk);
      if !ready { return Threw(Conflict); }
      var written := Write(p, d, setup, order);
      if written.Threw? { return Threw(Conflict); }
      changes :=
        changes[id := c.(status := Status.Applied, leaseOwner := None, leaseExpiresAt := None,
            revision := c.revision + 1)];
      applies := applies[id := applies[id] + 1];
      return Answered(id);
    }

    method Write(p: Id, d: Draft, setup: Setup, order: WriteOrder) returns (reply: Reply<()>)
      requires p in store.products && WellFormed(d) && Orders(order, d)
               && d.limits.Keys + d.identities.Keys <= store.hosts.Keys
      modifies store
      ensures var o := Review.Applied(old(store.Image()), setup, p, d);
                       store.Image() == Commit(old(store.Image()), o) && reply == ReplyOf(o)
    {
      hide WrittenHosts, WrittenLinks, DetachBlocked, Orders, Awaited;
      var product := store.products[p];
      if d.purpose == ToLegacy {
        store.products :=
          store.products[p := product.(mode := Legacy, defaultHost := d.target, revision := product.revision + 1)];
      } else if d.purpose == ToDetach {
        var pending := PendingDeliveries(store.Image(), setup.events, setup.batches, p, {d.target.value});
        var detached := store.DetachEmptyLink(p, d.target.value, pending);
        if detached.Threw? { return detached; }
        store.products := store.products[p := product.(revision := product.revision + 1)];
      } else {
        if d.purpose == ToSingle && (p, d.target.value) !in store.links {
          NotOwn(store.Image(), p, d.target.value);
          return Threw(NotFound);
        }
        if d.purpose == ToSingle { assert (p, d.target.value).1 in OwnHosts(store.Image(), p); }
        ApplyWrites(store, p, d, order);
      }
      return Answered(());
    }

    method ProcessNext(now: Time, id: Id, owner: Token)
      modifies this
      ensures State() == Claiming(old(State()), now, id, owner)
    {
      if id !in changes { return; }
      var c := changes[id];
      if c.status != Status.Queued && c.status != Status.Running { return; }
      if c.leaseExpiresAt.Some? && now < c.leaseExpiresAt.value { return; }
      if c.executionDeadline <= now {
        changes :=
          changes[id := c.(status := Status.Expired, revision := c.revision + 1, leaseOwner := None,
              leaseExpiresAt := None)];
        return;
      }
      var until := if now + PREPARER_LEASE < c.executionDeadline then now + PREPARER_LEASE else c.executionDeadline;
      changes :=
        changes[id := c.(status := Status.Running, leaseOwner := Some(owner), leaseExpiresAt := Some(until),
            revision := c.revision + 1)];
      tokens := tokens + {owner};
    }

    method Renew(now: Time, id: Id, owner: Token) returns (kept: bool)
      modifies this`changes
      ensures State() == Renewing(old(State()), now, id, owner)
      ensures kept ==> Holds(State(), id, owner)
    {
      if id !in changes || changes[id].status != Status.Running || changes[id].leaseOwner != Some(owner) {
        return false;
      }
      if changes[id].leaseExpiresAt.None? || changes[id].leaseExpiresAt.value <= now { return false; }
      var c := changes[id];
      var until := if now + PREPARER_LEASE < c.executionDeadline then now + PREPARER_LEASE else c.executionDeadline;
      changes := changes[id := c.(leaseExpiresAt := Some(until))];
      return true;
    }

    method PublishResult(id: Id, owner: Token, result: Diagnostics)
      modifies this`changes
      ensures State() == Publishing(old(State()), id, owner, result)
    {
      if id in changes && changes[id].leaseOwner == Some(owner) && changes[id].status == Status.Running {
        var c := changes[id];
        changes :=
          changes[id := c.(status := StatusOf(result), diagnostics := Some(result), revision := c.revision + 1,
              leaseOwner := None, leaseExpiresAt := None)];
      }
    }

    method RecordFailure(id: Id, owner: Token, aborted: bool, result: Diagnostics)
      modifies this`changes
      ensures State() == Faulting(old(State()), id, owner, aborted, result)
    {
      if id in changes && changes[id].leaseOwner == Some(owner) && changes[id].status == Status.Running {
        var c := changes[id];
        changes :=
          changes[id := c.(status := if aborted then Status.Expired
                                     else Status.Failed, diagnostics := Some(result), revision := c.revision + 1,
                                         leaseOwner := None, leaseExpiresAt := None)];
      }
    }
  }

  lemma NotOwn(db: Db, p: Id, h: Id)
    requires (p, h) !in db.links
    ensures h !in OwnHosts(db, p)
  {}
}
