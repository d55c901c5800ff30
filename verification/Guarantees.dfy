/** What the invariants and the step relation add up to: row life cycle, capacity, versioned occupancy. */
module Guarantees {
  import opened Basics
  import opened Occupancy
  import opened Tables
  import opened Admission
  import opened Provisioning
  import opened Protocol
  import opened Invariants

  // ----- a row's life -----

  /**
   Authorisation is entered only from `Reserved`, cleanup is left only by failing, a closed row
   stays as it closed.
   */
  predicate Follows(was: RowState, is_: RowState) {
    match was
    case Reserved => is_ == Reserved || is_ == Creating || is_ == Released || is_ == Failed
    case Creating => is_ == Creating || is_ == Uncertain || is_ == CleanupPending || is_ == Committed || is_ == Failed
    case Uncertain => is_ == Uncertain || is_ == CleanupPending || is_ == Committed || is_ == Failed
    case CleanupPending => is_ == CleanupPending || is_ == Failed
    case _ => is_ == was
  }

  predicate SameRow(was: Row, row: Row) {
    row.product == was.product && row.host == was.host && row.name == was.name
  }

  /** What no step undoes about a row. */
  ghost predicate Moved(was: Row, row: Row) {
    && SameRow(was, row)
    && Follows(was.state, row.state)
    && (if row.state == was.state then was.revision <= row.revision else was.revision < row.revision)
  }

  /** The ticket a step is taken with, when it only writes that ticket's row. */
  function TicketOf(step: Step): Option<Ticket> {
    match step
    case DoMarkCreating(_, t, _) => Some(t)
    case DoRecordCreated(t, _, _) => Some(t)
    case DoMarkWebhookApplied(t) => Some(t)
    case DoFinish(t) => Some(t)
    case DoMarkCleanup(t) => Some(t)
    case DoAbandon(t) => Some(t)
    case _ => None
  }

  /** The steps that write provisioning rows at all. */
  predicate WritesRows(step: Step) {
    TicketOf(step).Some? || step.DoReserve? || step.DoRemove? || step.DoClaim? || step.DoDetach?
  }

  lemma OthersLeaveRows(db: Db, cfg: Config, now: Time, step: Step)
    requires Can(db, step) && !WritesRows(step)
    ensures After(db, cfg, now, step).rows == db.rows
  {
    hide Unsettled, NotFoundIn;
  }

  /** A holder's step writes its own row, and only while it owns it. */
  ghost predicate OnlyOwnRow(db: Db, t: Ticket, after: Db) {
    if Owns(db, t)
      then t.row in after.rows && after.rows == db.rows[t.row := after.rows[t.row]]
           && Moved(db.rows[t.row], after.rows[t.row])
    else after == db
  }

  lemma MarkCreatingMovesRow(db: Db, cfg: Config, now: Time, b: Budget, t: Ticket, l: Listing)
    requires Known(db, l)
    ensures OnlyOwnRow(db, t, Commit(db, MarkCreating(db, cfg, now, b, t, l)))
  {
    hide WithinControls;
  }

  lemma RecordCreatedMovesRow(db: Db, now: Time, t: Ticket, newId: Id, remoteId: Option<RemoteId>)
    requires newId !in db.instances
    ensures OnlyOwnRow(db, t, Commit(db, RecordCreated(db, now, t, newId, remoteId)))
  {}

  lemma FinishMovesRow(db: Db, now: Time, t: Ticket)
    ensures OnlyOwnRow(db, t, Commit(db, Finish(db, now, t)))
  {}

  lemma SetRowIsOwn(db: Db, t: Ticket, row: Row)
    requires Owns(db, t) && Moved(db.rows[t.row], row)
    ensures OnlyOwnRow(db, t, SetRow(db, t.row, row))
  {}

  lemma StandingStillIsOwn(db: Db, t: Ticket)
    ensures OnlyOwnRow(db, t, db)
  {
    if Owns(db, t) { assert db.rows == db.rows[t.row := db.rows[t.row]]; }
  }

  lemma SmallStepMovesRow(db: Db, t: Ticket)
    ensures OnlyOwnRow(db, t, Commit(db, MarkWebhookApplied(db, t)))
    ensures OnlyOwnRow(db, t, Commit(db, MarkCleanup(db, t)))
  {
    if Owns(db, t) {
      hide OnlyOwnRow;
      var row := db.rows[t.row];
      StandingStillIsOwn(db, t);
      if row.payload.Some? {
        SetRowIsOwn(db, t,
                    row.(payload := Some(row.payload.value.(webhookApplied := true)), revision := row.revision + 1));
      }
      if row.state != Reserved {
        SetRowIsOwn(db, t, row.(state := CleanupPending, revision := row.revision + 1));
      }
    } else {
      assert MarkWebhookApplied(db, t).Refused? && MarkCleanup(db, t).Refused?;
    }
  }

  lemma AbandonMovesRow(db: Db, cfg: Config, now: Time, t: Ticket)
    ensures OnlyOwnRow(db, t, Commit(db, Abandon(db, cfg, now, t)))
  {}

  lemma HolderStepMovesRow(db: Db, cfg: Config, now: Time, step: Step)
    requires Can(db, step) && TicketOf(step).Some?
    ensures OnlyOwnRow(db, TicketOf(step).value, After(db, cfg, now, step))
  {
    hide MarkCreating, RecordCreated, Finish, MarkWebhookApplied, MarkCleanup, Abandon, OnlyOwnRow, Genuine, Lists,
         Unreported;
    match step
    case DoMarkCreating(b, t, l) => MarkCreatingMovesRow(db, cfg, now, b, t, l);
    case DoRecordCreated(t, newId, remoteId) => RecordCreatedMovesRow(db, now, t, newId, remoteId);
    case DoFinish(t) => FinishMovesRow(db, now, t);
    case DoMarkWebhookApplied(t) => SmallStepMovesRow(db, t);
    case DoMarkCleanup(t) => SmallStepMovesRow(db, t);
    case DoAbandon(t) => AbandonMovesRow(db, cfg, now, t);
  }

  lemma RemovalMovesRows(db: Db, i: Id, p: Id, h: Id, holder: Option<Ticket>, r: Id)
    requires r in db.rows
    ensures var after := Commit(db, RemoveConfirmed(db, i, p, h, holder));
            && r in after.rows && Moved(db.rows[r], after.rows[r])
            && (after.rows[r].state != db.rows[r].state ==>
                  holder.Some? && holder.value.row == r && Owns(db, holder.value))
  {}

  /** A reservation inserts its row, at most links the pair first, and advances the host's version. */
  lemma ReserveWrites(db: Db, cfg: Config, now: Time, b: Budget, q: Request, seen: Observed, l: Listing)
    requires Known(db, l) && q.row !in db.rows
    requires Reserve(db, cfg, now, b, q, seen, l).Done?
    ensures var linked := Admit(db, cfg, now, q.product, q.host, false, l);
            && linked.Done? && linked.db == db.(links := linked.db.links) && q.host in db.hosts
            && Reserve(db, cfg, now, b, q, seen, l).db == Advance(SetRow(linked.db, q.row, NewRow(q, b, now)), q.host)
  {
    hide WithinControls, NameTaken, CandidateOrder;
  }

  lemma ReserveMovesRows(db: Db, cfg: Config, now: Time, b: Budget, q: Request, seen: Observed, l: Listing)
    requires Known(db, l) && q.row !in db.rows
    ensures var o := Reserve(db, cfg, now, b, q, seen, l);
            o.Done? ==> o.db.rows == db.rows[q.row := NewRow(q, b, now)]
  {
    hide Reserve, Admit;
    if Reserve(db, cfg, now, b, q, seen, l).Done? { ReserveWrites(db, cfg, now, b, q, seen, l); }
  }

  /** Claiming writes one expired open row at most: an unsent one is released, any other gets a new owner. */
  ghost predicate ClaimOnly(db: Db, now: Time, b: Budget, r: Id, owner: Token, after: Db) {
    || after == db
    || (OpenRow(db, r) && db.rows[r].state == Reserved && after.rows == db.rows[r := Closed(db.rows[r], Released)])
    || (OpenRow(db, r) && db.rows[r].state != Reserved
        && after.rows == db.rows[r := Claimed(db.rows[r], now, b, owner)])
  }

  lemma ClaimWrites(db: Db, now: Time, b: Budget, r: Id, owner: Token)
    ensures ClaimOnly(db, now, b, r, owner, Commit(db, Claim(db, now, b, r, owner)))
  {}

  lemma ClaimMovesRows(db: Db, now: Time, b: Budget, r: Id, owner: Token)
    ensures var after := Commit(db, Claim(db, now, b, r, owner));
            if r in db.rows
              then r in after.rows && after.rows == db.rows[r := after.rows[r]] && Moved(db.rows[r], after.rows[r])
            else after == db
  {
    hide Claim;
    ClaimWrites(db, now, b, r, owner);
  }

  lemma DetachMovesRows(db: Db, p: Id, h: Id, deliveries: bool, r: Id)
    requires r in db.rows
    ensures var after := Commit(db, Detach(db, p, h, deliveries));
            r in after.rows && Moved(db.rows[r], after.rows[r])
            && after.rows[r] == db.rows[r].(link := after.rows[r].link)
  {
    hide DetachBlocked;
  }

  lemma StepMovesRow(db: Db, cfg: Config, now: Time, step: Step, r: Id)
    requires Can(db, step) && r in db.rows
    ensures r in After(db, cfg, now, step).rows
    ensures Moved(db.rows[r], After(db, cfg, now, step).rows[r])
  {
    hide Reserve, RemoveConfirmed, Claim, Detach, Owns;
    if TicketOf(step).Some? {
      HolderStepMovesRow(db, cfg, now, step);
    } else if !WritesRows(step) {
      OthersLeaveRows(db, cfg, now, step);
    } else {
      match step
      case DoReserve(b, q, seen, l) => ReserveMovesRows(db, cfg, now, b, q, seen, l);
      case DoRemove(i, p, h, holder) => RemovalMovesRows(db, i, p, h, holder, r);
      case DoClaim(b, k, owner) => ClaimMovesRows(db, now, b, k, owner);
      case DoDetach(p, h, deliveries) => DetachMovesRows(db, p, h, deliveries, r);
    }
  }

  // ----- runs -----

  datatype Event = Event(now: Time, step: Step)

  /** Any interleaving of anyone's steps, each committed at its moment of a clock that does not go back. */
  ghost predicate IsRun(cfg: Config, states: seq<Db>, events: seq<Event>) {
    && |states| == |events| + 1
    && (forall k :: 0 <= k < |events| ==> StepsTo(cfg, states[k], events[k], states[k + 1]))
    && (forall j, k :: 0 <= j < k < |events| ==> events[j].now <= events[k].now)
  }

  ghost predicate StepsTo(cfg: Config, db: Db, e: Event, after: Db) {
    Can(db, e.step) && after == After(db, cfg, e.now, e.step)
  }

  lemma {:induction false} RunKeepsInv(cfg: Config, states: seq<Db>, events: seq<Event>, k: nat)
    requires IsRun(cfg, states, events) && Inv(states[0]) && k < |states|
    ensures Inv(states[k])
  {
    hide Inv, After;
    if k > 0 {
      RunKeepsInv(cfg, states, events, k - 1);
      assert StepsTo(cfg, states[k - 1], events[k - 1], states[k]);
      StepKeepsInv(states[k - 1], cfg, events[k - 1].now, events[k - 1].step);
    }
  }

  /** The row states still possible from a given one. */
  predicate Reaches(was: RowState, is_: RowState) {
    match was
    case Reserved => true
    case Creating => is_ != Reserved && is_ != Released
    case Uncertain => is_ != Reserved && is_ != Released && is_ != Creating
    case CleanupPending => is_ == CleanupPending || is_ == Failed
    case _ => is_ == was
  }

  /** A row is never lost, never renamed, never moved, and never goes back. */
  lemma {:induction false} RowLife(cfg: Config, states: seq<Db>, events: seq<Event>, i: nat, j: nat, r: Id)
    requires IsRun(cfg, states, events) && i <= j < |states| && r in states[i].rows
    ensures r in states[j].rows
    ensures SameRow(states[i].rows[r], states[j].rows[r])
    ensures Reaches(states[i].rows[r].state, states[j].rows[r].state)
    ensures states[i].rows[r].revision <= states[j].rows[r].revision
    decreases j - i
  {
    hide After, Can;
    if i < j {
      RowLife(cfg, states, events, i, j - 1, r);
      assert StepsTo(cfg, states[j - 1], events[j - 1], states[j]);
      StepMovesRow(states[j - 1], cfg, events[j - 1].now, events[j - 1].step, r);
    }
  }

  /** The step at `k` authorises the remote creation for row `r`. */
  ghost predicate AuthorisesAt(states: seq<Db>, k: nat, r: Id) {
    k + 1 < |states| && r in states[k].rows && r in states[k + 1].rows
    && states[k].rows[r].state == Reserved && states[k + 1].rows[r].state == Creating
  }

  /** `markCreating` succeeds at most once per row, and a row it succeeded for is never released. */
  lemma AuthorisedAtMostOnce(cfg: Config, states: seq<Db>, events: seq<Event>, i: nat, j: nat, r: Id)
    requires IsRun(cfg, states, events) && AuthorisesAt(states, i, r) && i < j < |states|
    ensures !AuthorisesAt(states, j, r)
    ensures r in states[j].rows && states[j].rows[r].state != Reserved && states[j].rows[r].state != Released
  {
    RowLife(cfg, states, events, i + 1, j, r);
  }

  // ----- the name lock pays off -----

  /**
   Recording a confirmed creation cannot collide by name with any other session, however
   imports, deletions and creations interleaved: the one obstacle left is a remote id
   already recorded on that host.
   */
  lemma RecordingOnlyFailsOnRemoteId(db: Db, now: Time, t: Ticket, newId: Id, remoteId: Option<RemoteId>)
    requires Inv(db) && Owns(db, t) && Genuine(db, t) && newId !in db.instances
    requires db.rows[t.row].state == Creating || db.rows[t.row].state == Uncertain
    ensures RecordCreated(db, now, t, newId, remoteId).Done? <==>
              || db.rows[t.row].instance.Some?
              || remoteId.None?
              || forall i :: i in db.instances && db.instances[i].host == t.host ==>
                               db.instances[i].remoteId != remoteId
  {
    var row := db.rows[t.row];
    RowFacts(db, t.row);
    OpenRowLinked(db, t.row);
    if row.instance.None? {
      var x := Instance(row.product, row.host, row.name, remoteId, now);
      forall i | i in db.instances
        ensures !SharesName(db.instances[i].product, db.instances[i].host, db.instances[i].name, x.product, x.host,
                            x.name) {
        if SharesName(db.instances[i].product, db.instances[i].host, db.instances[i].name, row.product, row.host,
                      row.name) {
          NamesakeIsOwnRecord(db, i, t.row);
        }
      }
      assert InstanceCollides(db, x) <==>
               exists i ::
                 i in db.instances && db.instances[i].host == x.host && db.instances[i].remoteId.Some?
                 && db.instances[i].remoteId == remoteId by {
        hide Inv;
      }
    }
  }

  lemma OpenRowLinked(db: Db, r: Id)
    requires Inv(db) && OpenRow(db, r)
    ensures db.rows[r].product in db.products && db.rows[r].host in db.hosts
  {
    assert (db.rows[r].product, db.rows[r].host) in db.links;
  }

  lemma NamesakeIsOwnRecord(db: Db, i: Id, r: Id)
    requires Inv(db) && i in db.instances && OpenRow(db, r)
    requires SharesName(db.instances[i].product, db.instances[i].host, db.instances[i].name, db.rows[r].product,
                        db.rows[r].host, db.rows[r].name)
    ensures db.rows[r].instance == Some(i)
  {}

  // ----- closed rows that keep blocking -----

  /**
   A closed row should no longer hold up detaching its host or restoring the legacy mode.
   It does exactly when it was closed by `abandon`, which leaves an expiry behind: the
   three other ways of closing a row clear its lease columns.
   */
  lemma ClosingLeavesPending(db: Db, cfg: Config, now: Time, step: Step, r: Id)
    requires Can(db, step) && OpenRow(db, r) && r in After(db, cfg, now, step).rows
    requires !Open(After(db, cfg, now, step).rows[r].state)
    ensures Pending(After(db, cfg, now, step).rows[r]) <==> step.DoAbandon?
  {
    hide Reserve, Detach, Finish, RemoveConfirmed, Abandon, Claim, RecordCreated, MarkCreating, MarkCleanup,
         MarkWebhookApplied, OnlyOwnRow, Follows;
    if TicketOf(step).Some? {
      HolderClosing(db, cfg, now, step, r);
    } else if !WritesRows(step) {
      OthersLeaveRows(db, cfg, now, step);
    } else {
      match step
      case DoReserve(b, q, seen, l) => ReserveMovesRows(db, cfg, now, b, q, seen, l);
      case DoRemove(i, p, h, holder) => RemovalCloses(db, i, p, h, holder, r);
      case DoClaim(b, k, owner) => ClaimCloses(db, now, b, k, owner, r);
      case DoDetach(p, h, deliveries) => DetachMovesRows(db, p, h, deliveries, r);
    }
  }

  lemma HolderClosing(db: Db, cfg: Config, now: Time, step: Step, r: Id)
    requires Can(db, step) && OpenRow(db, r) && TicketOf(step).Some? && r in After(db, cfg, now, step).rows
    requires !Open(After(db, cfg, now, step).rows[r].state)
    ensures Pending(After(db, cfg, now, step).rows[r]) <==> step.DoAbandon?
  {
    hide WithinControls, InstanceCollides, Moved, MarkCreating, RecordCreated, MarkWebhookApplied, MarkCleanup;
    if !step.DoAbandon? && !step.DoFinish? {
      HolderKeepsOpen(db, cfg, now, step, r);
    }
  }

  lemma HolderKeepsOpen(db: Db, cfg: Config, now: Time, step: Step, r: Id)
    requires Can(db, step) && OpenRow(db, r) && TicketOf(step).Some? && !step.DoAbandon? && !step.DoFinish?
    ensures OpenRow(After(db, cfg, now, step), r)
  {
    hide WithinControls, InstanceCollides;
  }

  lemma RemovalCloses(db: Db, i: Id, p: Id, h: Id, holder: Option<Ticket>, r: Id)
    requires OpenRow(db, r)
    ensures var after := Commit(db, RemoveConfirmed(db, i, p, h, holder));
            r in after.rows && (Open(after.rows[r].state) || !Pending(after.rows[r]))
  {}

  lemma ClaimCloses(db: Db, now: Time, b: Budget, k: Id, owner: Token, r: Id)
    requires OpenRow(db, r)
    ensures var after := Commit(db, Claim(db, now, b, k, owner));
            r in after.rows && (Open(after.rows[r].state) || !Pending(after.rows[r]))
  {
    hide Claim;
    ClaimWrites(db, now, b, k, owner);
  }

  /** And it is never cleared: from then on the row's product can neither go back to legacy nor leave the host. */
  lemma AbandonedReservationBlocksForever(cfg: Config, states: seq<Db>, events: seq<Event>, k: nat, j: nat, t: Ticket,
        deliveries: bool, target: Id)
    requires IsRun(cfg, states, events) && k < j < |states|
    requires events[k].step == DoAbandon(t) && Owns(states[k], t) && states[k].rows[t.row].state == Reserved
    requires t.host in states[k].hosts
    ensures t.row in states[j].rows && ReleasedPending(states[j].rows[t.row])
    ensures Detach(states[j], t.product, t.host, deliveries).Refused?
    ensures RestoreLegacy(states[j], t.product, target, deliveries).Refused?
  {
    hide Abandon, Detach, RestoreLegacy;
    assert StepsTo(cfg, states[k], events[k], states[k + 1]);
    AbandonReleases(states[k], cfg, events[k].now, t);
    ReleasedPendingStays(cfg, states, events, k + 1, j, t.row);
    PendingBlocks(states[j], t.row, deliveries, target);
  }

  predicate ReleasedPending(row: Row) {
    row.state == Released && row.leaseExpiresAt.Some?
  }

  lemma AbandonReleases(db: Db, cfg: Config, now: Time, t: Ticket)
    requires Owns(db, t) && db.rows[t.row].state == Reserved && Genuine(db, t) && t.host in db.hosts
    ensures var after := Commit(db, Abandon(db, cfg, now, t));
            t.row in after.rows && ReleasedPending(after.rows[t.row]) && after.rows[t.row].product == t.product
            && after.rows[t.row].host == t.host
  {}

  lemma PendingBlocks(db: Db, r: Id, deliveries: bool, target: Id)
    requires r in db.rows && Pending(db.rows[r])
    ensures Detach(db, db.rows[r].product, db.rows[r].host, deliveries).Refused?
    ensures RestoreLegacy(db, db.rows[r].product, target, deliveries).Refused?
  {}

  lemma {:induction false} ReleasedPendingStays(cfg: Config, states: seq<Db>, events: seq<Event>, i: nat, j: nat, r: Id)
    requires IsRun(cfg, states, events) && i <= j < |states| && r in states[i].rows
             && ReleasedPending(states[i].rows[r])
    ensures r in states[j].rows && ReleasedPending(states[j].rows[r]) && SameRow(states[i].rows[r], states[j].rows[r])
    decreases j - i
  {
    hide After, Can;
    if i < j {
      ReleasedPendingStays(cfg, states, events, i, j - 1, r);
      assert StepsTo(cfg, states[j - 1], events[j - 1], states[j]);
      ReleasedRowStays(states[j - 1], cfg, events[j - 1].now, events[j - 1].step, r);
      StepMovesRow(states[j - 1], cfg, events[j - 1].now, events[j - 1].step, r);
    }
  }

  lemma ReleasedRowStays(db: Db, cfg: Config, now: Time, step: Step, r: Id)
    requires Can(db, step) && r in db.rows && ReleasedPending(db.rows[r])
    ensures r in After(db, cfg, now, step).rows && ReleasedPending(After(db, cfg, now, step).rows[r])
  {
    hide Reserve, Detach, RemoveConfirmed, Claim, Genuine, Lists, Unreported, Finish, Abandon, RecordCreated,
         MarkCreating, MarkCleanup, MarkWebhookApplied;
    if TicketOf(step).Some? {
      HolderStepMovesRow(db, cfg, now, step);
    } else if !WritesRows(step) {
      OthersLeaveRows(db, cfg, now, step);
    } else {
      match step
      case DoReserve(b, q, seen, l) => ReserveMovesRows(db, cfg, now, b, q, seen, l);
      case DoRemove(i, p, h, holder) => RemovalSparesClosed(db, i, p, h, holder, r);
      case DoClaim(b, k, owner) => ClaimSparesClosed(db, now, b, k, owner, r);
      case DoDetach(p, h, deliveries) => DetachMovesRows(db, p, h, deliveries, r);
    }
  }

  lemma RemovalSparesClosed(db: Db, i: Id, p: Id, h: Id, holder: Option<Ticket>, r: Id)
    requires r in db.rows && !Open(db.rows[r].state)
    ensures var after := Commit(db, RemoveConfirmed(db, i, p, h, holder));
            r in after.rows && after.rows[r].state == db.rows[r].state
            && after.rows[r].leaseExpiresAt == db.rows[r].leaseExpiresAt
  {}

  lemma ClaimSparesClosed(db: Db, now: Time, b: Budget, k: Id, owner: Token, r: Id)
    requires r in db.rows && !Open(db.rows[r].state)
    ensures var after := Commit(db, Claim(db, now, b, k, owner)); r in after.rows && after.rows[r] == db.rows[r]
  {
    hide Claim;
    ClaimWrites(db, now, b, k, owner);
  }
}
