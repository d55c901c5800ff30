/**
 Lease exclusion over every interleaving: while an executor can have a remote call under
 way its row is its own, a row is sent at most once, and a row closes only with evidence.
 */
module Exclusion {
  import opened Basics
  import opened Occupancy
  import opened Tables
  import opened Admission
  import opened Provisioning
  import opened Protocol
  import opened Invariants
  import opened Guarantees
  import opened Executors

  predicate Unexpired(p: Proc, now: Time) {
    now < p.budget.deadline + LEASE_MARGIN
  }

  /** The pcs that take it as settled that the row is under cleanup. */
  predicate Cleansing(p: Proc) {
    p.pc.Cleaning? || p.pc.Deleting? || p.pc.Gone? ||
    (p.work.Recovery? && p.work.cleanup && (p.pc.Taken? || p.pc.Fetching? || p.pc.Found?))
  }

  /** What a process takes the row's recorded instance to be, at the pcs that rely on it. */
  function Believes(p: Proc): Option<Option<Id>> {
    match p.pc
    case Recorded(i) => Some(Some(i))
    case Hooking(i) => Some(Some(i))
    case Applying(i) => Some(Some(i))
    case Applied(i) => Some(Some(i))
    case Failing(i) => Some(Some(i))
    case Gone(i) => Some(Some(i))
    case Cleaning(known) => Some(known)
    case Deleting(known) => Some(known)
    case Taken => if p.work.Recovery? && p.work.cleanup then Some(p.work.recorded) else None
    case Fetching => if p.work.Recovery? && p.work.cleanup then Some(p.work.recorded) else None
    case Found(_) => if p.work.Recovery? && p.work.cleanup then Some(p.work.recorded) else None
    case _ => None
  }

  /** An unexpired process still owns its row, and a call under way leaves time to spare. */
  ghost predicate Leasehold(s: Sys, p: Proc) {
    && p.ticket.row in s.db.rows && Genuine(s.db, p.ticket)
    && (Holding(p.pc) && Unexpired(p, s.now) ==> Owns(s.db, p.ticket))
    && (p.call.Some? <==> Calling(p.pc))
    && (p.call.Some? ==> s.now <= p.call.value.endsBy <= p.budget.deadline - FINISH_MARGIN)
    && (Owns(s.db, p.ticket) && Cleansing(p) ==> s.db.rows[p.ticket.row].state == CleanupPending)
    && (Owns(s.db, p.ticket) && Believes(p).Some? ==> s.db.rows[p.ticket.row].instance == Believes(p).value)
  }

  predicate Sent(state: RowState) {
    state != Reserved && state != Released
  }

  predicate Answered(p: Proc, a: Answer) {
    p.call.Some? && p.call.value.answer == Some(a)
  }

  /** What a process knows from its calls is what happened. */
  ghost predicate Evidence(s: Sys, p: Proc)
    requires p.ticket.row in s.db.rows
  {
    var r := p.ticket.row;
    && (p.pc.Authorised? ==>
          s.posts[r] == 0 && Sent(s.db.rows[r].state) && (r in s.gone ==> p.budget.deadline <= s.now))
    && (p.pc.Posting? ==> r !in s.gone)
    && (p.pc.Gone? ==> r in s.gone)
    && (p.pc.Applied? ==> r in s.hooked)
    && (p.pc.Deleting? && (Answered(p, Fine) || Answered(p, NotThere)) ==> r in s.gone)
    && (p.pc.Fetching? && p.work.Recovery? && p.work.cleanup && Answered(p, NotThere) ==> r in s.gone)
    && (p.pc.Applying? && Answered(p, Fine) ==> r in s.hooked)
  }

  ghost predicate ProcOk(s: Sys, tok: Token) {
    tok in s.procs && s.procs[tok].ticket.owner == tok && Leasehold(s, s.procs[tok]) && Evidence(s, s.procs[tok])
  }

  predicate Held(s: Sys, row: Row, r: Id) {
    Open(row.state) && row.leaseOwner.Some? ==>
      && row.leaseOwner.value in s.procs
      && s.procs[row.leaseOwner.value].ticket.row == r
      && row.leaseExpiresAt == Some(s.procs[row.leaseOwner.value].budget.deadline + LEASE_MARGIN)
  }

  /**
   A row is sent at most once, failed only after its session was gone, and carries a webhook only
   once accepted; where none is marked as applied, one was asked for.
   */
  predicate Justified(s: Sys, row: Row, r: Id) {
    && s.posts[r] <= 1 && (!Sent(row.state) ==> s.posts[r] == 0)
    && (row.state == Failed ==> r in s.gone)
    && (r in s.gone ==> row.state == CleanupPending || row.state == Failed)
    && (row.state == Committed || (row.payload.Some? && row.payload.value.webhookApplied) ==>
          r in s.plain || r in s.hooked)
    && (row.payload.Some? ==> row.payload.value.webhookApplied || row.payload.value.webhook.Some?)
  }

  ghost predicate RowOk(s: Sys, r: Id) {
    r in s.db.rows && Held(s, s.db.rows[r], r) && Justified(s, s.db.rows[r], r)
  }

  /** History is about rows that exist. */
  ghost predicate HistoryGrounded(s: Sys) {
    forall r :: r in s.posts || r in s.gone || r in s.hooked || r in s.plain ==> r in s.db.rows
  }

  predicate AuthorisedFor(s: Sys, a: Token, b: Token) {
    && a in s.procs && s.procs[a].pc.Authorised?
    && b in s.procs && s.procs[b].pc.Authorised?
    && s.procs[a].ticket.row == s.procs[b].ticket.row
  }

  ghost predicate AuthorisedAlone(s: Sys) {
    forall a, b :: AuthorisedFor(s, a, b) ==> a == b
  }

  ghost predicate SysInv(s: Sys) {
    && Inv(s.db) && HistoryGrounded(s) && AuthorisedAlone(s)
    && (forall tok :: tok in s.procs ==> ProcOk(s, tok))
    && (forall r :: r in s.db.rows ==> RowOk(s, r))
  }

  // ----- what a step leaves of other rows -----

  ghost predicate Spares(db: Db, after: Db, r: Id) {
    && r in db.rows && r in after.rows && Moved(db.rows[r], after.rows[r])
    && (if Open(db.rows[r].state) then after.rows[r] == db.rows[r]
        else after.rows[r].payload == db.rows[r].payload || after.rows[r].payload.None?)
  }

  /** The ticket a step acts with, if any. */
  function HolderOf(step: Step): Option<Ticket> {
    if step.DoRemove? then step.holder else TicketOf(step)
  }

  /** A removal by a row's holder removes the instance that row recorded. */
  predicate RemovesOwn(db: Db, step: Step) {
    step.DoRemove? && step.holder.Some? && Owns(db, step.holder.value) ==>
      db.rows[step.holder.value.row].instance == Some(step.i)
  }

  lemma OthersSpare(db: Db, cfg: Config, now: Time, step: Step, r: Id)
    requires Inv(db) && Can(db, step) && r in db.rows && Shaped(db.rows[r]) && RemovesOwn(db, step)
    requires !step.DoClaim?
             && !(HolderOf(step).Some? && HolderOf(step).value.row == r && Owns(db, HolderOf(step).value))
    ensures Spares(db, After(db, cfg, now, step), r)
  {
    hide Inv, Reserve, Detach, Finish, RemoveConfirmed, Abandon, Claim, RecordCreated, MarkCreating, MarkCleanup,
         MarkWebhookApplied;
    StepMovesRow(db, cfg, now, step, r);
    if TicketOf(step).Some? {
      HolderStepMovesRow(db, cfg, now, step);
    } else if !WritesRows(step) {
      OthersLeaveRows(db, cfg, now, step);
    } else {
      match step
      case DoReserve(b, q, seen, l) => ReserveMovesRows(db, cfg, now, b, q, seen, l);
      case DoRemove(i, p, h, holder) => RemovalSpares(db, i, p, h, holder, r);
      case DoDetach(p, h, deliveries) => DetachSpares(db, p, h, deliveries, r);
    }
  }

  /** Two open rows never recorded the same instance. */
  lemma OneRowPerInstance(db: Db, r: Id, s: Id, i: Id)
    requires Inv(db) && OpenRow(db, r) && OpenRow(db, s) && db.rows[r].instance == Some(i)
             && db.rows[s].instance == Some(i)
    ensures r == s
  {
    hide InstanceNamesLocked, InstancesUnique, RowsShaped, LinksIntact;
    assert RecordedAs(db, db.rows[r]) && RecordedAs(db, db.rows[s]);
  }

  lemma RemovalSpares(db: Db, i: Id, p: Id, h: Id, holder: Option<Ticket>, r: Id)
    requires Inv(db) && r in db.rows && !(holder.Some? && holder.value.row == r && Owns(db, holder.value))
    requires holder.Some? && Owns(db, holder.value) ==> db.rows[holder.value.row].instance == Some(i)
    ensures var after := Commit(db, RemoveConfirmed(db, i, p, h, holder));
            r in after.rows
            && (if Open(db.rows[r].state) then after.rows[r] == db.rows[r]
                else after.rows[r].payload == db.rows[r].payload)
  {
    hide Inv;
    if OpenRow(db, r) && db.rows[r].instance == Some(i) && holder.Some? && Owns(db, holder.value) {
      OneRowPerInstance(db, r, holder.value.row, i);
    }
  }

  lemma DetachSpares(db: Db, p: Id, h: Id, deliveries: bool, r: Id)
    requires r in db.rows
    ensures var after := Commit(db, Detach(db, p, h, deliveries));
            && r in after.rows && after.rows[r].payload == db.rows[r].payload
            && (Open(db.rows[r].state) ==> after.rows[r] == db.rows[r])
  {
    hide DetachBlocked;
  }

  // ----- what an action leaves of other processes and rows -----

  /** History only grows. */
  ghost predicate Grows(s: Sys, s2: Sys, r: Id) {
    && s2.posts[r] == s.posts[r]
    && (r in s.gone ==> r in s2.gone) && (r in s.hooked ==> r in s2.hooked) && (r in s.plain ==> r in s2.plain)
  }

  /** A process that did not act keeps its standing if its row was spared, or was no longer its own. */
  lemma ProcKept(s: Sys, s2: Sys, tok: Token)
    requires ProcOk(s, tok) && tok in s2.procs && s2.procs[tok] == s.procs[tok]
    requires s.now <= s2.now && (s.procs[tok].call.Some? ==> s2.now <= s.procs[tok].call.value.endsBy)
    requires var r := s.procs[tok].ticket.row;
             && Grows(s, s2, r) && r in s2.db.rows && Moved(s.db.rows[r], s2.db.rows[r])
             && (r in s2.gone && r !in s.gone ==>
                   !s.procs[tok].pc.Posting? && (Holding(s.procs[tok].pc) ==> s.procs[tok].budget.deadline <= s2.now))
    requires Owns(s2.db, s.procs[tok].ticket) ==>
               && Owns(s.db, s.procs[tok].ticket)
                  && s2.db.rows[s.procs[tok].ticket.row].state == s.db.rows[s.procs[tok].ticket.row].state
               && s2.db.rows[s.procs[tok].ticket.row].instance == s.db.rows[s.procs[tok].ticket.row].instance
    requires Owns(s.db, s.procs[tok].ticket) && Holding(s.procs[tok].pc) && Unexpired(s.procs[tok], s2.now) ==>
               Owns(s2.db, s.procs[tok].ticket)
    ensures ProcOk(s2, tok)
  {}

  lemma SparedProcKept(s: Sys, s2: Sys, tok: Token)
    requires ProcOk(s, tok) && tok in s2.procs && s2.procs[tok] == s.procs[tok] && s2.now == s.now
    requires Spares(s.db, s2.db, s.procs[tok].ticket.row) && Grows(s, s2, s.procs[tok].ticket.row)
    requires s.procs[tok].ticket.row in s2.gone ==> s.procs[tok].ticket.row in s.gone
    ensures ProcOk(s2, tok)
  {
    hide Evidence;
    ProcKept(s, s2, tok);
  }

  lemma SparedRowKept(s: Sys, s2: Sys, r: Id)
    requires RowOk(s, r) && Spares(s.db, s2.db, r) && Grows(s, s2, r)
    requires r in s2.gone ==> r in s.gone
    requires forall tok :: tok in s.procs ==>
                             tok in s2.procs && s2.procs[tok].ticket == s.procs[tok].ticket
                             && s2.procs[tok].budget.deadline == s.procs[tok].budget.deadline
    ensures RowOk(s2, r)
  {}

  // ----- actions that leave the tables alone -----

  lemma ProcFact(s: Sys, tok: Token)
    requires SysInv(s) && tok in s.procs
    ensures ProcOk(s, tok)
  {
    hide Inv, Evidence, Leasehold, Held, Justified, HistoryGrounded, AuthorisedAlone;
  }

  lemma RowFact(s: Sys, r: Id)
    requires SysInv(s) && r in s.db.rows
    ensures RowOk(s, r)
  {
    hide Inv, Evidence, Leasehold, Held, Justified, HistoryGrounded, AuthorisedAlone;
  }

  lemma AloneFact(s: Sys, a: Token, b: Token)
    requires SysInv(s) && AuthorisedFor(s, a, b)
    ensures a == b
  {
    hide Inv, Evidence, Leasehold, Held, Justified, HistoryGrounded;
  }

  lemma ActorMoves(s: Sys, tok: Token, p: Proc)
    requires SysInv(s) && tok in s.procs
    requires p.ticket == s.procs[tok].ticket && p.budget.deadline == s.procs[tok].budget.deadline
    requires p.pc.Authorised? ==> s.procs[tok].pc.Authorised?
    requires ProcOk(Put(s, tok, p), tok)
    ensures SysInv(Put(s, tok, p))
  {
    hide Inv, Evidence, Leasehold;
    var s2 := Put(s, tok, p);
    assert forall a, b :: AuthorisedFor(s2, a, b) ==> AuthorisedFor(s, a, b);
    forall other | other in s2.procs ensures ProcOk(s2, other) {
      if other != tok { ProcFact(s, other); OtherProcSame(s, tok, p, other); }
    }
    forall r | r in s2.db.rows ensures RowOk(s2, r) { RowFact(s, r); }
  }

  lemma OtherProcSame(s: Sys, tok: Token, p: Proc, other: Token)
    requires ProcOk(s, other) && other != tok
    ensures ProcOk(Put(s, tok, p), other)
  {}

  lemma ReturnsActs(s: Sys, tok: Token, lost: bool)
    requires ProcOk(s, tok) && s.procs[tok].call.Some?
    ensures var p := s.procs[tok];
            ProcOk(Put(s, tok, p.(pc := Next(p, if lost then None else p.call.value.answer), call := None)), tok)
  {}

  lemma ProceedsActs(s: Sys, tok: Token, skip: bool)
    requires ProcOk(s, tok) && s.procs[tok].call.None? && Moves(s.procs[tok], skip).Some?
    ensures ProcOk(Put(s, tok, s.procs[tok].(pc := Moves(s.procs[tok], skip).value)), tok)
  {}

  lemma StopsAct(s: Sys, tok: Token)
    requires ProcOk(s, tok)
    ensures ProcOk(Put(s, tok, s.procs[tok].(crashed := true)), tok)
    ensures ProcOk(Put(s, tok, s.procs[tok].(budget := s.procs[tok].budget.(aborted := true))), tok)
    ensures s.procs[tok].call.None? ==> ProcOk(Put(s, tok, s.procs[tok].(pc := Closing)), tok)
  {}

  lemma ProcessMovesKeep(s: Sys, cfg: Config, a: Action)
    requires SysInv(s) && May(s, cfg, a) && (a.Returns? || a.Proceeds? || a.Throws? || a.Aborts? || a.Crashes?)
    ensures SysInv(Do(s, cfg, a))
  {
    hide SysInv, ProcOk, AssertOwned;
    ProcFact(s, a.tok);
    var p := s.procs[a.tok];
    match a
    case Returns(tok, lost) =>
      ReturnsActs(s, tok, lost);
      ActorMoves(s, tok, p.(pc := Next(p, if lost then None else p.call.value.answer), call := None));
    case Proceeds(tok, skip) =>
      ProceedsActs(s, tok, skip);
      ActorMoves(s, tok, p.(pc := Moves(p, skip).value));
    case Throws(tok) =>
      StopsAct(s, tok);
      ActorMoves(s, tok, p.(pc := Closing));
    case Aborts(tok) =>
      StopsAct(s, tok);
      ActorMoves(s, tok, p.(budget := p.budget.(aborted := true)));
    case Crashes(tok) =>
      StopsAct(s, tok);
      ActorMoves(s, tok, p.(crashed := true));
  }

  /** Same tables, same processes, same history. */
  lemma SurroundingsKeep(s: Sys, s2: Sys)
    requires SysInv(s) && s2 == s.(now := s2.now, remote := s2.remote) && s.now <= s2.now
    requires forall tok :: tok in s.procs && s.procs[tok].call.Some? ==> s2.now <= s.procs[tok].call.value.endsBy
    ensures SysInv(s2)
  {
    hide Inv, Evidence, Leasehold;
    forall tok | tok in s2.procs ensures ProcOk(s2, tok) {
      ProcFact(s, tok);
      LaterProcOk(s, s2, tok);
    }
    forall r | r in s2.db.rows ensures RowOk(s2, r) { RowFact(s, r); }
    assert forall a, b :: AuthorisedFor(s2, a, b) ==> AuthorisedFor(s, a, b);
  }

  lemma LaterProcOk(s: Sys, s2: Sys, tok: Token)
    requires ProcOk(s, tok) && s2 == s.(now := s2.now, remote := s2.remote) && s.now <= s2.now
    requires s.procs[tok].call.Some? ==> s2.now <= s.procs[tok].call.value.endsBy
    ensures ProcOk(s2, tok)
  {}

  // ----- calls -----

  /** Two processes cannot both have a call under way for one row. */
  lemma CallsExclude(s: Sys, a: Token, b: Token)
    requires ProcOk(s, a) && ProcOk(s, b) && s.procs[a].call.Some?
    requires s.procs[b].ticket.row == s.procs[a].ticket.row && a != b
    ensures Owns(s.db, s.procs[a].ticket) && !Owns(s.db, s.procs[b].ticket)
    ensures Holding(s.procs[b].pc) ==> s.procs[b].budget.deadline + LEASE_MARGIN <= s.now
    ensures s.procs[b].call.None?
  {
    hide Evidence;
  }

  lemma StartsActs(s: Sys, tok: Token, limit: nat)
    requires ProcOk(s, tok) && CallFrom(s.procs[tok].pc).Some? && CallTimeout(s.procs[tok].budget, s.now, limit).Some?
    ensures ProcOk(Started(s, tok, limit), tok)
  {}

  lemma StartsSpares(s: Sys, tok: Token, limit: nat, other: Token)
    requires ProcOk(s, tok) && CallFrom(s.procs[tok].pc).Some? && CallTimeout(s.procs[tok].budget, s.now, limit).Some?
    requires ProcOk(s, other) && other != tok && !AuthorisedFor(s, tok, other)
    ensures ProcOk(Started(s, tok, limit), other)
  {}

  lemma StartsJustified(s: Sys, tok: Token, limit: nat, r: Id)
    requires ProcOk(s, tok) && CallFrom(s.procs[tok].pc).Some? && CallTimeout(s.procs[tok].budget, s.now, limit).Some?
    requires RowOk(s, r)
    ensures RowOk(Started(s, tok, limit), r)
  {}

  lemma StartsKeeps(s: Sys, tok: Token, limit: nat)
    requires SysInv(s) && tok in s.procs && CallFrom(s.procs[tok].pc).Some?
             && CallTimeout(s.procs[tok].budget, s.now, limit).Some?
    ensures SysInv(Started(s, tok, limit))
  {
    hide Inv, ProcOk, RowOk;
    var s2 := Started(s, tok, limit);
    ProcFact(s, tok);
    forall other | other in s2.procs ensures ProcOk(s2, other) {
      if other == tok {
        StartsActs(s, tok, limit);
      } else {
        ProcFact(s, other);
        StartsSpares(s, tok, limit, other);
      }
    }
    forall r | r in s2.db.rows ensures RowOk(s2, r) { RowFact(s, r); StartsJustified(s, tok, limit, r); }
    ProcRow(s, tok);
    assert HistoryGrounded(s2);
    assert forall a, b :: AuthorisedFor(s2, a, b) ==> AuthorisedFor(s, a, b);
  }

  lemma ServesActs(s: Sys, tok: Token, answer: Answer)
    requires ProcOk(s, tok) && s.procs[tok].call.Some? && s.procs[tok].call.value.answer.None?
    requires Answers(s.procs[tok].pc, SessionOf(s.db, s.procs[tok].ticket), s.remote, answer)
    ensures ProcOk(Served(s, tok, answer), tok)
  {}

  /** Serving a call at most adds its row to the history. */
  lemma ServesGrow(s: Sys, tok: Token, answer: Answer)
    requires tok in s.procs && s.procs[tok].call.Some? && s.procs[tok].ticket.row in s.db.rows
    ensures var s2, r := Served(s, tok, answer), s.procs[tok].ticket.row;
            && s2.db == s.db && s2.now == s.now && s2.posts == s.posts && s2.plain == s.plain
            && s2.procs == s.procs[tok := s2.procs[tok]]
            && s.gone <= s2.gone <= s.gone + {r} && s.hooked <= s2.hooked <= s.hooked + {r}
  {}

  lemma ServesSpares(s: Sys, tok: Token, answer: Answer, other: Token)
    requires ProcOk(s, tok) && s.procs[tok].call.Some?
    requires ProcOk(s, other) && other != tok
    ensures ProcOk(Served(s, tok, answer), other)
  {
    hide Served;
    ServesGrow(s, tok, answer);
    if s.procs[other].ticket.row == s.procs[tok].ticket.row { CallsExclude(s, tok, other); }
    ProcKept(s, Served(s, tok, answer), other);
  }

  lemma ServesJustified(s: Sys, tok: Token, answer: Answer, r: Id)
    requires ProcOk(s, tok) && s.procs[tok].call.Some? && RowOk(s, r)
    ensures RowOk(Served(s, tok, answer), r)
  {}

  lemma ServesKeeps(s: Sys, tok: Token, answer: Answer)
    requires SysInv(s) && tok in s.procs && s.procs[tok].call.Some? && s.procs[tok].call.value.answer.None?
    requires s.procs[tok].ticket.row in s.db.rows
             && Answers(s.procs[tok].pc, SessionOf(s.db, s.procs[tok].ticket), s.remote, answer)
    ensures SysInv(Served(s, tok, answer))
  {
    hide Inv, ProcOk, RowOk, Answers;
    var s2 := Served(s, tok, answer);
    ProcFact(s, tok);
    ServesGrow(s, tok, answer);
    forall other | other in s2.procs ensures ProcOk(s2, other) {
      if other == tok {
        ServesActs(s, tok, answer);
      } else {
        ProcFact(s, other);
        ServesSpares(s, tok, answer, other);
      }
    }
    forall r | r in s2.db.rows ensures RowOk(s2, r) { RowFact(s, r); ServesJustified(s, tok, answer, r); }
    assert HistoryGrounded(s2);
    assert forall a, b :: AuthorisedFor(s2, a, b) ==> AuthorisedFor(s, a, b);
  }

  // ----- transactions -----

  lemma ElsewhereKeeps(s: Sys, cfg: Config, step: Step)
    requires SysInv(s) && May(s, cfg, Elsewhere(step))
    ensures SysInv(Do(s, cfg, Elsewhere(step)))
  {
    hide Inv, ProcOk, RowOk, After, Can, Spares;
    var s2 := Do(s, cfg, Elsewhere(step));
    StepKeepsInv(s.db, cfg, s.now, step);
    forall r | r in s.db.rows ensures Spares(s.db, s2.db, r) {
      RowFacts(s.db, r);
      OthersSpare(s.db, cfg, s.now, step, r);
    }
    forall tok | tok in s2.procs ensures ProcOk(s2, tok) {
      ProcFact(s, tok); ProcRow(s, tok); SparedProcKept(s, s2, tok);
    }
    forall r | r in s2.db.rows ensures RowOk(s2, r) {
      OldRow(s.db, cfg, s.now, step, r); RowFact(s, r); SparedRowKept(s, s2, r);
    }
    forall r | r in s.db.rows ensures r in s2.db.rows { SparedStays(s.db, s2.db, r); }
    assert forall a, b :: AuthorisedFor(s2, a, b) ==> AuthorisedFor(s, a, b);
  }

  lemma SparedStays(db: Db, after: Db, r: Id)
    requires Spares(db, after, r)
    ensures r in after.rows
  {}

  lemma ProcRow(s: Sys, tok: Token)
    requires ProcOk(s, tok)
    ensures s.procs[tok].ticket.row in s.db.rows
  {}

  /** Only a reservation adds a row. */
  lemma OldRow(db: Db, cfg: Config, now: Time, step: Step, r: Id)
    requires Can(db, step) && !step.DoReserve? && r in After(db, cfg, now, step).rows
    ensures r in db.rows
  {
    hide Reserve, Finish, Abandon, Claim, RecordCreated, MarkCreating, MarkCleanup, MarkWebhookApplied, Moved,
         Genuine, Lists, Unreported;
    if TicketOf(step).Some? {
      HolderStepMovesRow(db, cfg, now, step);
    } else if !WritesRows(step) {
      OthersLeaveRows(db, cfg, now, step);
    } else if step.DoClaim? {
      ClaimMovesRows(db, now, step.b, step.r, step.owner);
    }
  }

  /** What a process's own transaction makes of its row, told by where it takes the process. */
  ghost predicate Transacted(was: Row, row: Row, p: Proc, next: Pc) {
    && Moved(was, row)
    && (row.leaseOwner == None || (row.leaseOwner == was.leaseOwner && row.leaseExpiresAt == was.leaseExpiresAt))
    && (Holding(next) ==> Open(row.state) && row.leaseOwner == was.leaseOwner)
    && !Calling(next) && !next.Gone? && !next.Applied?
    && (next.Authorised? ==> was.state == Reserved && row.state == Creating)
    && (Cleansing(p.(pc := next)) ==> row.state == CleanupPending)
    && (Believes(p.(pc := next)).Some? && Open(row.state) ==> row.instance == Believes(p.(pc := next)).value)
    && (row.state == Failed ==> p.pc.Gone?)
    && (row.state == Committed ==> was.payload.Some? && was.payload.value.webhookApplied)
    && (row.payload.Some? && row.payload.value.webhookApplied ==>
          p.pc.Applied? || (was.payload.Some? && was.payload.value.webhookApplied))
    && (row.payload.Some? ==>
          was.payload.Some? && row.payload.value.webhook == was.payload.value.webhook
          && (was.payload.value.webhookApplied ==> row.payload.value.webhookApplied))
  }

  lemma AuthorisationTransacted(db: Db, cfg: Config, now: Time, p: Proc, l: Listing)
    requires Owns(db, p.ticket) && Shaped(db.rows[p.ticket.row]) && p.pc.Prepared? && Known(db, l)
    ensures var o := MarkCreating(db, cfg, now, p.budget, p.ticket, l);
            p.ticket.row in Commit(db, o).rows
            && Transacted(db.rows[p.ticket.row], Commit(db, o).rows[p.ticket.row], p,
                          if o.Done? then Authorised else Closing)
  {
    hide WithinControls;
  }

  lemma RecordTransacted(db: Db, now: Time, p: Proc, newId: Id, remoteId: Option<RemoteId>)
    requires Owns(db, p.ticket) && Shaped(db.rows[p.ticket.row]) && newId !in db.instances
    requires p.pc.Posted? || (p.pc.Found? && !(p.work.Recovery? && p.work.cleanup))
    ensures var o := RecordCreated(db, now, p.ticket, newId, remoteId);
            p.ticket.row in Commit(db, o).rows
            && Transacted(db.rows[p.ticket.row], Commit(db, o).rows[p.ticket.row], p, RecordedPc(o))
  {
    hide InstanceCollides;
  }

  lemma WebhookTransacted(db: Db, p: Proc)
    requires Owns(db, p.ticket) && Genuine(db, p.ticket) && Shaped(db.rows[p.ticket.row]) && p.pc.Applied?
    requires db.rows[p.ticket.row].instance == Some(p.pc.inst)
    ensures var o := MarkWebhookApplied(db, p.ticket);
            && p.ticket.row in Commit(db, o).rows
            && Transacted(db.rows[p.ticket.row], Commit(db, o).rows[p.ticket.row], p,
                          if o.Done? then (if p.work.Saga? then Proxying else Finishing) else if p.work.Saga?
                            then Failing(p.pc.inst) else Closing)
  {}

  lemma CleanupTransacted(db: Db, p: Proc)
    requires Owns(db, p.ticket) && Genuine(db, p.ticket) && Shaped(db.rows[p.ticket.row]) && p.pc.Failing?
    requires db.rows[p.ticket.row].instance == Some(p.pc.inst)
    ensures var o := MarkCleanup(db, p.ticket);
            && p.ticket.row in Commit(db, o).rows
            && Transacted(db.rows[p.ticket.row], Commit(db, o).rows[p.ticket.row], p,
                          if o.Done? && p.work.Saga? then Cleaning(Some(p.pc.inst)) else Closing)
  {}

  lemma FinishTransacted(db: Db, now: Time, p: Proc)
    requires Owns(db, p.ticket) && Shaped(db.rows[p.ticket.row])
    ensures var after := Commit(db, Finish(db, now, p.ticket));
                         p.ticket.row in after.rows
                         && Transacted(db.rows[p.ticket.row], after.rows[p.ticket.row], p, Closing)
  {}

  lemma AbandonTransacted(db: Db, cfg: Config, now: Time, p: Proc)
    requires Owns(db, p.ticket) && Shaped(db.rows[p.ticket.row])
    ensures var after := Commit(db, Abandon(db, cfg, now, p.ticket));
                         p.ticket.row in after.rows
                         && Transacted(db.rows[p.ticket.row], after.rows[p.ticket.row], p, Ended)
  {}

  lemma RemovalTransacted(db: Db, p: Proc)
    requires Owns(db, p.ticket) && Shaped(db.rows[p.ticket.row]) && p.pc.Gone?
             && db.rows[p.ticket.row].state == CleanupPending
    ensures var after := Commit(db, RemoveConfirmed(db, p.pc.inst, p.ticket.product, p.ticket.host, Some(p.ticket)));
            p.ticket.row in after.rows && Transacted(db.rows[p.ticket.row], after.rows[p.ticket.row], p, Closing)
  {}

  lemma OwnTransaction(db: Db, cfg: Config, now: Time, p: Proc, l: Listing, newId: Id)
    requires Owns(db, p.ticket) && Genuine(db, p.ticket) && Shaped(db.rows[p.ticket.row])
    requires Transaction(p, l, newId).Some? && Can(db, Transaction(p, l, newId).value) && Known(db, l)
             && newId !in db.instances
    requires Cleansing(p) ==> db.rows[p.ticket.row].state == CleanupPending
    requires Believes(p).Some? ==> db.rows[p.ticket.row].instance == Believes(p).value
    ensures var after := After(db, cfg, now, Transaction(p, l, newId).value);
            && p.ticket.row in after.rows
            && Transacted(db.rows[p.ticket.row], after.rows[p.ticket.row], p, Continues(db, cfg, now, p, l, newId))
  {
    hide MarkCreating, RecordCreated, MarkWebhookApplied, MarkCleanup, Finish, Abandon, RemoveConfirmed, Transacted,
         Shaped, Owns;
    match p.pc
    case Prepared => AuthorisationTransacted(db, cfg, now, p, l);
    case Posted(remoteId) => RecordTransacted(db, now, p, newId, remoteId);
    case Found(remoteId) => RecordTransacted(db, now, p, newId, remoteId);
    case Applied(_) => WebhookTransacted(db, p);
    case Failing(_) => CleanupTransacted(db, p);
    case Gone(_) => RemovalTransacted(db, p);
    case Finishing => FinishTransacted(db, now, p);
    case Closing => AbandonTransacted(db, cfg, now, p);
  }

  /** A process that lost its row gets nothing done: every transaction of its is refused or does nothing. */
  lemma LostTransaction(db: Db, cfg: Config, now: Time, p: Proc, l: Listing, newId: Id)
    requires !Owns(db, p.ticket)
    requires Transaction(p, l, newId).Some? && Can(db, Transaction(p, l, newId).value) && Known(db, l)
             && newId !in db.instances
    ensures After(db, cfg, now, Transaction(p, l, newId).value) == db
    ensures var next := Continues(db, cfg, now, p, l, newId); !Holding(next) || (next.Failing? && p.pc.Applied?)
  {
    hide WithinControls, InstanceCollides;
  }

  lemma TransactionIsHolders(p: Proc, l: Listing, newId: Id)
    requires Transaction(p, l, newId).Some?
    ensures var step := Transaction(p, l, newId).value;
                        HolderOf(step) == Some(p.ticket) && !step.DoReserve? && !step.DoClaim?
    ensures var step := Transaction(p, l, newId).value;
                        step.DoRemove? ==> p.pc.Gone? && step.i == p.pc.inst && step.holder == Some(p.ticket)
    ensures !p.pc.Authorised? && !Calling(p.pc)
  {}

  /** The state a process's transaction leads to, as far as its own row and process go. */
  ghost predicate AfterOwn(s: Sys, s2: Sys, tok: Token) {
    && tok in s.procs && tok in s2.procs && s2.procs == s.procs[tok := s2.procs[tok]]
    && s2 == s.(db := s2.db, procs := s2.procs)
    && s2.procs[tok] == s.procs[tok].(pc := s2.procs[tok].pc)
    && !s.procs[tok].pc.Authorised? && !Calling(s.procs[tok].pc)
  }

  lemma TransactedProcOk(s: Sys, s2: Sys, tok: Token)
    requires AfterOwn(s, s2, tok) && ProcOk(s, tok) && RowOk(s, s.procs[tok].ticket.row)
             && Owns(s.db, s.procs[tok].ticket)
    requires s.procs[tok].ticket.row in s2.db.rows
    requires Transacted(s.db.rows[s.procs[tok].ticket.row], s2.db.rows[s.procs[tok].ticket.row], s.procs[tok],
                        s2.procs[tok].pc)
    ensures ProcOk(s2, tok)
  {}

  lemma LostProcOk(s: Sys, s2: Sys, tok: Token)
    requires AfterOwn(s, s2, tok) && ProcOk(s, tok) && !Owns(s.db, s.procs[tok].ticket) && s2.db == s.db
    requires !Holding(s2.procs[tok].pc) || (s2.procs[tok].pc.Failing? && s.procs[tok].pc.Applied?)
    ensures ProcOk(s2, tok)
  {}

  lemma TransactedRowOk(s: Sys, s2: Sys, tok: Token)
    requires AfterOwn(s, s2, tok) && ProcOk(s, tok) && RowOk(s, s.procs[tok].ticket.row)
             && Owns(s.db, s.procs[tok].ticket)
    requires s.procs[tok].ticket.row in s2.db.rows
    requires Transacted(s.db.rows[s.procs[tok].ticket.row], s2.db.rows[s.procs[tok].ticket.row], s.procs[tok],
                        s2.procs[tok].pc)
    ensures RowOk(s2, s.procs[tok].ticket.row)
  {}

  /** A process that shares the row with its owner had already lost it. */
  lemma TransactedSpares(s: Sys, s2: Sys, tok: Token, other: Token)
    requires AfterOwn(s, s2, tok) && ProcOk(s, tok) && Owns(s.db, s.procs[tok].ticket)
    requires s.procs[tok].ticket.row in s2.db.rows
    requires Transacted(s.db.rows[s.procs[tok].ticket.row], s2.db.rows[s.procs[tok].ticket.row], s.procs[tok],
                        s2.procs[tok].pc)
    requires ProcOk(s, other) && other != tok && s.procs[other].ticket.row == s.procs[tok].ticket.row
    ensures ProcOk(s2, other)
  {
    hide Evidence, Transacted;
    assert Moved(s.db.rows[s.procs[tok].ticket.row], s2.db.rows[s.procs[tok].ticket.row])
           && s2.db.rows[s.procs[tok].ticket.row].leaseOwner != Some(other) by {
      TransactedOwner(s.db.rows[s.procs[tok].ticket.row], s2.db.rows[s.procs[tok].ticket.row], s.procs[tok],
                      s2.procs[tok].pc);
    }
    ProcKept(s, s2, other);
  }

  lemma TransactedOwner(was: Row, row: Row, p: Proc, next: Pc)
    requires Transacted(was, row, p, next)
    ensures Moved(was, row) && (row.leaseOwner.None? || row.leaseOwner == was.leaseOwner)
  {}

  /** Everything a transaction of process `tok` may change, and how. */
  lemma TransactionEffect(s: Sys, cfg: Config, tok: Token, l: Listing, newId: Id)
    requires SysInv(s) && May(s, cfg, Transacts(tok, l, newId))
    ensures var s2, t := Do(s, cfg, Transacts(tok, l, newId)), s.procs[tok].ticket;
            && AfterOwn(s, s2, tok) && Inv(s2.db) && s2.db.rows.Keys == s.db.rows.Keys && t.row in s.db.rows
            && (forall r :: r in s.db.rows && (r != t.row || !Owns(s.db, t)) ==> Spares(s.db, s2.db, r))
            && (if Owns(s.db, t) then Transacted(s.db.rows[t.row], s2.db.rows[t.row], s.procs[tok], s2.procs[tok].pc)
                else s2.db == s.db
                     && (!Holding(s2.procs[tok].pc) || (s2.procs[tok].pc.Failing? && s.procs[tok].pc.Applied?)))
  {
    hide SysInv, Inv, RowOk, After, Can, Transaction, Continues, Transacted, Spares, Moved, Evidence;
    var p := s.procs[tok];
    var step := Transaction(p, l, newId).value;
    SysDb(s);
    ProcFact(s, tok);
    RowFacts(s.db, p.ticket.row);
    StepKeepsInv(s.db, cfg, s.now, step);
    TransactionIsHolders(p, l, newId);
    forall r | r in s.db.rows && (r != p.ticket.row || !Owns(s.db, p.ticket))
      ensures Spares(s.db, After(s.db, cfg, s.now, step), r) {
      RowFacts(s.db, r);
      OthersSpare(s.db, cfg, s.now, step, r);
    }
    forall r | r in After(s.db, cfg, s.now, step).rows ensures r in s.db.rows { OldRow(s.db, cfg, s.now, step, r); }
    forall r | r in s.db.rows ensures r in After(s.db, cfg, s.now, step).rows {
      StepMovesRow(s.db, cfg, s.now, step, r);
    }
    if Owns(s.db, p.ticket) {
      OwnTransaction(s.db, cfg, s.now, p, l, newId);
    } else {
      LostTransaction(s.db, cfg, s.now, p, l, newId);
    }
  }

  lemma SysDb(s: Sys)
    requires SysInv(s)
    ensures Inv(s.db)
  {
    hide Inv, ProcOk, RowOk;
  }

  lemma TransactsKeeps(s: Sys, cfg: Config, tok: Token, l: Listing, newId: Id)
    requires SysInv(s) && May(s, cfg, Transacts(tok, l, newId))
    ensures SysInv(Do(s, cfg, Transacts(tok, l, newId)))
  {
    hide Inv, ProcOk, RowOk, May, Do, Transacted, Spares;
    var s2 := Do(s, cfg, Transacts(tok, l, newId));
    TransactionEffect(s, cfg, tok, l, newId);
    ProcFact(s, tok);
    var r := s.procs[tok].ticket.row;
    RowFact(s, r);
    forall k | k in s2.db.rows ensures RowOk(s2, k) {
      RowFact(s, k);
      if k == r && Owns(s.db, s.procs[tok].ticket) { TransactedRowOk(s, s2, tok); } else { SparedRowKept(s, s2, k); }
    }
    forall other | other in s2.procs ensures ProcOk(s2, other) {
      ProcFact(s, other);
      ProcRow(s, other);
      if other == tok {
        if Owns(s.db, s.procs[tok].ticket) { TransactedProcOk(s, s2, tok); } else { LostProcOk(s, s2, tok); }
      } else if s.procs[other].ticket.row == r && Owns(s.db, s.procs[tok].ticket) {
        TransactedSpares(s, s2, tok, other);
      } else {
        SparedProcKept(s, s2, other);
      }
    }
    forall a, b | AuthorisedFor(s2, a, b) ensures a == b {
      if a != b { TransactsAlone(s, s2, tok, a, b); }
    }
  }

  lemma TransactsAlone(s: Sys, s2: Sys, tok: Token, a: Token, b: Token)
    requires SysInv(s) && AfterOwn(s, s2, tok) && AuthorisedFor(s2, a, b) && s.procs[tok].ticket.row in s.db.rows
             && s.procs[tok].ticket.row in s2.db.rows
    requires if Owns(s.db, s.procs[tok].ticket)
               then Transacted(s.db.rows[s.procs[tok].ticket.row], s2.db.rows[s.procs[tok].ticket.row], s.procs[tok],
                               s2.procs[tok].pc)
             else !s2.procs[tok].pc.Authorised?
    ensures a == b
  {
    hide Inv, RowOk, Moved;
    ProcFact(s, a);
    ProcFact(s, b);
    if a != tok && b != tok { AloneFact(s, a, b); }
  }

  // ----- new processes -----

  lemma ReserveGrants(db: Db, cfg: Config, now: Time, b: Budget, q: Request, seen: Observed, l: Listing)
    requires Known(db, l) && q.row !in db.rows && Reserve(db, cfg, now, b, q, seen, l).Done?
    ensures Active(b, now) && Reserve(db, cfg, now, b, q, seen, l).value == Ticket(q.row, q.product, q.host, q.owner)
  {
    hide WithinControls, NameTaken, CandidateOrder;
  }

  lemma LaunchKeeps(s: Sys, cfg: Config, b: Budget, q: Request, seen: Observed, l: Listing)
    requires SysInv(s) && May(s, cfg, Prepares(b, q, seen, l)) && Reserve(s.db, cfg, s.now, b, q, seen, l).Done?
    ensures SysInv(Launched(s, b, q, Reserve(s.db, cfg, s.now, b, q, seen, l)))
  {
    hide Inv, ProcOk, RowOk, Reserve;
    var o := Reserve(s.db, cfg, s.now, b, q, seen, l);
    var s2 := Launched(s, b, q, o);
    SysDb(s);
    ReserveGrants(s.db, cfg, s.now, b, q, seen, l);
    ReserveMovesRows(s.db, cfg, s.now, b, q, seen, l);
    ReserveKeeps(s.db, cfg, s.now, b, q, seen, l);
    assert q.row !in s.posts && q.row !in s.gone && q.row !in s.hooked && q.row !in s.plain;
    assert ProcOk(s2, q.owner) && RowOk(s2, q.row) by { LaunchedIsOk(s, cfg, b, q, o); }
    forall tok | tok in s2.procs && tok != q.owner ensures ProcOk(s2, tok) {
      ProcFact(s, tok); ProcRow(s, tok); SparedProcKept(s, s2, tok);
    }
    forall r | r in s2.db.rows && r != q.row ensures RowOk(s2, r) { RowFact(s, r); SparedRowKept(s, s2, r); }
    assert forall a, c :: AuthorisedFor(s2, a, c) ==> AuthorisedFor(s, a, c);
  }

  lemma LaunchedIsOk(s: Sys, cfg: Config, b: Budget, q: Request, o: Outcome<Ticket>)
    requires o.Done? && o.value == Ticket(q.row, q.product, q.host, q.owner) && Active(b, s.now)
    requires q.row in o.db.rows && o.db.rows[q.row] == NewRow(q, b, s.now)
    requires q.row !in s.posts && q.row !in s.gone && q.payload.webhookApplied == q.payload.webhook.None?
    ensures ProcOk(Launched(s, b, q, o), q.owner) && RowOk(Launched(s, b, q, o), q.row)
  {}

  /** What taking over an expired row does to the tables. */
  ghost predicate TakeoverEffect(s: Sys, b: Budget, r: Id, owner: Token, s2: Sys) {
    && s2.db.rows.Keys == s.db.rows.Keys && s2 == s.(db := s2.db, procs := s2.procs)
    && (forall k :: k in s.db.rows && k != r ==> s2.db.rows[k] == s.db.rows[k])
    && (r in s.db.rows && s2.db.rows[r] != s.db.rows[r] ==>
          && Open(s.db.rows[r].state) && !Leased(s.db.rows[r], s.now)
          && s2.db.rows[r] == if s.db.rows[r].state == Reserved then Closed(s.db.rows[r], Released)
                              else Claimed(s.db.rows[r], s.now, b, owner))
    && (if s2.procs == s.procs then r in s.db.rows ==>
                                      s2.db.rows[r].leaseOwner != Some(owner) || s2.db.rows[r] == s.db.rows[r]
        else
          && r in s.db.rows && Open(s.db.rows[r].state) && s.db.rows[r].state != Reserved && Active(b, s.now)
          && s2.db.rows[r] == Claimed(s.db.rows[r], s.now, b, owner) && !Leased(s.db.rows[r], s.now)
          && owner in s2.procs && s2.procs == s.procs[owner := s2.procs[owner]]
          && var p := s2.procs[owner];
             p.ticket == Ticket(r, s.db.rows[r].product, s.db.rows[r].host, owner) && p.budget == b && p.pc == Taken
             && p.call.None?
             && p.work == WorkOn(s.db.rows[r]))
  }

  lemma TakeoverShape(s: Sys, b: Budget, r: Id, owner: Token)
    requires owner !in s.procs
    ensures TakeoverEffect(s, b, r, owner, TakenOver(s, b, r, owner))
  {}

  lemma TakesOverKeeps(s: Sys, b: Budget, r: Id, owner: Token)
    requires SysInv(s) && owner !in s.procs
    ensures SysInv(TakenOver(s, b, r, owner))
  {
    hide Inv, ProcOk, RowOk, TakenOver, Claim;
    var s2 := TakenOver(s, b, r, owner);
    SysDb(s);
    ClaimKeeps(s.db, s.now, b, r, owner);
    TakeoverDb(s, b, r, owner);
    TakeoverShape(s, b, r, owner);
    forall tok | tok in s2.procs ensures ProcOk(s2, tok) {
      if tok in s.procs { ProcFact(s, tok); ProcRow(s, tok); TakeoverSpares(s, b, r, owner, s2, tok); }
      else { RowFact(s, r); NewHolderOk(s, b, r, owner, s2); }
    }
    forall k | k in s2.db.rows ensures RowOk(s2, k) {
      RowFact(s, k); RowFacts(s.db, k); TakeoverRowOk(s, b, r, owner, s2, k);
    }
    assert forall a, c :: AuthorisedFor(s2, a, c) ==> AuthorisedFor(s, a, c);
  }

  lemma TakeoverDb(s: Sys, b: Budget, r: Id, owner: Token)
    ensures TakenOver(s, b, r, owner).db == Commit(s.db, Claim(s.db, s.now, b, r, owner))
  {
    hide Claim;
  }

  lemma NewHolderOk(s: Sys, b: Budget, r: Id, owner: Token, s2: Sys)
    requires TakeoverEffect(s, b, r, owner, s2) && s2.procs != s.procs
    ensures ProcOk(s2, owner)
  {}

  /** The claim finds the lease expired, so whoever held it has run out of time and of calls. */
  lemma TakeoverSpares(s: Sys, b: Budget, r: Id, owner: Token, s2: Sys, tok: Token)
    requires TakeoverEffect(s, b, r, owner, s2) && SysInv(s) && owner !in s.procs
    requires tok in s.procs && ProcOk(s, tok) && s.procs[tok].ticket.row in s.db.rows
    ensures ProcOk(s2, tok)
  {
    hide Inv, Evidence;
    if s.procs[tok].ticket.row == r && s2.db.rows[r] != s.db.rows[r] {
      RowFact(s, r);
      assert Held(s, s.db.rows[r], r);
    }
    ProcKept(s, s2, tok);
  }

  lemma TakeoverRowOk(s: Sys, b: Budget, r: Id, owner: Token, s2: Sys, k: Id)
    requires TakeoverEffect(s, b, r, owner, s2) && RowOk(s, k) && owner !in s.procs && Shaped(s.db.rows[k])
    ensures RowOk(s2, k)
  {}

  // ----- every action -----

  lemma ActionKeeps(s: Sys, cfg: Config, a: Action)
    requires SysInv(s) && May(s, cfg, a)
    ensures SysInv(Do(s, cfg, a))
  {
    hide SysInv, Answers, AssertOwned;
    match a
    case Ticks(to) => SurroundingsKeep(s, s.(now := to));
    case Elsewhere(step) => ElsewhereKeeps(s, cfg, step);
    case RemoteChanges(sessions) => AnyCallInTime(s); SurroundingsKeep(s, s.(remote := sessions));
    case Prepares(b, q, seen, l) =>
      if Reserve(s.db, cfg, s.now, b, q, seen, l).Done? { LaunchKeeps(s, cfg, b, q, seen, l); }
    case TakesOver(b, r, owner) => TakesOverKeeps(s, b, r, owner);
    case Transacts(tok, l, newId) => TransactsKeeps(s, cfg, tok, l, newId);
    case Starts(tok, limit) => StartsKeeps(s, tok, limit);
    case Serves(tok, answer) => ServesKeeps(s, tok, answer);
    case _ => ProcessMovesKeep(s, cfg, a);
  }

  lemma AnyCallInTime(s: Sys)
    requires SysInv(s)
    ensures forall tok :: tok in s.procs && s.procs[tok].call.Some? ==> s.now <= s.procs[tok].call.value.endsBy
  {
    hide SysInv, Evidence;
    forall tok | tok in s.procs && s.procs[tok].call.Some? ensures s.now <= s.procs[tok].call.value.endsBy {
      ProcFact(s, tok);
    }
  }
}
