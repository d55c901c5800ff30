/**
 The processes that drive the rows: the creation saga of a request and the recovery pass,
 each with a time budget, remote calls that end in time, and a point at which it may vanish.
 The remote is a set of sessions that others change at will.
 */
module Executors {
  import opened Basics
  import opened Occupancy
  import opened Tables
  import opened Admission
  import opened Provisioning
  import opened Protocol
  import opened Invariants
  import opened Guarantees

  const FINISH_MARGIN: nat := 1000

  // ----- the time budget -----

  /** `callTimeout`: how long a remote call may take, when there is time for one at all. */
  function CallTimeout(b: Budget, now: Time, limit: nat): Option<nat> {
    if Active(b, now) && now + FINISH_MARGIN < b.deadline
    then Some(if limit < b.deadline - now - FINISH_MARGIN then limit else b.deadline - now - FINISH_MARGIN)
    else None
  }

  // ----- processes -----

  /** What a recovery pass read of the row when it claimed it; `key` is a secret that the hub made up itself. */
  datatype Work = Saga | Recovery(cleanup: bool, recorded: Option<Id>, known: Option<RemoteId>, key: Option<Secret>)

  /** A session with an id is the row's own if it is the id recorded, or, with none recorded, shows the hub's secret. */
  predicate Recognised(w: Work, remoteId: Option<RemoteId>, secret: Option<Secret>) {
    w.Recovery? && remoteId.Some? && (w.known == remoteId || (w.known.None? && w.key.Some? && secret == w.key))
  }

  function WorkOn(row: Row): Work {
    Recovery(row.state == CleanupPending, row.instance, row.remoteId,
             if row.payload.Some? && row.payload.value.generated then Some(row.payload.value.secret) else None)
  }

  datatype Pc =
    | Prepared | Authorised | Posting | Posted(remoteId: Option<RemoteId>)
    | Recorded(inst: Id) | Hooking(inst: Id) | Applying(inst: Id) | Applied(inst: Id)
    | Failing(inst: Id) | Cleaning(known: Option<Id>) | Deleting(known: Option<Id>) | Gone(inst: Id)
    | Proxying | ProxyCall | Finishing
    | Taken | Fetching | Found(remoteId: Option<RemoteId>)
    | Closing | Ended

  datatype Answer = Created(remoteId: Option<RemoteId>) | Fine | NotThere | There(remoteId: Option<RemoteId>,
      secret: Option<Secret>) | Failure

  /** A remote call under way: when it ends at the latest, and what the remote has answered so far. */
  datatype Call = Call(endsBy: Time, answer: Option<Answer>)

  datatype Proc = Proc(ticket: Ticket, budget: Budget, work: Work, hook: bool, pc: Pc, call: Option<Call>,
                       crashed: bool)

  /**
   `procs` keeps every process that ever ran, under the token it was given. The last four
   fields are history: creations sent per row, rows whose session was gone during their
   cleanup, rows whose webhook the remote accepted, and rows that asked for none.
   */
  datatype Sys = Sys(
    db: Db, now: Time, procs: map<Token, Proc>, remote: set<(Id, Name)>,
    posts: multiset<Id>, gone: set<Id>, hooked: set<Id>, plain: set<Id>)

  datatype Action =
    | Ticks(to: Time)
    | Elsewhere(step: Step)
    | RemoteChanges(sessions: set<(Id, Name)>)
    | Prepares(b: Budget, q: Request, seen: Observed, l: Listing)
    | TakesOver(b: Budget, r: Id, owner: Token)
    | Transacts(tok: Token, l: Listing, newId: Id)
    | Starts(tok: Token, limit: nat)
    | Serves(tok: Token, answer: Answer)
    | Returns(tok: Token, lost: bool)
    | Proceeds(tok: Token, skip: bool)
    | Throws(tok: Token)
    | Aborts(tok: Token)
    | Crashes(tok: Token)

  /** The pcs at which a remote call is under way. */
  predicate Calling(pc: Pc) {
    pc.Posting? || pc.Applying? || pc.Deleting? || pc.ProxyCall? || pc.Fetching?
  }

  /** Until its last transaction a process still counts on its row. */
  predicate Holding(pc: Pc) {
    !pc.Closing? && !pc.Ended?
  }

  /** The call a process may start at its pc, as the pc it waits in. */
  function CallFrom(pc: Pc): Option<Pc> {
    match pc
    case Authorised => Some(Posting)
    case Hooking(i) => Some(Applying(i))
    case Cleaning(i) => Some(Deleting(i))
    case Proxying => Some(ProxyCall)
    case Taken => Some(Fetching)
    case _ => None
  }

  /** Answers that make sense of the call and of the remote's sessions at that moment. */
  predicate Answers(pc: Pc, session: (Id, Name), remote: set<(Id, Name)>, a: Answer) {
    match pc
    case Posting => a.Created? || a.Failure?
    case Deleting(_) => a.Fine? || a.Failure? || (a.NotThere? && session !in remote)
    case Fetching => a.Failure? || (a.NotThere? && session !in remote) || (a.There? && session in remote)
    case _ => a.Fine? || a.Failure?
  }

  function SessionOf(db: Db, t: Ticket): (Id, Name)
    requires t.row in db.rows
  {
    (t.host, db.rows[t.row].name)
  }

  /** Where an answer, or its loss, takes a process. */
  function Next(p: Proc, a: Option<Answer>): Pc {
    match p.pc
    case Posting => if a.Some? && a.value.Created? then Posted(a.value.remoteId) else Closing
    case Applying(i) =>
      if a == Some(Fine) then Applied(i)
      else if a == Some(Failure) && !p.budget.aborted then Failing(i)
      else Closing
    case Deleting(i) =>
      if i.Some? && (a == Some(Fine) || (a == Some(NotThere) && p.work.Saga?)) then Gone(i.value) else Closing
    case Fetching =>
      if p.work.Saga? then Closing
      else if a == Some(NotThere) && p.work.cleanup && p.work.recorded.Some? then Gone(p.work.recorded.value)
      else if a.Some? && a.value.There? && Recognised(p.work, a.value.remoteId, a.value.secret)
             then Found(a.value.remoteId)
      else Closing
    case ProxyCall => if a.Some? then Proxying else Finishing
    case _ => p.pc
  }

  function Put(s: Sys, tok: Token, p: Proc): Sys {
    s.(procs := s.procs[tok := p])
  }

  // ----- what each action does -----

  /** The process's next transaction, if its pc has one. */
  function Transaction(p: Proc, l: Listing, newId: Id): Option<Step> {
    match p.pc
    case Prepared => Some(DoMarkCreating(p.budget, p.ticket, l))
    case Posted(remoteId) => Some(DoRecordCreated(p.ticket, newId, remoteId))
    case Found(remoteId) => if p.work.Recovery? && p.work.cleanup then None
                            else Some(DoRecordCreated(p.ticket, newId, remoteId))
    case Applied(_) => Some(DoMarkWebhookApplied(p.ticket))
    case Failing(_) => Some(DoMarkCleanup(p.ticket))
    case Gone(i) => Some(DoRemove(i, p.ticket.product, p.ticket.host, Some(p.ticket)))
    case Finishing => Some(DoFinish(p.ticket))
    case Closing => Some(DoAbandon(p.ticket))
    case _ => None
  }

  /** Where a transaction leaves its process: a refusal throws, and a throw ends in `abandon`. */
  ghost function Continues(db: Db, cfg: Config, now: Time, p: Proc, l: Listing, newId: Id): Pc
    requires Known(db, l) && newId !in db.instances
  {
    match p.pc
    case Prepared => if MarkCreating(db, cfg, now, p.budget, p.ticket, l).Done? then Authorised else Closing
    case Posted(remoteId) => RecordedPc(RecordCreated(db, now, p.ticket, newId, remoteId))
    case Found(remoteId) => RecordedPc(RecordCreated(db, now, p.ticket, newId, remoteId))
    case Applied(i) => if MarkWebhookApplied(db, p.ticket).Done? then (if p.work.Saga? then Proxying else Finishing)
                       else if p.work.Saga? then Failing(i) else Closing
    case Failing(i) => if MarkCleanup(db, p.ticket).Done? && p.work.Saga? then Cleaning(Some(i)) else Closing
    case Closing => Ended
    case _ => Closing
  }

  function RecordedPc(o: Outcome<Id>): Pc {
    if o.Done? then Recorded(o.value) else Closing
  }

  /** Steps between transactions and calls, and whether the row must still be owned for them. */
  function Moves(p: Proc, skip: bool): Option<Pc> {
    match p.pc
    case Recorded(i) => if p.hook then (if skip then None else Some(Hooking(i))) else if skip || p.work.Recovery?
                          then Some(Finishing) else Some(Proxying)
    case Found(_) => if p.work.Recovery? && p.work.cleanup then Some(Cleaning(p.work.recorded)) else None
    case Proxying => Some(Finishing)
    case _ => None
  }

  ghost predicate May(s: Sys, cfg: Config, a: Action) {
    match a
    case Ticks(to) => s.now <= to && forall tok :: tok in s.procs && s.procs[tok].call.Some? ==>
                                                     to <= s.procs[tok].call.value.endsBy
    case Elsewhere(step) =>
      Can(s.db, step) && TicketOf(step).None? && !step.DoReserve? && !step.DoClaim?
      && (step.DoRemove? ==> step.holder.None?)
    case RemoteChanges(_) => true
    case Prepares(b, q, seen, l) =>
      Can(s.db, DoReserve(b, q, seen, l)) && q.owner !in s.procs && q.payload.webhookApplied == q.payload.webhook.None?
    case TakesOver(_, _, owner) => owner !in s.procs
    case Transacts(tok, l, newId) =>
      && Alive(s, tok) && Transaction(s.procs[tok], l, newId).Some?
         && Can(s.db, Transaction(s.procs[tok], l, newId).value)
      && Known(s.db, l) && newId !in s.db.instances
    case Starts(tok, limit) =>
      Alive(s, tok) && CallFrom(s.procs[tok].pc).Some? && CallTimeout(s.procs[tok].budget, s.now, limit).Some?
    case Serves(tok, answer) =>
      && tok in s.procs && s.procs[tok].call.Some? && s.procs[tok].call.value.answer.None?
         && s.procs[tok].ticket.row in s.db.rows
      && Answers(s.procs[tok].pc, SessionOf(s.db, s.procs[tok].ticket), s.remote, answer)
    case Returns(tok, _) => tok in s.procs && s.procs[tok].call.Some?
    case Proceeds(tok, skip) =>
      && Alive(s, tok) && s.procs[tok].call.None? && Moves(s.procs[tok], skip).Some?
      && (s.procs[tok].work.Recovery? && !s.procs[tok].pc.Proxying? && Calls(Moves(s.procs[tok], skip).value) ==>
            AssertOwned(s.db, s.now, s.procs[tok].ticket).Done?)
    case Throws(tok) => Alive(s, tok) && s.procs[tok].call.None? && Holding(s.procs[tok].pc)
    case Aborts(tok) => tok in s.procs
    case Crashes(tok) => tok in s.procs
  }

  predicate Alive(s: Sys, tok: Token) {
    tok in s.procs && !s.procs[tok].crashed
  }

  predicate Calls(pc: Pc) { CallFrom(pc).Some? }

  ghost function Do(s: Sys, cfg: Config, a: Action): Sys
    requires May(s, cfg, a)
  {
    match a
    case Ticks(to) => s.(now := to)
    case Elsewhere(step) => s.(db := After(s.db, cfg, s.now, step))
    case RemoteChanges(sessions) => s.(remote := sessions)
    case Prepares(b, q, seen, l) =>
      var o := Reserve(s.db, cfg, s.now, b, q, seen, l);
      if o.Refused? then s else Launched(s, b, q, o)
    case TakesOver(b, r, owner) => TakenOver(s, b, r, owner)
    case Transacts(tok, l, newId) =>
      var p := s.procs[tok];
      Put(s, tok,
          p.(pc := Continues(s.db, cfg, s.now, p, l, newId))).(db := After(s.db, cfg, s.now,
              Transaction(p, l, newId).value))
    case Starts(tok, limit) => Started(s, tok, limit)
    case Serves(tok, answer) => Served(s, tok, answer)
    case Returns(tok, lost) =>
      var p := s.procs[tok];
      Put(s, tok, p.(pc := Next(p, if lost then None else p.call.value.answer), call := None))
    case Proceeds(tok, skip) => Put(s, tok, s.procs[tok].(pc := Moves(s.procs[tok], skip).value))
    case Throws(tok) => Put(s, tok, s.procs[tok].(pc := Closing))
    case Aborts(tok) => Put(s, tok, s.procs[tok].(budget := s.procs[tok].budget.(aborted := true)))
    case Crashes(tok) => Put(s, tok, s.procs[tok].(crashed := true))
  }

  /** A successful reservation starts a saga. */
  function Launched(s: Sys, b: Budget, q: Request, o: Outcome<Ticket>): Sys
    requires o.Done?
  {
    Put(s, q.owner, Proc(o.value, b, Saga, q.payload.webhook.Some?, Prepared, None, false))
    .(db := o.db, plain := if q.payload.webhook.Some? then s.plain else s.plain + {q.row})
  }

  function Started(s: Sys, tok: Token, limit: nat): Sys
    requires tok in s.procs && CallFrom(s.procs[tok].pc).Some? && CallTimeout(s.procs[tok].budget, s.now, limit).Some?
  {
    var p := s.procs[tok];
    var began :=
      Put(s, tok,
          p.(pc := CallFrom(p.pc).value, call := Some(Call(s.now + CallTimeout(p.budget, s.now, limit).value, None))));
    if p.pc.Authorised? then began.(posts := s.posts[p.ticket.row := s.posts[p.ticket.row] + 1]) else began
  }

  function TakenOver(s: Sys, b: Budget, r: Id, owner: Token): Sys {
    var o := Claim(s.db, s.now, b, r, owner);
    if o.Refused? then s
    else if o.value.None? then s.(db := o.db)
    else
      var row := o.db.rows[r];
      var hook := row.payload.Some? && row.payload.value.webhook.Some? && !row.payload.value.webhookApplied;
      Put(s, owner,
          Proc(o.value.value, b, WorkOn(row), hook, Taken, None, false)).(db := o.db)
  }

  /** The remote acts on a call: it creates, deletes, looks or accepts, whether or not the answer arrives. */
  function Served(s: Sys, tok: Token, answer: Answer): Sys
    requires tok in s.procs && s.procs[tok].call.Some? && s.procs[tok].ticket.row in s.db.rows
  {
    var p := s.procs[tok];
    var session := SessionOf(s.db, p.ticket);
    var answered := Put(s, tok, p.(call := Some(p.call.value.(answer := Some(answer)))));
    match p.pc
    case Posting => if answer.Created? then answered.(remote := s.remote + {session}) else answered
    case Deleting(_) => if answer.Failure? then answered
                        else answered.(remote := s.remote - {session}, gone := s.gone + {p.ticket.row})
    case Fetching => if answer.NotThere? && p.work.Recovery? && p.work.cleanup
                       then answered.(gone := s.gone + {p.ticket.row}) else answered
    case Applying(_) => if answer.Fine? then answered.(hooked := s.hooked + {p.ticket.row}) else answered
    case _ => answered
  }
}
