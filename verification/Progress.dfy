/**
 What the executors get done: when recovery takes a row over, that a creation whose calls succeed
 is committed, and that recovery finishes what it finds, one way or the other.
 */
module Progress {
  import opened Basics
  import opened Occupancy
  import opened Tables
  import opened Admission
  import opened Provisioning
  import opened Protocol
  import opened Invariants
  import opened Guarantees
  import opened Capacity
  import opened Executors
  import opened Exclusion
  import opened Fencing
  import opened Outcomes

  // ----- takeover -----

  /** Open, sent, and under no live lease. */
  predicate Overdue(s: Sys, r: Id) {
    && r in s.db.rows
    && (s.db.rows[r].state == Creating || s.db.rows[r].state == Uncertain || s.db.rows[r].state == CleanupPending)
    && (s.db.rows[r].leaseExpiresAt.Some? ==> s.db.rows[r].leaseExpiresAt.value <= s.now)
  }

  /**
   A recovery pass with time left takes a row over exactly when it is overdue, and then holds it
   until its deadline and the margin; a reservation never sent is released when its lease is over.
   */
  lemma TakesOverExactly(s: Sys, cfg: Config, b: Budget, r: Id, owner: Token)
    requires SysInv(s) && owner !in s.procs && !b.aborted && s.now < b.deadline
    ensures May(s, cfg, TakesOver(b, r, owner))
    ensures var s2 := Do(s, cfg, TakesOver(b, r, owner));
            && (owner in s2.procs <==> Overdue(s, r))
            && (Overdue(s, r) ==>
                  && r in s2.db.rows && s2.db.rows[r].leaseOwner == Some(owner)
                  && s2.db.rows[r].leaseExpiresAt == Some(b.deadline + LEASE_MARGIN)
                  && s2.db.rows[r].state == s.db.rows[r].state
                  && s2.procs[owner].ticket == Ticket(r, s.db.rows[r].product, s.db.rows[r].host, owner)
                  && s2.procs[owner].budget == b && s2.procs[owner].pc == Taken && s2.procs[owner].call.None?
                  && !s2.procs[owner].crashed
                  && s2.procs[owner].work == Recovery(
                                           s.db.rows[r].state == CleanupPending, s.db.rows[r].instance,
                                           s.db.rows[r].remoteId, SecretOf(s.db.rows[r]))
                  && s2.procs[owner].hook == Wanted(s.db.rows[r]))
            && (r in s.db.rows && s.db.rows[r].state == Reserved
                && (s.db.rows[r].leaseExpiresAt.Some? ==> s.db.rows[r].leaseExpiresAt.value <= s.now) ==>
                  r in s2.db.rows && s2.db.rows[r].state == Released)
            && s2.now == s.now && s2.remote == s.remote && s2.posts == s.posts
            && (Overdue(s, r) ==>
                  s2.db.rows == s.db.rows[r := s2.db.rows[r]] && s2.db == s.db.(rows := s2.db.rows)
                  && s2.db.rows[r] == s.db.rows[r].(leaseOwner := s2.db.rows[r].leaseOwner,
                                                    leaseExpiresAt := s2.db.rows[r].leaseExpiresAt,
                                                    revision := s2.db.rows[r].revision))
  {
    hide SysInv, Inv;
    SysDb(s);
    if r in s.db.rows && Open(s.db.rows[r].state) { OpenRowLinked(s.db, r); }
  }

  /** The secret that the hub made up for the row, if it was not given one. */
  function SecretOf(row: Row): Option<Secret> {
    match row.payload
    case Some(payload) => if payload.generated then Some(payload.secret) else None
    case None => None
  }

  /** The row asked for a webhook that the remote has not accepted yet. */
  predicate Wanted(row: Row) {
    row.payload.Some? && row.payload.value.webhook.Some? && !row.payload.value.webhookApplied
  }

  // ----- what can come of a state -----

  /** Some history leads from the one to the other. */
  ghost predicate CanReach(cfg: Config, s: Sys, s2: Sys) {
    exists states, actions :: IsHistory(cfg, states, actions) && states[0] == s && states[|actions|] == s2
  }

  lemma ReachesItself(cfg: Config, s: Sys)
    ensures CanReach(cfg, s, s)
  {
    hide May, Do;
    assert IsHistory(cfg, [s], []) && [s][0] == s;
  }

  lemma OneMore(cfg: Config, s: Sys, s1: Sys, a: Action)
    requires CanReach(cfg, s, s1) && May(s1, cfg, a)
    ensures CanReach(cfg, s, Do(s1, cfg, a))
  {
    hide May, Do;
    var states, actions :| IsHistory(cfg, states, actions) && states[0] == s && states[|actions|] == s1;
    var longer, more := states + [Do(s1, cfg, a)], actions + [a];
    forall k | 0 <= k < |more| ensures Leads(cfg, longer[k], more[k], longer[k + 1]) {
      if k < |actions| { assert Leads(cfg, states[k], actions[k], states[k + 1]); }
    }
    assert IsHistory(cfg, longer, more) && longer[0] == s && longer[|more|] == Do(s1, cfg, a);
  }

  // ----- what a process makes of an answer -----

  /**
   When a call returns, or is lost, a process believes only what the remote said: a session is
   created or found under the id that came with the answer, found only if that id or a secret of
   the hub's own proves it to be
   the row's own, and gone only if it was deleted, or missing where it was to be cleaned up. A
   refused webhook leads to cleanup, a proxy call to the end of the saga either way. In every
   other case the process gives its row up.
   */
  lemma ReturnedExactly(p: Proc, a: Option<Executors.Answer>)
    requires Calling(p.pc)
    ensures var next := Next(p, a);
            && (forall rid :: next == Posted(rid) <==> p.pc == Posting && a == Some(Executors.Answer.Created(rid)))
            && (forall rid :: next == Found(rid) <==>
                                p.pc == Fetching && p.work.Recovery? && rid.Some? && a.Some? && a.value.There?
                                && a.value.remoteId == rid
                                && if p.work.known.Some? then p.work.known == rid
                                   else p.work.key.Some? && a.value.secret == p.work.key)
            && (forall i: Id :: next == Gone(i) <==>
                  || (p.pc == Deleting(Some(i)) && (a == Some(Fine) || (p.work.Saga? && a == Some(NotThere))))
                  || (p.pc == Fetching && p.work.Recovery? && p.work.cleanup && p.work.recorded == Some(i)
                      && a == Some(NotThere)))
            && (forall i :: next == Pc.Applied(i) <==> p.pc == Applying(i) && a == Some(Fine))
            && (forall i :: next == Failing(i) <==>
                  p.pc == Applying(i) && a == Some(Executors.Answer.Failure) && !p.budget.aborted)
            && (next == Proxying <==> p.pc == ProxyCall && a.Some?)
            && (next == Finishing <==> p.pc == ProxyCall && a.None?)
            && (next == Closing || next.Posted? || next.Found? || next.Gone? || next.Applied? || next.Failing?
                || next == Proxying || next == Finishing)
  {}

  /**
   A transaction that goes through takes its process on, and one that is refused makes it give its
   row up; only in a creation a webhook that cannot be noted counts as refused, and leads to cleanup.
   */
  lemma ContinuesExactly(db: Db, cfg: Config, now: Time, p: Proc, l: Listing, newId: Id)
    requires Known(db, l) && newId !in db.instances && Transaction(p, l, newId).Some?
    ensures var next := Continues(db, cfg, now, p, l, newId);
            && (next == Authorised <==> p.pc == Prepared && MarkCreating(db, cfg, now, p.budget, p.ticket, l).Done?)
            && (forall i: Id :: next == Recorded(i) <==>
                  && (p.pc.Posted? || p.pc.Found?)
                  && RecordCreated(db, now, p.ticket, newId, p.pc.remoteId).Done?
                  && RecordCreated(db, now, p.ticket, newId, p.pc.remoteId).value == i)
            && (next == Proxying <==> p.pc.Applied? && p.work.Saga? && MarkWebhookApplied(db, p.ticket).Done?)
            && (next == Finishing <==> p.pc.Applied? && p.work.Recovery? && MarkWebhookApplied(db, p.ticket).Done?)
            && (forall i: Id :: next == Failing(i) <==>
                                  p.pc == Pc.Applied(i) && p.work.Saga? && MarkWebhookApplied(db, p.ticket).Refused?)
            && (forall i: Id :: next == Cleaning(Some(i)) <==>
                                  p.pc == Failing(i) && p.work.Saga? && MarkCleanup(db, p.ticket).Done?)
            && (next == Ended <==> p.pc == Closing)
            && (next == Closing || next == Ended || next == Authorised || next.Recorded? || next == Proxying
                || next == Finishing || next.Failing? || (next.Cleaning? && next.known.Some?))
  {
    hide MarkCreating, RecordCreated, MarkWebhookApplied, MarkCleanup;
  }

  /** A crashed process writes nothing and calls no one: it can only still hear of a call it made. */
  lemma CrashedIsSilent(s: Sys, cfg: Config, a: Action, tok: Token)
    requires May(s, cfg, a) && tok in s.procs && s.procs[tok].crashed && !(a.TakesOver? && a.owner == tok)
    ensures tok in Do(s, cfg, a).procs
    ensures !(a.Transacts? && a.tok == tok) && !(a.Starts? && a.tok == tok) && !(a.Proceeds? && a.tok == tok)
            && !(a.Throws? && a.tok == tok)
    ensures Do(s, cfg, a).procs[tok].crashed
    ensures Do(s, cfg, a).procs[tok].pc == s.procs[tok].pc || (a.Returns? && a.tok == tok)
  {
    hide Reserve, Claim, Continues, After, Can;
  }

  /** A remote call gets what it asks for, but ends a second before the deadline; without that second there is none. */
  lemma CallTimeoutExactly(b: Budget, now: Time, limit: nat)
    ensures CallTimeout(b, now, limit).Some? <==> !b.aborted && now + 1000 < b.deadline
    ensures CallTimeout(b, now, limit).Some? ==>
              var t := CallTimeout(b, now, limit).value;
              t <= limit && now + t + 1000 <= b.deadline && (t == limit || now + t + 1000 == b.deadline)
  {}

  /** Each call is made from one place only: a session is created once authorised, deleted under cleanup alone. */
  lemma CallsMadeFrom(pc: Pc)
    ensures CallFrom(pc) == Some(Posting) <==> pc == Authorised
    ensures forall i: Id :: CallFrom(pc) == Some(Applying(i)) <==> pc == Hooking(i)
    ensures forall i: Option<Id> :: CallFrom(pc) == Some(Deleting(i)) <==> pc == Cleaning(i)
    ensures CallFrom(pc) == Some(ProxyCall) <==> pc == Proxying
    ensures CallFrom(pc) == Some(Fetching) <==> pc == Taken
    ensures CallFrom(pc).Some? ==> Calling(CallFrom(pc).value)
  {}

  /**
   A throw leads to the end, an abort cuts the budget short, a crash stops the process; each
   does no more than that.
   */
  lemma InterruptedExactly(s: Sys, cfg: Config, a: Action)
    requires May(s, cfg, a) && (a.Throws? || a.Aborts? || a.Crashes?)
    ensures a.tok in s.procs
    ensures var p := s.procs[a.tok];
            Do(s, cfg, a) == s.(procs := s.procs[a.tok := Proc(
                                                   p.ticket, Budget(p.budget.deadline, p.budget.aborted || a.Aborts?),
                                                   p.work, p.hook, if a.Throws? then Closing else p.pc, p.call,
                                                   p.crashed || a.Crashes?)])
  {}

  /** Only a process that waits for a call is answered. */
  lemma CallsAreCalling(s: Sys, tok: Token)
    requires SysInv(s) && tok in s.procs && s.procs[tok].call.Some?
    ensures Calling(s.procs[tok].pc)
  {
    hide Inv, RowOk;
    assert ProcOk(s, tok);
  }

  // ----- single moves of a process that nothing disturbs -----

  /** The process stands at `pc` with no call under way. */
  predicate At(s: Sys, p: Proc, pc: Pc) {
    p.ticket.owner in s.procs && s.procs[p.ticket.owner] == p.(pc := pc, call := None, crashed := false)
  }

  /** Time enough for a call. */
  predicate TimeLeft(s: Sys, b: Budget) {
    !b.aborted && s.now + FINISH_MARGIN < b.deadline
  }

  /** The process holds its row, which is in one of two states, with what it was asked for. */
  predicate Holds(s: Sys, p: Proc, sent: bool) {
    && Holder(s.db, p.ticket) && Genuine(s.db, p.ticket)
    && p.ticket.product in s.db.products && p.ticket.host in s.db.hosts
    && s.db.rows[p.ticket.row].payload.Some?
    && (sent ==> s.db.rows[p.ticket.row].state == Creating || s.db.rows[p.ticket.row].state == Uncertain)
  }

  /** The process waits for a call, which the remote has answered as said. */
  predicate Waits(s: Sys, p: Proc, pc: Pc, answer: Option<Executors.Answer>) {
    p.ticket.owner in s.procs && s.procs[p.ticket.owner].call.Some?
    && s.procs[p.ticket.owner] == p.(pc := pc, call := s.procs[p.ticket.owner].call, crashed := false)
    && s.procs[p.ticket.owner].call.value.answer == answer
  }

  lemma CallStarts(cfg: Config, origin: Sys, s: Sys, p: Proc, pc: Pc) returns (s2: Sys)
    requires CanReach(cfg, origin, s) && At(s, p, pc) && CallFrom(pc).Some? && TimeLeft(s, p.budget)
    ensures CanReach(cfg, origin, s2) && s2 == s.(procs := s2.procs, posts := s2.posts)
    ensures Waits(s2, p, CallFrom(pc).value, None)
    ensures s2.posts == if pc.Authorised? then s.posts[p.ticket.row := s.posts[p.ticket.row] + 1] else s.posts
  {
    hide CanReach;
    s2 := Do(s, cfg, Starts(p.ticket.owner, 0));
    OneMore(cfg, origin, s, Starts(p.ticket.owner, 0));
  }

  lemma CallServed(cfg: Config, origin: Sys, s: Sys, p: Proc, pc: Pc, answer: Executors.Answer) returns (s2: Sys)
    requires CanReach(cfg, origin, s) && Waits(s, p, pc, None) && p.ticket.row in s.db.rows
    requires Answers(pc, SessionOf(s.db, p.ticket), s.remote, answer)
    ensures CanReach(cfg, origin, s2) && s2.db == s.db && s2.now == s.now && s2.posts == s.posts
    ensures Waits(s2, p, pc, Some(answer))
    ensures pc.Posting? && answer.Created? ==> s2.remote == s.remote + {SessionOf(s.db, p.ticket)}
    ensures pc.Deleting? && !answer.Failure? ==> s2.remote == s.remote - {SessionOf(s.db, p.ticket)}
    ensures !pc.Posting? && !pc.Deleting? ==> s2.remote == s.remote
  {
    hide CanReach, Answers;
    s2 := Do(s, cfg, Serves(p.ticket.owner, answer));
    OneMore(cfg, origin, s, Serves(p.ticket.owner, answer));
  }

  lemma CallEnds(cfg: Config, origin: Sys, s: Sys, p: Proc, pc: Pc, answer: Executors.Answer) returns (s2: Sys)
    requires CanReach(cfg, origin, s) && Waits(s, p, pc, Some(answer))
    ensures CanReach(cfg, origin, s2) && s2 == s.(procs := s2.procs) && At(s2, p, Next(p.(pc := pc), Some(answer)))
  {
    hide CanReach;
    s2 := Do(s, cfg, Returns(p.ticket.owner, false));
    OneMore(cfg, origin, s, Returns(p.ticket.owner, false));
  }

  /** A call is made, answered and returns: only the process, the remote and the history of calls change. */
  lemma CallReturns(cfg: Config, origin: Sys, s: Sys, p: Proc, pc: Pc, answer: Executors.Answer) returns (s2: Sys)
    requires CanReach(cfg, origin, s) && At(s, p, pc) && CallFrom(pc).Some? && TimeLeft(s, p.budget)
    requires p.ticket.row in s.db.rows && Answers(CallFrom(pc).value, SessionOf(s.db, p.ticket), s.remote, answer)
    ensures CanReach(cfg, origin, s2) && s2.db == s.db && s2.now == s.now
    ensures At(s2, p, Next(p.(pc := CallFrom(pc).value), Some(answer)))
    ensures s2.posts == if pc.Authorised? then s.posts[p.ticket.row := s.posts[p.ticket.row] + 1] else s.posts
    ensures pc.Authorised? && answer.Created? ==> s2.remote == s.remote + {SessionOf(s.db, p.ticket)}
    ensures pc.Cleaning? && !answer.Failure? ==> s2.remote == s.remote - {SessionOf(s.db, p.ticket)}
    ensures pc.Hooking? || pc.Taken? ==> s2.remote == s.remote
  {
    hide CanReach, At, Waits, Answers, Next;
    var s1 := CallStarts(cfg, origin, s, p, pc);
    var s3 := CallServed(cfg, origin, s1, p, CallFrom(pc).value, answer);
    s2 := CallEnds(cfg, origin, s3, p, CallFrom(pc).value, answer);
  }

  /** A step between transactions and calls. */
  lemma MovesOn(cfg: Config, origin: Sys, s: Sys, p: Proc, pc: Pc, next: Pc) returns (s2: Sys)
    requires CanReach(cfg, origin, s) && At(s, p, pc) && Moves(p.(pc := pc), false) == Some(next)
    requires p.work.Recovery? && !pc.Proxying? && Calls(next) ==> AssertOwned(s.db, s.now, p.ticket).Done?
    ensures CanReach(cfg, origin, s2) && At(s2, p, next) && s2 == s.(procs := s2.procs)
  {
    hide CanReach, AssertOwned;
    var tok := p.ticket.owner;
    s2 := Do(s, cfg, Proceeds(tok, false));
    OneMore(cfg, origin, s, Proceeds(tok, false));
  }

  /** A transaction that goes through. */
  lemma TransactionDone(cfg: Config, origin: Sys, s: Sys, p: Proc, pc: Pc, l: Listing, newId: Id) returns (s2: Sys)
    requires CanReach(cfg, origin, s) && At(s, p, pc) && Known(s.db, l) && newId !in s.db.instances
    requires Transaction(p.(pc := pc), l, newId).Some? && Can(s.db, Transaction(p.(pc := pc), l, newId).value)
    ensures CanReach(cfg, origin, s2) && s2 == s.(db := s2.db, procs := s2.procs)
    ensures s2.db == After(s.db, cfg, s.now, Transaction(p.(pc := pc), l, newId).value)
    ensures At(s2, p, Continues(s.db, cfg, s.now, p.(pc := pc, call := None, crashed := false), l, newId))
  {
    hide After, Can, Continues, CanReach;
    var tok := p.ticket.owner;
    assert Transaction(s.procs[tok], l, newId) == Transaction(p.(pc := pc), l, newId);
    s2 := Do(s, cfg, Transacts(tok, l, newId));
    OneMore(cfg, origin, s, Transacts(tok, l, newId));
  }

  lemma ReachKeeps(cfg: Config, origin: Sys, s: Sys)
    requires SysInv(origin) && CanReach(cfg, origin, s)
    ensures Inv(s.db)
  {
    hide SysInv, May, Do;
    var states, actions :| IsHistory(cfg, states, actions) && states[0] == origin && states[|actions|] == s;
    HistoryKeepsInv(cfg, states, actions, |actions|);
    SysDb(s);
  }

  const NO_ROWS: Listing := Listing([], [], [])

  // ----- from a session known to exist, to a committed row -----

  /** The instance that the row recorded, and its webhook applied or still to come. */
  predicate RecordedSo(s: Sys, p: Proc, i: Id) {
    && Holds(s, p, true) && RecordedAs(s.db, s.db.rows[p.ticket.row])
    && s.db.rows[p.ticket.row].instance == Some(i)
    && (s.db.rows[p.ticket.row].payload.value.webhookApplied || p.hook)
  }

  /** The same moment and the same sessions at the remote. */
  predicate Meanwhile(s: Sys, s2: Sys) {
    s2.now == s.now && s2.remote == s.remote
  }

  lemma RecordsInstance(db: Db, now: Time, t: Ticket, newId: Id, rid: Option<RemoteId>)
    requires Inv(db) && Holder(db, t) && Genuine(db, t) && newId !in db.instances
    requires db.rows[t.row].state == Creating || db.rows[t.row].state == Uncertain
    requires db.rows[t.row].instance.Some? || rid.None?
             || forall i :: i in db.instances && db.instances[i].host == t.host ==> db.instances[i].remoteId != rid
    ensures var o := RecordCreated(db, now, t, newId, rid);
            && o.Done? && t.row in o.db.rows && o.db.rows[t.row].instance == Some(o.value)
            && RecordedAs(o.db, o.db.rows[t.row])
            && o.db.rows[t.row] == db.rows[t.row].(instance := Some(o.value), remoteId := o.db.rows[t.row].remoteId,
                                                   revision := o.db.rows[t.row].revision)
            && o.db.products == db.products && o.db.hosts.Keys == db.hosts.Keys
            && (db.rows[t.row].instance.None? ==>
                  o.value == newId
                  && o.db.instances[newId] == Instance(t.product, t.host, db.rows[t.row].name, rid, now))
            && (db.rows[t.row].instance.Some? ==> o.value == db.rows[t.row].instance.value)
  {
    hide Inv, InstanceCollides;
    RecordingOnlyFailsOnRemoteId(db, now, t, newId, rid);
    RowFacts(db, t.row);
  }

  /** The instance is recorded, or found to be recorded already. */
  lemma Records(cfg: Config, origin: Sys, s: Sys, p: Proc, pc: Pc, newId: Id, rid: Option<RemoteId>)
    returns (s2: Sys, i: Id)
    requires SysInv(origin) && CanReach(cfg, origin, s) && At(s, p, pc) && Holds(s, p, true)
    requires pc == Posted(rid) || (pc == Found(rid) && !(p.work.Recovery? && p.work.cleanup))
    requires newId !in s.db.instances && Unreported(s.db, newId)
    requires s.db.rows[p.ticket.row].instance.Some? || rid.None?
             || forall k :: k in s.db.instances && s.db.instances[k].host == p.ticket.host ==>
                              s.db.instances[k].remoteId != rid
    requires s.db.rows[p.ticket.row].payload.value.webhookApplied || p.hook
    ensures CanReach(cfg, origin, s2) && Meanwhile(s, s2) && At(s2, p, Recorded(i)) && RecordedSo(s2, p, i)
    ensures s2.posts == s.posts && s2.db.products == s.db.products
    ensures s2.db.rows[p.ticket.row].leaseExpiresAt == s.db.rows[p.ticket.row].leaseExpiresAt
    ensures s.db.rows[p.ticket.row].instance.None? ==>
              i == newId && s2.db.instances[i] == Instance(p.ticket.product, p.ticket.host,
                                                           s.db.rows[p.ticket.row].name, rid, s.now)
    ensures s.db.rows[p.ticket.row].instance.Some? ==> Some(i) == s.db.rows[p.ticket.row].instance
  {
    hide CanReach, SysInv, Inv, RecordCreated, Unreported;
    ReachKeeps(cfg, origin, s);
    RecordsInstance(s.db, s.now, p.ticket, newId, rid);
    s2 := TransactionDone(cfg, origin, s, p, pc, NO_ROWS, newId);
    i := RecordCreated(s.db, s.now, p.ticket, newId, rid).value;
  }

  /** The webhook, if it is still to come, is accepted and noted. */
  lemma Hooks(cfg: Config, origin: Sys, s: Sys, p: Proc, i: Id) returns (s2: Sys)
    requires CanReach(cfg, origin, s) && At(s, p, Recorded(i)) && RecordedSo(s, p, i) && TimeLeft(s, p.budget)
    requires AssertOwned(s.db, s.now, p.ticket).Done?
    ensures CanReach(cfg, origin, s2) && Meanwhile(s, s2) && s2.posts == s.posts && s2.db.products == s.db.products
    ensures RecordedSo(s2, p, i) && s2.db.rows[p.ticket.row].payload.value.webhookApplied
    ensures At(s2, p, if p.work.Saga? then Proxying else Finishing) && s2.db.instances == s.db.instances
  {
    hide CanReach, At, AssertOwned;
    if p.hook {
      var s1 := MovesOn(cfg, origin, s, p, Recorded(i), Hooking(i));
      var s3 := CallReturns(cfg, origin, s1, p, Hooking(i), Fine);
      NotedExactly(s3.db, p.ticket);
      s2 := NotesWebhook(cfg, origin, s3, p, i);
    } else {
      s2 := MovesOn(cfg, origin, s, p, Recorded(i), if p.work.Saga? then Proxying else Finishing);
    }
  }

  lemma NotesWebhook(cfg: Config, origin: Sys, s: Sys, p: Proc, i: Id) returns (s2: Sys)
    requires CanReach(cfg, origin, s) && At(s, p, Applied(i)) && RecordedSo(s, p, i)
    ensures CanReach(cfg, origin, s2) && Meanwhile(s, s2) && s2.posts == s.posts && s2.db.products == s.db.products
    ensures RecordedSo(s2, p, i) && s2.db.rows[p.ticket.row].payload.value.webhookApplied
    ensures At(s2, p, if p.work.Saga? then Proxying else Finishing) && s2.db.instances == s.db.instances
  {
    hide CanReach, RecordCreated, MarkCreating, MarkCleanup;
    var newId := FreeKey(s.db.instances.Keys, 0);
    NotedExactly(s.db, p.ticket);
    s2 := TransactionDone(cfg, origin, s, p, Applied(i), NO_ROWS, newId);
  }

  lemma Commits(cfg: Config, origin: Sys, s: Sys, p: Proc, i: Id) returns (s2: Sys)
    requires CanReach(cfg, origin, s) && At(s, p, Finishing) && RecordedSo(s, p, i)
    requires s.db.rows[p.ticket.row].payload.value.webhookApplied
    ensures CanReach(cfg, origin, s2) && Meanwhile(s, s2) && s2.posts == s.posts
    ensures p.ticket.row in s2.db.rows && s2.db.rows[p.ticket.row].state == Committed
            && s2.db.rows[p.ticket.row].instance == Some(i) && RecordedAs(s2.db, s2.db.rows[p.ticket.row])
            && s2.db.instances == s.db.instances
    ensures p.ticket.product in s2.db.products
            && (s.db.products[p.ticket.product].mode == Mode.Capacity ==>
                  s2.db.products[p.ticket.product].firstCapacityUse.Some?)
  {
    hide CanReach;
    var newId := FreeKey(s.db.instances.Keys, 0);
    CommittedExactly(s.db, s.now, p.ticket);
    s2 := TransactionDone(cfg, origin, s, p, Finishing, NO_ROWS, newId);
  }

  /** With the instance recorded and the row held, accepted calls lead to a committed row. */
  lemma FinishesRecorded(cfg: Config, origin: Sys, s: Sys, p: Proc, i: Id) returns (s2: Sys)
    requires CanReach(cfg, origin, s) && At(s, p, Recorded(i)) && RecordedSo(s, p, i) && TimeLeft(s, p.budget)
    requires AssertOwned(s.db, s.now, p.ticket).Done?
    ensures CanReach(cfg, origin, s2) && Meanwhile(s, s2) && s2.posts == s.posts
    ensures p.ticket.row in s2.db.rows && s2.db.rows[p.ticket.row].state == Committed
            && s2.db.rows[p.ticket.row].instance == Some(i) && RecordedAs(s2.db, s2.db.rows[p.ticket.row])
            && s2.db.instances == s.db.instances
    ensures p.ticket.product in s2.db.products
            && (s.db.products[p.ticket.product].mode == Mode.Capacity ==>
                  s2.db.products[p.ticket.product].firstCapacityUse.Some?)
  {
    hide CanReach, At, AssertOwned;
    var s1 := Hooks(cfg, origin, s, p, i);
    if p.work.Saga? { s1 := MovesOn(cfg, origin, s1, p, Proxying, Finishing); }
    s2 := Commits(cfg, origin, s1, p, i);
  }

  // ----- a creation whose calls succeed -----

  /** The host's rows, listed so that they can be counted. */
  ghost predicate Countable(db: Db, h: Id, l: Listing) {
    Known(db, l) && Lists(db, h, l) && !Used(db, h, l).ambiguous
  }

  /** After its reservation a session still fits: it was counted as one more before, and is one of those there now. */
  lemma StillFits(db: Db, cfg: Config, now: Time, b: Budget, q: Request, seen: Observed, l: Listing, own: Listing)
    requires q.row !in db.rows && Known(db, l) && Lists(db, q.host, l) && Reserve(db, cfg, now, b, q, seen, l).Done?
    requires MayTake(db, cfg, now, q.product, q.host, 1, l)
    requires Countable(Reserve(db, cfg, now, b, q, seen, l).db, q.host, own)
    ensures MayTake(Reserve(db, cfg, now, b, q, seen, l).db, cfg, now, q.product, q.host, 0, own)
  {
    hide Occupied, Used, Lists, KnownOfLate, Reserve, Admit;
    var after := Reserve(db, cfg, now, b, q, seen, l).db;
    ReservationFits(db, cfg, now, b, q, seen, l);
    ReserveWrites(db, cfg, now, b, q, seen, l);
    AdmittedExactly(db, cfg, now, q.product, q.host, false, l);
    assert OnlyInstallation(db, q.host) ==> OnlyInstallation(after, q.host);
    KnownStill(db.hosts[q.host], after.hosts[q.host], cfg, now);
  }

  lemma KnownStill(was: Host, host: Host, cfg: Config, now: Time)
    requires host == was.(occupancyRevision := host.occupancyRevision)
    ensures KnownOfLate(host, cfg, now) <==> KnownOfLate(was, cfg, now)
  {}

  function SagaOf(b: Budget, q: Request): Proc {
    Proc(Ticket(q.row, q.product, q.host, q.owner), b, Saga, q.payload.webhook.Some?, Prepared, None, false)
  }

  lemma Reserves(cfg: Config, s: Sys, b: Budget, q: Request, seen: Observed, l: Listing) returns (s1: Sys)
    requires SysInv(s) && May(s, cfg, Prepares(b, q, seen, l)) && Reserve(s.db, cfg, s.now, b, q, seen, l).Done?
    ensures CanReach(cfg, s, s1) && Meanwhile(s, s1) && s1.posts == s.posts && s1.posts[q.row] == 0
    ensures s1.db == Reserve(s.db, cfg, s.now, b, q, seen, l).db
    ensures At(s1, SagaOf(b, q), Prepared) && Holder(s1.db, SagaOf(b, q).ticket)
    ensures s1.db.rows[q.row] == NewRow(q, b, s.now) && s1.db.instances == s.db.instances
            && s1.db.reports == s.db.reports && q.product in s1.db.products && q.host in s1.db.hosts
            && s1.db.products == s.db.products
  {
    hide CanReach, Inv, Reserve, Lists;
    assert s.posts[q.row] == 0 by { NotSentYet(s, q.row); }
    ReserveWrites(s.db, cfg, s.now, b, q, seen, l);
    GrantedTicket(s.db, cfg, s.now, b, q, seen, l);
    ReachesItself(cfg, s);
    s1 := Do(s, cfg, Prepares(b, q, seen, l));
    OneMore(cfg, s, s, Prepares(b, q, seen, l));
  }

  lemma NotSentYet(s: Sys, r: Id)
    requires SysInv(s) && r !in s.db.rows
    ensures s.posts[r] == 0
  {
    hide Inv, ProcOk, RowOk;
  }

  lemma GrantedTicket(db: Db, cfg: Config, now: Time, b: Budget, q: Request, seen: Observed, l: Listing)
    requires q.row !in db.rows && Known(db, l) && Reserve(db, cfg, now, b, q, seen, l).Done?
    ensures Reserve(db, cfg, now, b, q, seen, l).value == Ticket(q.row, q.product, q.host, q.owner)
            && q.product in db.products && q.host in db.hosts
  {
    hide WithinControls, NameTaken, CandidateOrder;
  }

  lemma Authorises(cfg: Config, origin: Sys, s: Sys, p: Proc, l: Listing) returns (s2: Sys)
    requires CanReach(cfg, origin, s) && At(s, p, Prepared) && Holder(s.db, p.ticket) && Genuine(s.db, p.ticket)
    requires Known(s.db, l) && Lists(s.db, p.ticket.host, l)
    requires MayTake(s.db, cfg, s.now, p.ticket.product, p.ticket.host, 0, l)
    requires var row := s.db.rows[p.ticket.row];
             row.state == Reserved && row.leaseExpiresAt.Some? && s.now < row.leaseExpiresAt.value
    requires TimeLeft(s, p.budget)
    ensures CanReach(cfg, origin, s2) && Meanwhile(s, s2) && s2.posts == s.posts && At(s2, p, Authorised)
    ensures s2.db.rows == s.db.rows[p.ticket.row := s.db.rows[p.ticket.row].(
                                      state := Creating, revision := s.db.rows[p.ticket.row].revision + 1)]
    ensures s2.db.instances == s.db.instances && s2.db.reports == s.db.reports && s2.db.products == s.db.products
            && s2.db.hosts == s.db.hosts
  {
    hide CanReach, MayTake, Lists, WithinControls;
    var newId := FreeKey(s.db.instances.Keys, 0);
    AuthorisedExactly(s.db, cfg, s.now, p.budget, p.ticket, l);
    s2 := TransactionDone(cfg, origin, s, p, Prepared, l, newId);
  }

  /** The host may take the session now, and its rows can be counted then as well. */
  ghost predicate Placeable(s: Sys, cfg: Config, b: Budget, q: Request, seen: Observed, l: Listing, own: Listing)
    requires Known(s.db, l) && q.row !in s.db.rows
  {
    && MayTake(s.db, cfg, s.now, q.product, q.host, 1, l) && AsSeen(s.db, q, seen)
    && Unused(s.db, q.product, q.host, q.name)
    && (Reserve(s.db, cfg, s.now, b, q, seen, l).Done? ==>
          Countable(Reserve(s.db, cfg, s.now, b, q, seen, l).db, q.host, own))
  }

  /** A key that is new, also to the reports, and a remote id that no instance of the host has. */
  ghost predicate Recordable(db: Db, h: Id, newId: Id, rid: Option<RemoteId>) {
    && newId !in db.instances && Unreported(db, newId)
    && (rid.None? || forall k :: k in db.instances && db.instances[k].host == h ==> db.instances[k].remoteId != rid)
  }

  /**
   A creation that is admitted and reserved in time, sent once, answered and recorded under the
   id the remote gave.
   */
  lemma SagaRecords(s: Sys, cfg: Config, b: Budget, q: Request, seen: Observed, l: Listing, own: Listing, newId: Id,
        rid: Option<RemoteId>) returns (s1: Sys)
    requires SysInv(s) && May(s, cfg, Prepares(b, q, seen, l)) && TimeLeft(s, b)
    requires Placeable(s, cfg, b, q, seen, l, own) && Recordable(s.db, q.host, newId, rid)
    ensures CanReach(cfg, s, s1) && s1.posts[q.row] == 1 && s1.remote == s.remote + {(q.host, q.name)}
    ensures At(s1, SagaOf(b, q), Recorded(newId)) && RecordedSo(s1, SagaOf(b, q), newId) && TimeLeft(s1, b)
    ensures AssertOwned(s1.db, s1.now, SagaOf(b, q).ticket).Done?
    ensures s1.db.rows[q.row].name == q.name
    ensures newId in s1.db.instances && s1.db.instances[newId] == Instance(q.product, q.host, q.name, rid, s.now)
    ensures q.product in s.db.products && q.product in s1.db.products && s1.db.products == s.db.products
  {
    hide CanReach, SysInv, At, AssertOwned, Inv, Lists, MayTake, AsSeen, Unused, Reserve, RecordedSo, Unreported;
    var p := SagaOf(b, q);
    ReservedExactly(s.db, cfg, s.now, b, q, seen, l);
    s1 := Reserves(cfg, s, b, q, seen, l);
    StillFits(s.db, cfg, s.now, b, q, seen, l, own);
    s1 := Authorises(cfg, s, s1, p, own);
    s1 := CallReturns(cfg, s, s1, p, Authorised, Executors.Answer.Created(rid));
    SameReports(s.db, s1.db, newId);
    var i;
    s1, i := Records(cfg, s, s1, p, Posted(rid), newId, rid);
    OwnedNow(s1, p, i);
    NamedSo(s1, p, i);
  }

  /**
   A creation that is admitted, reserved in time and then only meets calls that succeed is sent
   once and committed, with its instance recorded under the id the remote gave.
   */
  lemma SagaCommits(s: Sys, cfg: Config, b: Budget, q: Request, seen: Observed, l: Listing, own: Listing, newId: Id,
        rid: Option<RemoteId>) returns (s2: Sys)
    requires SysInv(s) && May(s, cfg, Prepares(b, q, seen, l)) && TimeLeft(s, b)
    requires Placeable(s, cfg, b, q, seen, l, own) && Recordable(s.db, q.host, newId, rid)
    ensures CanReach(cfg, s, s2) && s2.posts[q.row] == 1 && (q.host, q.name) in s2.remote
    ensures q.row in s2.db.rows && s2.db.rows[q.row].state == Committed && s2.db.rows[q.row].instance == Some(newId)
    ensures newId in s2.db.instances
            && s2.db.instances[newId] == Instance(q.product, q.host, q.name, rid, s.now)
    ensures q.product in s2.db.products
            && (s.db.products[q.product].mode == Mode.Capacity ==>
                  s2.db.products[q.product].firstCapacityUse.Some?)
  {
    hide CanReach, SysInv, At, AssertOwned, Inv, Reserve, RecordedSo, Placeable, Recordable;
    var s1 := SagaRecords(s, cfg, b, q, seen, l, own, newId, rid);
    s2 := FinishesRecorded(cfg, s, s1, SagaOf(b, q), newId);
  }

  /**
   The same creation, when the remote refuses its webhook and then deletes its session: the row
   ends failed, and the session, the instance and the name on the host are gone.
   */
  lemma RefusedSagaCleans(s: Sys, cfg: Config, b: Budget, q: Request, seen: Observed, l: Listing, own: Listing,
        newId: Id, rid: Option<RemoteId>) returns (s2: Sys)
    requires SysInv(s) && May(s, cfg, Prepares(b, q, seen, l)) && TimeLeft(s, b)
    requires Placeable(s, cfg, b, q, seen, l, own) && Recordable(s.db, q.host, newId, rid)
    requires q.payload.webhook.Some?
    ensures CanReach(cfg, s, s2) && s2.posts[q.row] == 1 && s2.remote == s.remote - {(q.host, q.name)}
    ensures q.row in s2.db.rows && s2.db.rows[q.row].state == RowState.Failed && newId !in s2.db.instances
    ensures q.name !in Occupied(s2.db, q.host)
  {
    hide CanReach, SysInv, At, AssertOwned, Inv, Reserve, Placeable, Recordable, Occupied;
    var p := SagaOf(b, q);
    var s1 := SagaRecords(s, cfg, b, q, seen, l, own, newId, rid);
    s1 := MovesOn(cfg, s, s1, p, Recorded(newId), Hooking(newId));
    s1 := CallReturns(cfg, s, s1, p, Hooking(newId), Executors.Answer.Failure);
    s1 := TurnsToCleanup(cfg, s, s1, p, newId);
    s1 := CallReturns(cfg, s, s1, p, Cleaning(Some(newId)), Fine);
    s2 := Removes(cfg, s, s1, p, newId);
  }

  lemma TurnsToCleanup(cfg: Config, origin: Sys, s: Sys, p: Proc, i: Id) returns (s2: Sys)
    requires CanReach(cfg, origin, s) && At(s, p, Failing(i)) && p.work.Saga? && RecordedSo(s, p, i)
    ensures CanReach(cfg, origin, s2) && Meanwhile(s, s2) && s2.posts == s.posts
    ensures At(s2, p, Cleaning(Some(i))) && Holds(s2, p, false)
    ensures s2.db.rows[p.ticket.row].instance == Some(i)
            && s2.db.rows[p.ticket.row].name == s.db.rows[p.ticket.row].name
  {
    hide CanReach, MarkWebhookApplied, RecordCreated, MarkCreating;
    NotedExactly(s.db, p.ticket);
    s2 := TransactionDone(cfg, origin, s, p, Failing(i), NO_ROWS, FreeKey(s.db.instances.Keys, 0));
  }

  lemma NamedSo(s: Sys, p: Proc, i: Id)
    requires RecordedSo(s, p, i)
    ensures p.ticket.row in s.db.rows && i in s.db.instances
            && s.db.rows[p.ticket.row].name == s.db.instances[i].name
  {}

  lemma SameReports(db: Db, after: Db, i: Id)
    requires Unreported(db, i) && after.reports == db.reports
    ensures Unreported(after, i)
  {}

  lemma OwnedNow(s: Sys, p: Proc, i: Id)
    requires RecordedSo(s, p, i)
    requires var row := s.db.rows[p.ticket.row]; row.leaseExpiresAt.Some? && s.now < row.leaseExpiresAt.value
    ensures AssertOwned(s.db, s.now, p.ticket).Done?
  {
    OwnedExactly(s.db, s.now, p.ticket);
  }

  /** At its end a process gives up the row it holds: unsent it is released, sent it waits, ownerless, for recovery. */
  lemma GivesUp(cfg: Config, origin: Sys, s: Sys, p: Proc) returns (s2: Sys)
    requires CanReach(cfg, origin, s) && At(s, p, Closing) && Holder(s.db, p.ticket) && Genuine(s.db, p.ticket)
    requires p.ticket.host in s.db.hosts
    ensures CanReach(cfg, origin, s2) && Meanwhile(s, s2) && s2.posts == s.posts && At(s2, p, Ended)
    ensures p.ticket.row in s2.db.rows && s2.db.rows[p.ticket.row].leaseOwner.None?
    ensures s2.db.rows[p.ticket.row].leaseExpiresAt == Some(s.now + cfg.recoveryInterval)
    ensures s2.db.rows[p.ticket.row].state == match s.db.rows[p.ticket.row].state
                                              case Reserved => Released
                                              case CleanupPending => CleanupPending
                                              case _ => Uncertain
  {
    hide CanReach, MarkCreating, RecordCreated, MarkCleanup, MarkWebhookApplied;
    AbandonedExactly(s.db, cfg, s.now, p.ticket);
    s2 := TransactionDone(cfg, origin, s, p, Closing, NO_ROWS, FreeKey(s.db.instances.Keys, 0));
  }

  // ----- what recovery finishes -----

  lemma Takes(cfg: Config, s: Sys, b: Budget, r: Id, owner: Token) returns (s1: Sys, p: Proc)
    requires SysInv(s) && owner !in s.procs && TimeLeft(s, b) && Overdue(s, r)
    ensures CanReach(cfg, s, s1) && Meanwhile(s, s1) && At(s1, p, Taken) && Holds(s1, p, false)
    ensures s1.posts == s.posts
    ensures p.ticket == Ticket(r, s.db.rows[r].product, s.db.rows[r].host, owner) && p.budget == b
            && p.work == WorkOn(s.db.rows[r])
            && p.hook == Wanted(s.db.rows[r])
    ensures s1.db.instances == s.db.instances && s1.db.reports == s.db.reports && s1.db.entries == s.db.entries
            && s1.db.hosts == s.db.hosts
    ensures s1.db.rows[r] == s.db.rows[r].(leaseOwner := Some(owner), leaseExpiresAt := Some(b.deadline + LEASE_MARGIN),
                                           revision := s1.db.rows[r].revision)
  {
    hide CanReach, SysInv, May, Do, Inv;
    TakesOverExactly(s, cfg, b, r, owner);
    SysDb(s);
    OpenRowLinked(s.db, r);
    RowFacts(s.db, r);
    ReachesItself(cfg, s);
    s1 := Do(s, cfg, TakesOver(b, r, owner));
    OneMore(cfg, s, s, TakesOver(b, r, owner));
    p := s1.procs[owner];
  }

  /** The row recorded the session's id, or recorded none, and the session shows the secret the hub made up for it. */
  predicate Recognisable(db: Db, r: Id, rid: Option<RemoteId>, secret: Option<Secret>)
    requires r in db.rows
  {
    var row := db.rows[r];
    || (row.remoteId.Some? && row.remoteId == rid)
    || (row.remoteId.None? && rid.Some? && row.payload.Some? && row.payload.value.generated
        && secret == Some(row.payload.value.secret))
  }

  /** A sent row whose session recovery finds, and can tell to be its own, is committed with that session. */
  lemma RecoveryCommits(s: Sys, cfg: Config, b: Budget, r: Id, owner: Token, newId: Id, rid: Option<RemoteId>,
        secret: Option<Secret>) returns (s2: Sys)
    requires SysInv(s) && owner !in s.procs && TimeLeft(s, b) && Overdue(s, r) && Recognisable(s.db, r, rid, secret)
    requires s.db.rows[r].state != CleanupPending && (s.db.rows[r].host, s.db.rows[r].name) in s.remote
    requires newId !in s.db.instances && Unreported(s.db, newId)
    requires s.db.rows[r].instance.Some? || forall k :: k in s.db.instances
                                                        && s.db.instances[k].host == s.db.rows[r].host ==>
                                                          s.db.instances[k].remoteId != rid
    ensures CanReach(cfg, s, s2) && s2.posts == s.posts && Meanwhile(s, s2)
    ensures r in s2.db.rows && s2.db.rows[r].state == Committed && RecordedAs(s2.db, s2.db.rows[r])
    ensures s2.db.rows[r].instance == if s.db.rows[r].instance.Some? then s.db.rows[r].instance else Some(newId)
    ensures s.db.rows[r].instance.None? ==> s2.db.instances[newId].remoteId == rid
  {
    hide CanReach, SysInv, At, AssertOwned, Inv, Unreported, RecordedSo;
    var s1, p := Takes(cfg, s, b, r, owner);
    SameReports(s.db, s1.db, newId);
    AskedSo(s, r);
    s1 := CallReturns(cfg, s, s1, p, Taken, There(rid, secret));
    var i;
    s1, i := Records(cfg, s, s1, p, Found(rid), newId, rid);
    OwnedNow(s1, p, i);
    s2 := FinishesRecorded(cfg, s, s1, p, i);
  }

  /** A webhook that was asked for is applied or wanted. */
  lemma AskedSo(s: Sys, r: Id)
    requires SysInv(s) && OpenRow(s.db, r)
    ensures s.db.rows[r].payload.Some? && (s.db.rows[r].payload.value.webhookApplied || Wanted(s.db.rows[r]))
  {
    hide Inv, ProcOk;
    RowFact(s, r);
    SysDb(s);
    RowFacts(s.db, r);
  }

  /** A recorded row under cleanup ends failed, its instance and its name gone, whether the session is still there. */
  lemma RecoveryCleans(s: Sys, cfg: Config, b: Budget, r: Id, owner: Token, i: Id, rid: Option<RemoteId>,
        secret: Option<Secret>) returns (s2: Sys)
    requires SysInv(s) && owner !in s.procs && TimeLeft(s, b) && Overdue(s, r)
    requires (s.db.rows[r].host, s.db.rows[r].name) in s.remote ==> Recognisable(s.db, r, rid, secret)
    requires s.db.rows[r].state == CleanupPending && s.db.rows[r].instance == Some(i)
    ensures CanReach(cfg, s, s2) && s2.now == s.now && s2.posts == s.posts
    ensures s2.remote == s.remote - {(s.db.rows[r].host, s.db.rows[r].name)}
    ensures r in s2.db.rows && s2.db.rows[r].state == Failed && i !in s2.db.instances
    ensures s.db.rows[r].name !in Occupied(s2.db, s.db.rows[r].host)
  {
    hide CanReach, SysInv, At, AssertOwned, Inv, Occupied;
    var s1, p := Takes(cfg, s, b, r, owner);
    var session := (s.db.rows[r].host, s.db.rows[r].name);
    if session in s.remote {
      s1 := CallReturns(cfg, s, s1, p, Taken, There(rid, secret));
      HeldNow(s1, p);
      s1 := MovesOn(cfg, s, s1, p, Found(rid), Cleaning(Some(i)));
      s1 := CallReturns(cfg, s, s1, p, Cleaning(Some(i)), Fine);
    } else {
      s1 := CallReturns(cfg, s, s1, p, Taken, NotThere);
    }
    s2 := Removes(cfg, s, s1, p, i);
  }

  lemma HeldNow(s: Sys, p: Proc)
    requires Holds(s, p, false)
    requires var row := s.db.rows[p.ticket.row]; row.leaseExpiresAt.Some? && s.now < row.leaseExpiresAt.value
    ensures AssertOwned(s.db, s.now, p.ticket).Done?
  {
    OwnedExactly(s.db, s.now, p.ticket);
  }

  lemma Removes(cfg: Config, origin: Sys, s: Sys, p: Proc, i: Id) returns (s2: Sys)
    requires SysInv(origin) && CanReach(cfg, origin, s) && At(s, p, Gone(i)) && Holds(s, p, false)
    requires s.db.rows[p.ticket.row].instance == Some(i)
    ensures CanReach(cfg, origin, s2) && Meanwhile(s, s2) && s2.posts == s.posts
    ensures p.ticket.row in s2.db.rows && s2.db.rows[p.ticket.row].state == RowState.Failed && i !in s2.db.instances
    ensures s.db.rows[p.ticket.row].name !in Occupied(s2.db, p.ticket.host)
  {
    hide CanReach, SysInv, Inv, Occupied;
    ReachKeeps(cfg, origin, s);
    RowFacts(s.db, p.ticket.row);
    var newId := FreeKey(s.db.instances.Keys, 0);
    RemovedExactly(s.db, i, p.ticket.product, p.ticket.host, Some(p.ticket));
    s2 := TransactionDone(cfg, origin, s, p, Gone(i), NO_ROWS, newId);
    RemovalFreesName(s.db, i, p.ticket.product, p.ticket.host, Some(p.ticket), p.ticket.host);
  }
}
