/** What lease exclusion gives over whole runs: no overlap, fencing, and rows that close only for a reason. */
module Fencing {
  import opened Basics
  import opened Occupancy
  import opened Tables
  import opened Admission
  import opened Provisioning
  import opened Protocol
  import opened Invariants
  import opened Guarantees
  import opened Executors
  import opened Exclusion

  ghost predicate IsHistory(cfg: Config, states: seq<Sys>, actions: seq<Action>) {
    && |states| == |actions| + 1
    && forall k :: 0 <= k < |actions| ==> Leads(cfg, states[k], actions[k], states[k + 1])
  }

  ghost predicate Leads(cfg: Config, s: Sys, a: Action, s2: Sys) {
    May(s, cfg, a) && s2 == Do(s, cfg, a)
  }

  /** Before the first reservation the invariant holds. */
  lemma EmptyStart(db: Db, now: Time, remote: set<(Id, Name)>)
    requires Inv(db) && db.rows == map[]
    ensures SysInv(Sys(db, now, map[], remote, multiset{}, {}, {}, {}))
  {
    hide Inv;
  }

  lemma {:induction false} HistoryKeepsInv(cfg: Config, states: seq<Sys>, actions: seq<Action>, k: nat)
    requires IsHistory(cfg, states, actions) && SysInv(states[0]) && k < |states|
    ensures SysInv(states[k])
  {
    hide SysInv, May, Do;
    if k > 0 {
      HistoryKeepsInv(cfg, states, actions, k - 1);
      assert Leads(cfg, states[k - 1], actions[k - 1], states[k]);
      ActionKeeps(states[k - 1], cfg, actions[k - 1]);
    }
  }

  // ----- no overlap -----

  /**
   While a remote call is under way its row is open, is the caller's, keeps its slot, and its
   lease outlives the call.
   */
  lemma CallHoldsRow(s: Sys, tok: Token)
    requires SysInv(s) && tok in s.procs && s.procs[tok].call.Some?
    ensures var t := s.procs[tok].ticket;
            && Owns(s.db, t) && s.db.rows[t.row].name in Occupied(s.db, t.host)
            && s.db.rows[t.row].leaseExpiresAt.Some?
            && s.procs[tok].call.value.endsBy + 6000 <= s.db.rows[t.row].leaseExpiresAt.value
  {
    hide Inv, Evidence, Justified;
    var t := s.procs[tok].ticket;
    ProcFact(s, tok);
    RowFact(s, t.row);
    assert Leasehold(s, s.procs[tok]) && Held(s, s.db.rows[t.row], t.row);
    assert OpenOn(s.db, t.row, t.host);
  }

  /** So nobody can take the row over meanwhile, whether or not the caller still lives. */
  lemma NoTakeoverDuringCall(s: Sys, tok: Token, b: Budget, owner: Token)
    requires SysInv(s) && tok in s.procs && s.procs[tok].call.Some? && owner !in s.procs
    ensures TakenOver(s, b, s.procs[tok].ticket.row, owner) == s
  {
    hide SysInv, Evidence, Occupied;
    CallHoldsRow(s, tok);
    ProcFact(s, tok);
    assert Leasehold(s, s.procs[tok]);
    assert s.db.(rows := s.db.rows) == s.db;
  }

  // ----- fencing -----

  /** The process may still run, but its row is gone, and so is its time unless it has no call left to make. */
  ghost predicate Evicted(s: Sys, tok: Token) {
    && tok in s.procs && s.procs[tok].ticket.owner == tok && s.procs[tok].ticket.row in s.db.rows
    && (Holding(s.procs[tok].pc) ==> s.procs[tok].budget.deadline + LEASE_MARGIN <= s.now)
    && !Owns(s.db, s.procs[tok].ticket)
  }

  /** A successful takeover evicts every process that worked on the row before. */
  lemma TakeoverEvicts(s: Sys, b: Budget, r: Id, owner: Token, tok: Token)
    requires SysInv(s) && owner !in s.procs && TakenOver(s, b, r, owner).procs != s.procs
    requires tok in s.procs && s.procs[tok].ticket.row == r
    ensures Evicted(TakenOver(s, b, r, owner), tok)
  {
    hide Inv, TakenOver, Evidence, Justified;
    TakeoverShape(s, b, r, owner);
    ProcFact(s, tok);
    RowFact(s, r);
    assert Leasehold(s, s.procs[tok]) && Held(s, s.db.rows[r], r);
  }

  /** An evicted process has no call under way, can start none, and its transactions leave the tables as they are. */
  lemma EvictedIsHarmless(s: Sys, cfg: Config, tok: Token, limit: nat, l: Listing, newId: Id)
    requires SysInv(s) && Evicted(s, tok)
    ensures s.procs[tok].call.None?
    ensures !May(s, cfg, Starts(tok, limit))
    ensures May(s, cfg, Transacts(tok, l, newId)) ==> Do(s, cfg, Transacts(tok, l, newId)).db == s.db
  {
    hide SysInv, Evidence, Can, After, Continues, Transaction;
    ProcFact(s, tok);
    assert Leasehold(s, s.procs[tok]);
    if May(s, cfg, Transacts(tok, l, newId)) { LostTransaction(s.db, cfg, s.now, s.procs[tok], l, newId); }
  }

  lemma EvictedElsewhere(s: Sys, cfg: Config, step: Step, tok: Token)
    requires SysInv(s) && May(s, cfg, Elsewhere(step)) && Evicted(s, tok)
    ensures Evicted(Do(s, cfg, Elsewhere(step)), tok)
  {
    hide SysInv, After, Can;
    SysDb(s);
    RowFacts(s.db, s.procs[tok].ticket.row);
    OthersSpare(s.db, cfg, s.now, step, s.procs[tok].ticket.row);
  }

  lemma EvictedByNewcomers(s: Sys, cfg: Config, a: Action, tok: Token)
    requires (a.Prepares? || a.TakesOver?) && May(s, cfg, a) && Evicted(s, tok)
    ensures Evicted(Do(s, cfg, a), tok)
  {
    hide Reserve, TakenOver, Claim, Lists;
    match a
    case Prepares(b, q, seen, l) => ReserveMovesRows(s.db, cfg, s.now, b, q, seen, l);
    case TakesOver(b, r, owner) => TakeoverShape(s, b, r, owner);
  }

  lemma EvictedAcrossTransactions(s: Sys, cfg: Config, other: Token, l: Listing, newId: Id, tok: Token)
    requires SysInv(s) && May(s, cfg, Transacts(other, l, newId)) && Evicted(s, tok)
    ensures Evicted(Do(s, cfg, Transacts(other, l, newId)), tok)
  {
    hide SysInv, May, Do, Evidence;
    TransactionEffect(s, cfg, other, l, newId);
    ProcFact(s, tok);
    if !Owns(s.db, s.procs[other].ticket) || s.procs[other].ticket.row != s.procs[tok].ticket.row {
      assert Spares(s.db, Do(s, cfg, Transacts(other, l, newId)).db, s.procs[tok].ticket.row);
    }
    if !Holding(s.procs[tok].pc) && other == tok { ClosingOnlyEnds(s, cfg, tok, l, newId); }
  }

  lemma ClosingOnlyEnds(s: Sys, cfg: Config, tok: Token, l: Listing, newId: Id)
    requires May(s, cfg, Transacts(tok, l, newId)) && !Holding(s.procs[tok].pc)
    ensures !Holding(Do(s, cfg, Transacts(tok, l, newId)).procs[tok].pc)
  {
    hide After, Can;
  }

  /** And it stays evicted: tokens are never given out twice. */
  lemma StaysEvicted(s: Sys, cfg: Config, a: Action, tok: Token)
    requires SysInv(s) && May(s, cfg, a) && Evicted(s, tok)
    ensures Evicted(Do(s, cfg, a), tok)
  {
    hide SysInv, Answers, AssertOwned, Can, Evidence, Reserve, TakenOver, After, Transaction, Continues, Started, Moves;
    match a
    case Elsewhere(step) => EvictedElsewhere(s, cfg, step, tok);
    case Prepares(b, q, seen, l) => EvictedByNewcomers(s, cfg, a, tok);
    case TakesOver(b, r, owner) => EvictedByNewcomers(s, cfg, a, tok);
    case Transacts(other, l, newId) => EvictedAcrossTransactions(s, cfg, other, l, newId, tok);
    case Serves(other, answer) => ServesGrow(s, other, answer);
    case _ => EvictedByProcesses(s, cfg, a, tok);
  }

  lemma EvictedByProcesses(s: Sys, cfg: Config, a: Action, tok: Token)
    requires SysInv(s) && May(s, cfg, a) && Evicted(s, tok)
    requires a.Ticks? || a.RemoteChanges? || a.Starts? || a.Returns? || a.Proceeds? || a.Throws? || a.Aborts?
             || a.Crashes?
    ensures Evicted(Do(s, cfg, a), tok)
  {
    hide SysInv, AssertOwned, Evidence, Owns;
    if a.Returns? { ProcFact(s, a.tok); }
  }

  /** From a takeover on, no earlier executor of the row touches the remote or the tables again. */
  lemma {:induction false} FencedForever(cfg: Config, states: seq<Sys>, actions: seq<Action>, i: nat, j: nat,
        tok: Token)
    requires IsHistory(cfg, states, actions) && SysInv(states[0]) && i < j < |states|
    requires actions[i].TakesOver? && states[i + 1].procs != states[i].procs
    requires tok in states[i].procs && states[i].procs[tok].ticket.row == actions[i].r
    ensures Evicted(states[j], tok)
    decreases j
  {
    hide SysInv, May, Do, TakenOver;
    HistoryKeepsInv(cfg, states, actions, j - 1);
    assert Leads(cfg, states[j - 1], actions[j - 1], states[j]);
    if j == i + 1 {
      TakeoverStep(states[i], cfg, actions[i]);
      TakeoverEvicts(states[i], actions[i].b, actions[i].r, actions[i].owner, tok);
    } else {
      FencedForever(cfg, states, actions, i, j - 1, tok);
      StaysEvicted(states[j - 1], cfg, actions[j - 1], tok);
    }
  }

  lemma TakeoverStep(s: Sys, cfg: Config, a: Action)
    requires a.TakesOver? && May(s, cfg, a)
    ensures a.owner !in s.procs && Do(s, cfg, a) == TakenOver(s, a.b, a.r, a.owner)
  {
    hide TakenOver;
  }

  // ----- rows close for a reason -----

  lemma ActionMovesRow(s: Sys, cfg: Config, a: Action, r: Id)
    requires SysInv(s) && May(s, cfg, a) && r in s.db.rows
    ensures r in Do(s, cfg, a).db.rows && Moved(s.db.rows[r], Do(s, cfg, a).db.rows[r])
  {
    hide SysInv, Answers, AssertOwned, Evidence, Can, Moved, After, Reserve, Claim, Transaction, Continues;
    match a
    case Elsewhere(step) => StepMovesRow(s.db, cfg, s.now, step, r);
    case Prepares(b, q, seen, l) =>
      StepMovesRow(s.db, cfg, s.now, DoReserve(b, q, seen, l), r);
      PrepareIsStep(s, cfg, b, q, seen, l);
    case TakesOver(b, k, owner) =>
      TakeoverDb(s, b, k, owner);
      ClaimMovesRows(s.db, s.now, b, k, owner);
      SameRowMoved(s.db.rows[r]);
    case Transacts(tok, l, newId) => StepMovesRow(s.db, cfg, s.now, Transaction(s.procs[tok], l, newId).value, r);
    case Serves(tok, answer) => ServesGrow(s, tok, answer); SameRowMoved(s.db.rows[r]);
    case _ => SameRowMoved(s.db.rows[r]);
  }

  lemma SameRowMoved(row: Row)
    ensures Moved(row, row)
  {}

  lemma PrepareIsStep(s: Sys, cfg: Config, b: Budget, q: Request, seen: Observed, l: Listing)
    requires May(s, cfg, Prepares(b, q, seen, l))
    ensures Do(s, cfg, Prepares(b, q, seen, l)).db == After(s.db, cfg, s.now, DoReserve(b, q, seen, l))
  {
    hide Reserve, Lists;
  }

  lemma {:induction false} HistoryRowLife(cfg: Config, states: seq<Sys>, actions: seq<Action>, i: nat, j: nat, r: Id)
    requires IsHistory(cfg, states, actions) && SysInv(states[0]) && i <= j < |states| && r in states[i].db.rows
    ensures r in states[j].db.rows && SameRow(states[i].db.rows[r], states[j].db.rows[r])
    ensures Reaches(states[i].db.rows[r].state, states[j].db.rows[r].state)
    decreases j - i
  {
    hide SysInv, May, Do;
    if i < j {
      HistoryRowLife(cfg, states, actions, i, j - 1, r);
      HistoryKeepsInv(cfg, states, actions, j - 1);
      assert Leads(cfg, states[j - 1], actions[j - 1], states[j]);
      ActionMovesRow(states[j - 1], cfg, actions[j - 1], r);
    }
  }

  /** A row's creation is sent at most once, and never for a row that was, or comes to be, released. */
  lemma SentAtMostOnce(cfg: Config, states: seq<Sys>, actions: seq<Action>, i: nat, j: nat, r: Id)
    requires IsHistory(cfg, states, actions) && SysInv(states[0]) && i <= j < |states| && r in states[i].db.rows
    ensures r in states[j].db.rows && states[j].posts[r] <= 1
    ensures states[j].db.rows[r].state == Released ==> states[j].posts[r] == 0
    ensures states[i].db.rows[r].state == Released ==> states[j].db.rows[r].state == Released
  {
    hide SysInv, May, Do;
    HistoryRowLife(cfg, states, actions, i, j, r);
    HistoryKeepsInv(cfg, states, actions, j);
    RowFact(states[j], r);
  }

  /**
   A row once sent keeps its slot until it is committed, its webhook accepted if it asked for
   one, or failed, its session having been gone while the row was already under cleanup.
   */
  lemma SentUntilResolved(cfg: Config, states: seq<Sys>, actions: seq<Action>, i: nat, j: nat, r: Id)
    requires IsHistory(cfg, states, actions) && SysInv(states[0]) && i <= j < |states|
    requires states[i].posts[r] > 0
    ensures r in states[i].db.rows && r in states[j].db.rows
    ensures var row := states[j].db.rows[r];
            || (OpenOn(states[j].db, r, row.host) && row.name in Occupied(states[j].db, row.host))
            || (row.state == Committed && (r in states[j].hooked || r in states[j].plain))
            || (row.state == Failed && r in states[j].gone)
  {
    hide May, Do, Inv, ProcOk, RowOk, Moved;
    HistoryKeepsInv(cfg, states, actions, i);
    HistoryKeepsInv(cfg, states, actions, j);
    assert HistoryGrounded(states[i]);
    HistoryRowLife(cfg, states, actions, i, j, r);
    RowFact(states[i], r);
    RowFact(states[j], r);
    assert Justified(states[i], states[i].db.rows[r], r) && Justified(states[j], states[j].db.rows[r], r) by {
      assert RowOk(states[i], r) && RowOk(states[j], r); JustifiedFact(states[i], r); JustifiedFact(states[j], r);
    }
  }

  lemma JustifiedFact(s: Sys, r: Id)
    requires RowOk(s, r)
    ensures Justified(s, s.db.rows[r], r)
  {}

  /** Once a row's session was gone during cleanup, no creation for the row is under way, and none can start. */
  lemma GoneIsFinal(s: Sys, cfg: Config, tok: Token, limit: nat)
    requires SysInv(s) && tok in s.procs && s.procs[tok].ticket.row in s.gone
    ensures !s.procs[tok].pc.Posting?
    ensures s.procs[tok].pc.Authorised? ==> !May(s, cfg, Starts(tok, limit))
  {
    hide SysInv, Leasehold;
    ProcFact(s, tok);
    ProcRow(s, tok);
    assert Evidence(s, s.procs[tok]);
  }

  /**
   `removeConfirmed` does not ask whose instance it is given. The order in which its callers work
   sees to that: while they own the row, it is the one the row recorded, gone and under cleanup.
   */
  lemma RemovalIsOwn(s: Sys, tok: Token)
    requires SysInv(s) && tok in s.procs && s.procs[tok].pc.Gone? && Owns(s.db, s.procs[tok].ticket)
    ensures var p := s.procs[tok];
            && RemovesOwn(s.db, DoRemove(p.pc.inst, p.ticket.product, p.ticket.host, Some(p.ticket)))
            && p.ticket.row in s.gone && s.db.rows[p.ticket.row].state == CleanupPending
               && RecordedAs(s.db, s.db.rows[p.ticket.row])
  {
    hide Inv, Held, Justified;
    ProcFact(s, tok);
    assert Leasehold(s, s.procs[tok]) && Evidence(s, s.procs[tok]);
    SysDb(s);
    RowFacts(s.db, s.procs[tok].ticket.row);
  }

  /** Committing leaves the row's own session recorded as an instance. */
  lemma CommittedWithInstance(db: Db, cfg: Config, now: Time, t: Ticket)
    requires Inv(db) && Owns(db, t) && Finish(db, now, t).Done?
    ensures var after := Finish(db, now, t).db;
            t.row in after.rows && after.rows[t.row].state == Committed && RecordedAs(after, after.rows[t.row])
  {
    hide Inv;
    RowFacts(db, t.row);
  }
}
