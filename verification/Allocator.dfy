/** `prepare`: the walk over a product's candidate hosts, until one takes the session. */
module Allocator {
  import opened Basics
  import opened Occupancy
  import opened Relay
  import opened Tables
  import opened Admission
  import opened Provisioning
  import opened Transactions
  import opened Guarantees
  import Protocol
  import Invariants

  /** The request as `prepare` received it, what it had read of the product, and the host already asked for the name. */
  datatype Order = Order(
    product: Id, name: Name, payload: Payload, hubRelay: bool, fallback: Webhook, base: string,
    seen: Product, candidates: seq<Id>, checked: Option<Id>)

  /** The clock and the request's budget as they stand at some point; a budget may be cut short by the caller. */
  datatype Moment = Moment(now: Time, b: Budget)

  predicate InTime(m: Moment) { Active(m.b, m.now) }

  /**
   What asking the remote came to: its sessions, a circuit that is open after too many
   failures, or any other failure.
   */
  datatype Answer = Gave(sessions: seq<Seen>) | CircuitOpen | Broken

  function Failure(a: Answer): Refusal { if a.CircuitOpen? then Unavailable else Internal }

  /** The pieces of work of one visit, in their order; others write before each of them. */
  datatype Point = Reading | Collecting | Publishing | Closing | Relaying | Reserving

  /**
   What a visit to a candidate draws: the moments before and after the remote is asked, keys,
   the remote's answer, the database's listing of the tables as they are, and what others make
   of the tables in between.
   */
  datatype Visit = Visit(opening: Moment, closing: Moment, row: Db -> Id, owner: Token, collector: Token,
                         freshToken: string, answer: Answer, listing: Db -> Listing, others: (Point, Db) -> Db)

  /** Keys are new, and listings name rows that exist. */
  ghost predicate Ready(v: Visit) {
    forall db: Db :: v.row(db) !in db.rows && Known(db, v.listing(db))
  }

  ghost predicate AllReady(visits: seq<Visit>) {
    forall j :: 0 <= j < |visits| ==> Ready(visits[j])
  }

  /** There are such visits: one that nobody disturbs, under the first key that is free. */
  lemma UndisturbedVisit(start: Moment, end: Moment, owner: Token, collector: Token, token: string, answer: Answer)
    ensures Ready(Visit(start, end, (db: Db) => FreeKey(db.rows.Keys, 0), owner, collector, token, answer,
                        (db: Db) => Listing([], [], []), (point: Point, db: Db) => db))
  {}

  // ----- reading the host, refreshing its inventory when it is old -----

  function Named(n: Name, answer: seq<Seen>): bool {
    exists k :: 0 <= k < |answer| && answer[k].session.name == n
  }

  /** `refresh`: a collection from start to publication; a failure closes it. */
  function Refresh(db: Db, h: Id, v: Visit): (Db, Reply<Host>) {
    var collecting := v.others(Collecting, db);
    var begun := StartCollection(collecting, v.opening.now, v.opening.b, h, v.collector);
    if begun.Refused? then (collecting, Threw(begun.why))
    else
      var publishing := v.others(Publishing, begun.db);
      if !v.answer.Gave? then (FailCollection(publishing, h, v.collector), Threw(Failure(v.answer)))
      else
        var o := Publish(publishing, v.closing.now, v.closing.b, h, v.collector, begun.value, v.answer.sessions);
        if o.Refused? then (FailCollection(v.others(Closing, publishing), h, v.collector), Threw(o.why))
        else if h in o.db.hosts then (o.db, Answered(o.db.hosts[h])) else (o.db, Threw(NotFound))
  }

  function Preflight(db: Db, cfg: Config, order: Order, h: Id, v: Visit): (Db, Reply<Host>)
    requires h in db.hosts
  {
    if order.seen.mode == Capacity || db.hosts[h].maxInstances.Some? then
      if Fresh(db.hosts[h], cfg, v.opening.now) then (db, Answered(db.hosts[h])) else Refresh(db, h, v)
    else if order.checked == Some(h) then (db, Answered(db.hosts[h]))
    else if !v.answer.Gave? then (db, Threw(Failure(v.answer)))
    else if Named(order.name, v.answer.sessions) then (db, Threw(Conflict))
    else (db, Answered(db.hosts[h]))
  }

  // ----- the webhook for the host -----

  /** The host's callback token, stored the first time it is needed. */
  function WithToken(db: Db, h: Id, freshToken: string): Db
    requires h in db.hosts
  {
    if db.hosts[h].callbackToken.Some? then db
    else db.(hosts := db.hosts[h := db.hosts[h].(callbackToken := Some(freshToken))])
  }

  function Base(payload: Payload, order: Order): Webhook {
    if payload.webhook.Some? then payload.webhook.value else order.fallback
  }

  function Retarget(payload: Payload, order: Order, h: Id, token: string): Payload {
    payload.(webhook := Some(Relayed(order.base, h, token, Base(payload, order))), webhookApplied := false)
  }

  // ----- one candidate, then the next -----

  /** The tables, the payload as overwritten so far, and the answer. */
  datatype Turn = Turn(db: Db, payload: Payload, reply: Reply<Ticket>)

  function RequestFor(order: Order, h: Id, v: Visit, payload: Payload, db: Db): Request {
    Request(order.product, h, order.name, v.row(db), v.owner, payload)
  }

  predicate Usable(db: Db, h: Id) {
    h in db.hosts && db.hosts[h].active
  }

  /** Whatever went wrong at the host, a request that ran out meanwhile answers that it did. */
  function Visited(db: Db, cfg: Config, order: Order, payload: Payload, h: Id, v: Visit): Turn
    requires Ready(v)
  {
    if !InTime(v.opening) then Turn(db, payload, Threw(Timeout))
    else
      var reading := v.others(Reading, db);
      if !Usable(reading, h)
        then Turn(reading, payload, Threw(if order.seen.mode == Capacity then Unavailable else NotFound))
      else
        var (looked, host) := Preflight(reading, cfg, order, h, v);
        if !InTime(v.closing) then Turn(looked, payload, Threw(Timeout))
        else if host.Threw? then Turn(looked, payload, Threw(host.why))
        else Settled(looked, cfg, order, payload, h, host.value, v)
  }

  /** The host is known: the webhook is redirected to it, and the row reserved. */
  function Settled(db: Db, cfg: Config, order: Order, payload: Payload, h: Id, host: Host, v: Visit): Turn
    requires Ready(v)
  {
    var relaying := v.others(Relaying, db);
    if order.hubRelay && h !in relaying.hosts then Turn(relaying, payload, Threw(NotFound))
    else
      var tabled := if order.hubRelay then WithToken(relaying, h, v.freshToken) else relaying;
      var paid :=
        if order.hubRelay then Retarget(payload, order, h, tabled.hosts[h].callbackToken.value) else payload;
      var reserving := v.others(Reserving, tabled);
      var o :=
        Reserve(reserving, cfg, v.closing.now, v.closing.b, RequestFor(order, h, v, paid, reserving),
                Observed(order.seen, host, order.candidates), v.listing(reserving));
      Turn(Protocol.Commit(reserving, o), paid, ReplyOf(o))
  }

  /** The state in which candidate `k` is visited, if the walk gets there. */
  function Before(db: Db, cfg: Config, order: Order, visits: seq<Visit>, k: nat): Turn
    requires k <= |order.candidates| == |visits| && AllReady(visits)
  {
    if k == 0 then Turn(db, order.payload, Threw(Unavailable))
    else
      var was := Before(db, cfg, order, visits, k - 1);
      if was.reply != Threw(Unavailable) then was
      else Visited(was.db, cfg, order, was.payload, order.candidates[k - 1], visits[k - 1])
  }

  /** The whole walk: without any candidate the answer is 503 at once. */
  function Placed(db: Db, cfg: Config, order: Order, visits: seq<Visit>): Turn
    requires |order.candidates| == |visits| && AllReady(visits)
  {
    Before(db, cfg, order, visits, |visits|)
  }

  // ----- what the walk promises -----

  /** Candidate `k` was visited and refused for want of room. */
  predicate PassedOver(db: Db, cfg: Config, order: Order, visits: seq<Visit>, k: nat)
    requires k < |order.candidates| == |visits| && AllReady(visits)
  {
    Before(db, cfg, order, visits, k).reply == Threw(Unavailable)
    && Before(db, cfg, order, visits, k + 1).reply == Threw(Unavailable)
  }

  lemma {:induction false} EarlierPassedOver(db: Db, cfg: Config, order: Order, visits: seq<Visit>, j: nat, k: nat)
    requires j < k <= |order.candidates| == |visits| && AllReady(visits)
    requires Before(db, cfg, order, visits, k).reply == Threw(Unavailable)
    ensures PassedOver(db, cfg, order, visits, j)
    decreases k
  {
    hide Visited;
    assert Before(db, cfg, order, visits, k - 1).reply == Threw(Unavailable);
    if j < k - 1 { EarlierPassedOver(db, cfg, order, visits, j, k - 1); }
  }

  /** Where the walk stopped. */
  lemma {:induction false} StopsOnce(db: Db, cfg: Config, order: Order, visits: seq<Visit>, n: nat) returns (k: nat)
    requires n <= |order.candidates| == |visits| && AllReady(visits)
    requires Before(db, cfg, order, visits, n).reply != Threw(Unavailable)
    ensures k < n && Before(db, cfg, order, visits, k).reply == Threw(Unavailable)
    ensures Before(db, cfg, order, visits, n) == Before(db, cfg, order, visits, k + 1)
    decreases n
  {
    hide Visited;
    if Before(db, cfg, order, visits, n - 1).reply == Threw(Unavailable) { k := n - 1; }
    else { k := StopsOnce(db, cfg, order, visits, n - 1); }
  }

  lemma VisitTicket(db: Db, cfg: Config, order: Order, payload: Payload, h: Id, v: Visit)
    requires Ready(v)
    ensures var turn := Visited(db, cfg, order, payload, h, v);
            turn.reply.Answered? ==>
              && turn.reply.value.host == h && turn.reply.value.product == order.product
              && turn.reply.value.row in turn.db.rows && turn.db.rows[turn.reply.value.row].host == h
                 && turn.db.rows[turn.reply.value.row].payload == Some(turn.payload)
              && (order.seen.mode == Legacy ==> order.seen.defaultHost == Some(h))
              && (order.seen.mode == Capacity ==> CandidateOrder(turn.db, order.product, order.candidates))
  {
    hide Preflight, NameTaken, WithinControls, CandidateOrder, Fresh, Relayed, WithToken, Retarget, Reserve;
    if Visited(db, cfg, order, payload, h, v).reply.Answered? {
      var looked := Preflight(v.others(Reading, db), cfg, order, h, v);
      SettledTicket(looked.0, cfg, order, payload, h, looked.1.value, v);
    }
  }

  lemma SettledTicket(db: Db, cfg: Config, order: Order, payload: Payload, h: Id, host: Host, v: Visit)
    requires Ready(v)
    ensures var turn := Settled(db, cfg, order, payload, h, host, v);
            turn.reply.Answered? ==>
              && turn.reply.value.host == h && turn.reply.value.product == order.product
              && turn.reply.value.row in turn.db.rows && turn.db.rows[turn.reply.value.row].host == h
                 && turn.db.rows[turn.reply.value.row].payload == Some(turn.payload)
              && (order.seen.mode == Legacy ==> order.seen.defaultHost == Some(h))
              && (order.seen.mode == Capacity ==> CandidateOrder(turn.db, order.product, order.candidates))
  {
    hide Reserve, Admit, CandidateOrder, WithToken, Retarget;
    var turn := Settled(db, cfg, order, payload, h, host, v);
    if turn.reply.Answered? {
      var relaying := v.others(Relaying, db);
      var reserving :=
        v.others(Reserving, if order.hubRelay then WithToken(relaying, h, v.freshToken) else relaying);
      var q := RequestFor(order, h, v, turn.payload, reserving);
      Reserved(reserving, cfg, v.closing.now, v.closing.b, q, Observed(order.seen, host, order.candidates),
               v.listing(reserving));
    }
  }

  /** A reservation that goes through stores its request, on the observed default host or in the observed order. */
  lemma Reserved(db: Db, cfg: Config, now: Time, b: Budget, q: Request, seen: Observed, l: Listing)
    requires Known(db, l) && q.row !in db.rows && Reserve(db, cfg, now, b, q, seen, l).Done?
    ensures var o := Reserve(db, cfg, now, b, q, seen, l);
            && o.value == Ticket(q.row, q.product, q.host, q.owner)
            && q.row in o.db.rows && o.db.rows[q.row] == NewRow(q, b, now)
            && (seen.product.mode == Legacy ==> seen.product.defaultHost == Some(q.host))
            && (seen.product.mode == Capacity ==> CandidateOrder(o.db, q.product, seen.candidates))
  {
    hide WithinControls, NameTaken, CandidateOrder;
    ReserveWrites(db, cfg, now, b, q, seen, l);
    var o := Reserve(db, cfg, now, b, q, seen, l);
    SameLinksSameOrder(Admit(db, cfg, now, q.product, q.host, false, l).db, o.db, q.product, seen.candidates);
  }

  lemma SameLinksSameOrder(db: Db, after: Db, p: Id, order: seq<Id>)
    requires after.links == db.links
    ensures CandidateOrder(after, p, order) <==> CandidateOrder(db, p, order)
  {
    hide Provisioning.Before;
    assert forall g, h :: (p, g) in db.links && (p, h) in db.links ==>
                            (Provisioning.Before(after, p, g, h) <==> Provisioning.Before(db, p, g, h)) by {
      SameLinksSameBefore(db, after, p);
    }
  }

  lemma SameLinksSameBefore(db: Db, after: Db, p: Id)
    requires after.links == db.links
    ensures forall g, h :: (p, g) in db.links && (p, h) in db.links ==>
                             (Provisioning.Before(after, p, g, h) <==> Provisioning.Before(db, p, g, h))
  {}

  lemma PositionInOrder(db: Db, p: Id, order: seq<Id>, j: nat, k: nat)
    requires CandidateOrder(db, p, order) && j < |order| && k < |order|
    requires (p, order[j]) in db.links && (p, order[k]) in db.links && Provisioning.Before(db, p, order[j], order[k])
    ensures j < k
  {}

  /**
   The session lands on the first candidate that is not refused for want of room, in legacy
   mode on the default host.
   */
  lemma FirstFit(db: Db, cfg: Config, order: Order, visits: seq<Visit>) returns (k: nat)
    requires |order.candidates| == |visits| && AllReady(visits)
    requires Placed(db, cfg, order, visits).reply.Answered?
    ensures k < |visits| && Placed(db, cfg, order, visits).reply.value.host == order.candidates[k]
    ensures forall j :: 0 <= j < k ==> PassedOver(db, cfg, order, visits, j)
    ensures order.seen.mode == Legacy ==> order.seen.defaultHost == Some(order.candidates[k])
  {
    k := StopsOnce(db, cfg, order, visits, |visits|);
    var was := Before(db, cfg, order, visits, k);
    VisitTicket(was.db, cfg, order, was.payload, order.candidates[k], visits[k]);
    forall j | 0 <= j < k ensures PassedOver(db, cfg, order, visits, j) {
      EarlierPassedOver(db, cfg, order, visits, j, k);
    }
  }

  /** The answer 503 means that every candidate was refused for want of room. */
  lemma UnavailableMeansAllRefused(db: Db, cfg: Config, order: Order, visits: seq<Visit>, j: nat)
    requires j < |order.candidates| == |visits| && AllReady(visits)
    requires Placed(db, cfg, order, visits).reply == Threw(Unavailable)
    ensures PassedOver(db, cfg, order, visits, j)
  {
    EarlierPassedOver(db, cfg, order, visits, j, |visits|);
  }

  /**
   A destination that, as the tables stand once the session is placed, accepts the product at a
   better priority, or at the same with an earlier id, was passed over first.
   */
  lemma BetterHostsPassedOver(db: Db, cfg: Config, order: Order, visits: seq<Visit>, h: Id) returns (j: nat)
    requires |order.candidates| == |visits| && AllReady(visits)
    requires Placed(db, cfg, order, visits).reply.Answered? && order.seen.mode == Capacity
    requires var t := Placed(db, cfg, order, visits);
             && (order.product, h) in t.db.links && t.db.links[(order.product, h)].accepting
             && (order.product, t.reply.value.host) in t.db.links
             && var better, chosen := t.db.links[(order.product, h)], t.db.links[(order.product, t.reply.value.host)];
                better.priority < chosen.priority
                || (better.priority == chosen.priority && h < t.reply.value.host)
    ensures j < |visits| && order.candidates[j] == h && PassedOver(db, cfg, order, visits, j)
  {
    hide Visited;
    var k := StopsOnce(db, cfg, order, visits, |visits|);
    var was, t := Before(db, cfg, order, visits, k), Placed(db, cfg, order, visits);
    VisitTicket(was.db, cfg, order, was.payload, order.candidates[k], visits[k]);
    assert (order.product, h) in t.db.links && (order.product, h).1 in order.candidates;
    j :| 0 <= j < |order.candidates| && order.candidates[j] == h;
    PositionInOrder(t.db, order.product, order.candidates, j, k);
    EarlierPassedOver(db, cfg, order, visits, j, k);
  }

  /** The payload is overwritten per host, and still only speaks of the last one. */
  lemma {:induction false} PayloadOfLastHost(db: Db, cfg: Config, order: Order, visits: seq<Visit>, k: nat, h: Id,
        token: string)
    requires k <= |order.candidates| == |visits| && AllReady(visits)
    ensures Retarget(Before(db, cfg, order, visits, k).payload, order, h, token) ==
              Retarget(order.payload, order, h, token)
  {
    hide Visited, Retarget;
    if k > 0 {
      PayloadOfLastHost(db, cfg, order, visits, k - 1, h, token);
      var was := Before(db, cfg, order, visits, k - 1);
      if was.reply == Threw(Unavailable) {
        VisitPayload(was.db, cfg, order, was.payload, order.candidates[k - 1], visits[k - 1], h, token);
      }
    }
  }

  lemma VisitPayload(db: Db, cfg: Config, order: Order, payload: Payload, g: Id, v: Visit, h: Id, token: string)
    requires Ready(v)
    ensures Retarget(Visited(db, cfg, order, payload, g, v).payload, order, h, token) ==
              Retarget(payload, order, h, token)
  {
    hide Preflight, Reserve, Relayed;
    var paid := Visited(db, cfg, order, payload, g, v).payload;
    if paid != payload {
      var relaying := v.others(Relaying, Preflight(v.others(Reading, db), cfg, order, g, v).0);
      RelayForgetsEarlierHost(order.base, g, WithToken(relaying, g, v.freshToken).hosts[g].callbackToken.value, h,
                              token, Base(payload, order));
    }
  }

  /** Others do not touch a token once it is stored. */
  ghost predicate KeepsTokens(v: Visit) {
    forall db: Db, h :: h in db.hosts && db.hosts[h].callbackToken.Some? ==>
                          h in v.others(Reserving, db).hosts
                          && v.others(Reserving, db).hosts[h].callbackToken == db.hosts[h].callbackToken
  }

  /** The webhook asked for: the product's own, or else what the request came with. */
  function Asked(order: Order): Webhook {
    if order.payload.webhook.Some? then order.payload.webhook.value else order.fallback
  }

  /**
   A placed row of a relayed product stores, as if no other host had been tried: the hub's own
   address for its host; that host's stored token under the one header name, and under no other
   spelling of it; all other headers and settings as they were asked for; not yet applied; and
   the request's secret. The row of any other product stores the request as it came.
   */
  lemma StoredPayload(db: Db, cfg: Config, order: Order, visits: seq<Visit>) returns (token: string)
    requires |order.candidates| == |visits| && AllReady(visits)
    requires forall j :: 0 <= j < |visits| ==> KeepsTokens(visits[j])
    requires Placed(db, cfg, order, visits).reply.Answered?
    ensures var t := Placed(db, cfg, order, visits);
            && t.reply.value.row in t.db.rows && t.db.rows[t.reply.value.row].payload.Some?
            && var payload := t.db.rows[t.reply.value.row].payload.value;
               if !order.hubRelay then payload == order.payload
               else
                 && payload.webhook.Some? && !payload.webhookApplied
                 && payload.secret == order.payload.secret && payload.generated == order.payload.generated
                 && var w, asked := payload.webhook.value, Asked(order);
                    && w.url == RelayFor(order.base, t.reply.value.host)
                    && w.enabled == Some(asked.enabled.None? || asked.enabled.value) && w.settings == asked.settings
                    && TOKEN_HEADER in w.headers && w.headers[TOKEN_HEADER] == token
                    && t.reply.value.host in t.db.hosts
                    && t.db.hosts[t.reply.value.host].callbackToken == Some(token)
                    && (forall n :: n in w.headers && TokenSpelling(n) ==> n == TOKEN_HEADER)
                    && (forall n :: !TokenSpelling(n) ==>
                                      (n in w.headers <==> n in asked.headers)
                                      && (n in w.headers ==> w.headers[n] == asked.headers[n]))
  {
    hide KeepsTokens;
    var k := StopsOnce(db, cfg, order, visits, |visits|);
    var was := Before(db, cfg, order, visits, k);
    var h := order.candidates[k];
    VisitTicket(was.db, cfg, order, was.payload, h, visits[k]);
    token := "";
    if order.hubRelay {
      token := VisitToken(was.db, cfg, order, was.payload, h, visits[k]);
      PayloadOfLastHost(db, cfg, order, visits, k, h, token);
      RetargetedFields(order, h, token);
    } else {
      PayloadUntouched(db, cfg, order, visits, |visits|);
    }
  }

  lemma RetargetedFields(order: Order, h: Id, token: string)
    ensures var payload := Retarget(order.payload, order, h, token);
            && payload.webhook.Some? && !payload.webhookApplied
            && payload.secret == order.payload.secret && payload.generated == order.payload.generated
            && var w, asked := payload.webhook.value, Asked(order);
               && w.url == RelayFor(order.base, h)
               && w.enabled == Some(asked.enabled.None? || asked.enabled.value) && w.settings == asked.settings
               && TOKEN_HEADER in w.headers && w.headers[TOKEN_HEADER] == token
               && (forall n :: n in w.headers && TokenSpelling(n) ==> n == TOKEN_HEADER)
               && (forall n :: !TokenSpelling(n) ==>
                                 (n in w.headers <==> n in asked.headers)
                                 && (n in w.headers ==> w.headers[n] == asked.headers[n]))
  {
    hide TokenSpelling, Lower;
    forall n ensures IsTokenHeader(n) <==> TokenSpelling(n) { SpelledAlike(n); }
    RelayedHeaders(order.base, h, token, Asked(order), TOKEN_HEADER);
    forall n ensures var w := Relayed(order.base, h, token, Asked(order));
                     && (n in w.headers && TokenSpelling(n) ==> n == TOKEN_HEADER)
                     && (!TokenSpelling(n) ==>
                           (n in w.headers <==> n in Asked(order).headers)
                           && (n in w.headers ==> w.headers[n] == Asked(order).headers[n]))
    {
      RelayedHeaders(order.base, h, token, Asked(order), n);
    }
  }

  /** Without relaying no visit touches the payload. */
  lemma {:induction false} PayloadUntouched(db: Db, cfg: Config, order: Order, visits: seq<Visit>, k: nat)
    requires k <= |order.candidates| == |visits| && AllReady(visits) && !order.hubRelay
    ensures Before(db, cfg, order, visits, k).payload == order.payload
  {
    if k > 0 { PayloadUntouched(db, cfg, order, visits, k - 1); }
  }

  lemma VisitToken(db: Db, cfg: Config, order: Order, payload: Payload, h: Id, v: Visit) returns (token: string)
    requires Ready(v) && KeepsTokens(v)
    requires order.hubRelay && Visited(db, cfg, order, payload, h, v).reply.Answered?
    ensures var turn := Visited(db, cfg, order, payload, h, v);
            turn.payload == Retarget(payload, order, h, token) && h in turn.db.hosts
            && turn.db.hosts[h].callbackToken == Some(token)
  {
    hide Preflight, Admit, Reserve, Relayed;
    var (looked, host) := Preflight(v.others(Reading, db), cfg, order, h, v);
    var tabled := WithToken(v.others(Relaying, looked), h, v.freshToken);
    token := tabled.hosts[h].callbackToken.value;
    var reserving := v.others(Reserving, tabled);
    ReserveWrites(reserving, cfg, v.closing.now, v.closing.b,
                  RequestFor(order, h, v, Retarget(payload, order, h, token), reserving),
                  Observed(order.seen, host.value, order.candidates), v.listing(reserving));
  }

  // ----- the walk as it runs -----

  /** What others have written by the time the store is used again. */
  method Meanwhile(store: Store, v: Visit, point: Point)
    modifies store
    ensures store.Image() == v.others(point, old(store.Image()))
  {
    var db := v.others(point, store.Image());
    store.products, store.hosts, store.links, store.instances := db.products, db.hosts, db.links, db.instances;
    store.rows, store.entries, store.collections, store.reports := db.rows, db.entries, db.collections, db.reports;
  }

  method RefreshHost(store: Store, h: Id, v: Visit) returns (reply: Reply<Host>)
    modifies store
    ensures (store.Image(), reply) == Refresh(old(store.Image()), h, v)
  {
    hide Provisioning.StartCollection, Provisioning.Publish, Provisioning.FailCollection;
    Meanwhile(store, v, Collecting);
    var begun := store.StartCollection(v.opening.now, v.opening.b, h, v.collector);
    if begun.Threw? { return Threw(begun.why); }
    Meanwhile(store, v, Publishing);
    if !v.answer.Gave? {
      store.FailCollection(h, v.collector);
      return Threw(Failure(v.answer));
    }
    var published :=
      store.PublishCollection(v.closing.now, v.closing.b, h, v.collector, begun.value, v.answer.sessions);
    if published.Threw? {
      Meanwhile(store, v, Closing);
      store.FailCollection(h, v.collector);
      return Threw(published.why);
    }
    if h !in store.hosts { return Threw(NotFound); }
    return Answered(store.hosts[h]);
  }

  method LookAtHost(store: Store, cfg: Config, order: Order, h: Id, v: Visit) returns (reply: Reply<Host>)
    requires h in store.hosts
    modifies store
    ensures (store.Image(), reply) == Preflight(old(store.Image()), cfg, order, h, v)
  {
    hide Refresh, Fresh;
    if order.seen.mode == Capacity || store.hosts[h].maxInstances.Some? {
      if !Fresh(store.hosts[h], cfg, v.opening.now) {
        reply := RefreshHost(store, h, v);
        return;
      }
    } else if order.checked != Some(h) {
      if !v.answer.Gave? { return Threw(Failure(v.answer)); }
      if exists k :: 0 <= k < |v.answer.sessions| && v.answer.sessions[k].session.name == order.name {
        return Threw(Conflict);
      }
    }
    return Answered(store.hosts[h]);
  }

  /** Stores a token for the host if it has none, and redirects the webhook to it. */
  method RelayTo(store: Store, order: Order, payload: Payload, h: Id, freshToken: string) returns (paid: Payload)
    requires h in store.hosts
    modifies store`hosts
    ensures store.Image() == WithToken(old(store.Image()), h, freshToken)
    ensures paid == Retarget(payload, order, h, store.Image().hosts[h].callbackToken.value)
  {
    if store.hosts[h].callbackToken.None? {
      store.hosts := store.hosts[h := store.hosts[h].(callbackToken := Some(freshToken))];
    }
    var webhook := if payload.webhook.Some? then payload.webhook.value else order.fallback;
    paid := payload.(webhook := Some(Relayed(order.base, h, store.hosts[h].callbackToken.value, webhook)),
                                webhookApplied := false);
  }

  method VisitHost(store: Store, cfg: Config, order: Order, payload: Payload, h: Id, v: Visit)
    returns (paid: Payload, reply: Reply<Ticket>)
    requires Ready(v)
    modifies store
    ensures Turn(store.Image(), paid, reply) == Visited(old(store.Image()), cfg, order, payload, h, v)
  {
    hide Preflight, Reserve, Retarget, InTime;
    paid := payload;
    if !InTime(v.opening) { return paid, Threw(Timeout); }
    Meanwhile(store, v, Reading);
    if h !in store.hosts || !store.hosts[h].active {
      return paid, Threw(if order.seen.mode == Capacity then Unavailable else NotFound);
    }
    var host := LookAtHost(store, cfg, order, h, v);
    if !InTime(v.closing) { return paid, Threw(Timeout); }
    if host.Threw? { return paid, Threw(host.why); }
    Meanwhile(store, v, Relaying);
    if order.hubRelay {
      if h !in store.hosts { return paid, Threw(NotFound); }
      paid := RelayTo(store, order, payload, h, v.freshToken);
    }
    Meanwhile(store, v, Reserving);
    var reserving := store.Image();
    reply :=
      store.PrepareOn(cfg, v.closing.now, v.closing.b, RequestFor(order, h, v, paid, reserving),
                      Observed(order.seen, host.value, order.candidates), v.listing(reserving));
  }

  method Prepare(store: Store, cfg: Config, order: Order, visits: seq<Visit>)
    returns (payload: Payload, reply: Reply<Ticket>)
    requires |order.candidates| == |visits| && AllReady(visits)
    requires order.seen.mode == Legacy ==> |visits| == 1
    modifies store
    ensures Turn(store.Image(), payload, reply) == Placed(old(store.Image()), cfg, order, visits)
  {
    hide Visited;
    ghost var begun := store.Image();
    payload, reply := order.payload, Threw(Unavailable);
    for k := 0 to |visits|
      invariant Turn(store.Image(), payload, reply) == Before(begun, cfg, order, visits, k)
      invariant reply == Threw(Unavailable)
    {
      payload, reply := VisitHost(store, cfg, order, payload, order.candidates[k], visits[k]);
      assert Turn(store.Image(), payload, reply) == Before(begun, cfg, order, visits, k + 1);
      if reply.Answered? || reply.why != Unavailable || order.seen.mode == Legacy {
        StaysStopped(begun, cfg, order, visits, k + 1, |visits|);
        return;
      }
    }
  }

  lemma {:induction false} StaysStopped(db: Db, cfg: Config, order: Order, visits: seq<Visit>, k: nat, n: nat)
    requires k <= n <= |order.candidates| == |visits| && AllReady(visits)
    requires Before(db, cfg, order, visits, k).reply != Threw(Unavailable) || k == n
    ensures Before(db, cfg, order, visits, n) == Before(db, cfg, order, visits, k)
    decreases n
  {
    hide Visited;
    if k < n { StaysStopped(db, cfg, order, visits, k, n - 1); }
  }

  // ----- before the walk: the product, and a namesake it may already have -----

  /** What the opening of a request draws: moments before and after the remote is asked, and its answer. */
  datatype Opening = Opening(opening: Moment, closing: Moment, answer: Answer)

  function Namesakes(db: Db, p: Id, n: Name): set<Id> {
    set i | i in db.instances && db.instances[i].product == p && db.instances[i].name == n
  }

  predicate InResolution(db: Db, p: Id, n: Name) {
    exists r :: r in db.rows && OpenRow(db, r) && db.rows[r].product == p && db.rows[r].name == n
  }

  /** A namesake the remote no longer shows is removed, and its host counts as asked. */
  function Cleared(db: Db, p: Id, n: Name, i: Id, o: Opening): (Db, Reply<Option<Id>>) {
    if !InTime(o.opening) then (db, Threw(Timeout))
    else if p !in db.products then (db, Threw(NotFound))
    else if !db.products[p].active then (db, Threw(BadRequest))
    else if InResolution(db, p, n) then (db, Threw(Conflict))
    else if i !in Namesakes(db, p, n) then (db, Answered(None))
    else if db.instances[i].host !in db.hosts then (db, Threw(NotFound))
    else if !o.answer.Gave? then (db, Threw(Failure(o.answer)))
    else if Named(n, o.answer.sessions) then (db, Threw(Conflict))
    else if !InTime(o.closing) then (db, Threw(Timeout))
    else
      var removed := Provisioning.RemoveConfirmed(db, i, p, db.instances[i].host, None);
      if removed.Refused? then (db, Threw(removed.why)) else (removed.db, Answered(Some(db.instances[i].host)))
  }

  /** Once cleared, the product has neither an instance nor an open row of that name. */
  lemma ClearedHasNoNamesake(db: Db, p: Id, n: Name, i: Id, o: Opening)
    requires Protocol.Inv(db) && (Namesakes(db, p, n) == {} || i in Namesakes(db, p, n))
    ensures var (cleared, reply) := Cleared(db, p, n, i, o);
            && Protocol.Inv(cleared)
            && (reply.Answered? ==> Namesakes(cleared, p, n) == {} && !InResolution(cleared, p, n))
            && (reply.Threw? ==> cleared == db)
  {
    hide Protocol.Inv;
    var (cleared, reply) := Cleared(db, p, n, i, o);
    if reply.Answered? && i in Namesakes(db, p, n) {
      Invariants.RemoveKeeps(db, i, p, db.instances[i].host, None);
      forall j | j in Namesakes(cleared, p, n) ensures false { OneNamesake(db, p, n, i, j); }
    }
  }

  lemma OneNamesake(db: Db, p: Id, n: Name, i: Id, j: Id)
    requires Protocol.Inv(db) && i in Namesakes(db, p, n) && j in Namesakes(db, p, n)
    ensures i == j
  {
    assert i == j || !Collides(db.instances[i], db.instances[j]);
  }

  /** The request as a whole: clear the name, check the mode, walk the candidates. */
  function Requested(db: Db, cfg: Config, order: Order, i: Id, o: Opening, visits: seq<Visit>): Turn
    requires |order.candidates| == |visits| && AllReady(visits)
  {
    var (cleared, reply) := Cleared(db, order.product, order.name, i, o);
    if reply.Threw? then Turn(cleared, order.payload, Threw(reply.why))
    else if order.seen.mode == Legacy && order.seen.defaultHost.None?
           then Turn(cleared, order.payload, Threw(BadRequest))
    else if order.seen.mode == Capacity && !cfg.allocationEnabled then Turn(cleared, order.payload, Threw(Unavailable))
    else Placed(cleared, cfg, order.(checked := reply.value), visits)
  }

  method ClearName(store: Store, p: Id, n: Name, i: Id, o: Opening) returns (reply: Reply<Option<Id>>)
    modifies store
    ensures (store.Image(), reply) == Cleared(old(store.Image()), p, n, i, o)
  {
    hide InTime, Provisioning.RemoveConfirmed;
    if !InTime(o.opening) { return Threw(Timeout); }
    if p !in store.products { return Threw(NotFound); }
    if !store.products[p].active { return Threw(BadRequest); }
    if exists r ::
         r in store.rows && Open(store.rows[r].state) && store.rows[r].product == p && store.rows[r].name == n {
      assert InResolution(store.Image(), p, n);
      return Threw(Conflict);
    }
    if i !in store.instances || store.instances[i].product != p || store.instances[i].name != n {
      return Answered(None);
    }
    var host := store.instances[i].host;
    if host !in store.hosts { return Threw(NotFound); }
    if !o.answer.Gave? { return Threw(Failure(o.answer)); }
    if exists k :: 0 <= k < |o.answer.sessions| && o.answer.sessions[k].session.name == n { return Threw(Conflict); }
    if !InTime(o.closing) { return Threw(Timeout); }
    var removed := store.RemoveConfirmed(i, p, host, None);
    if removed.Threw? { return Threw(removed.why); }
    return Answered(Some(host));
  }

  method PrepareRequest(store: Store, cfg: Config, order: Order, i: Id, o: Opening, visits: seq<Visit>)
    returns (payload: Payload, reply: Reply<Ticket>)
    requires |order.candidates| == |visits| && AllReady(visits) && (order.seen.mode == Legacy ==> |visits| == 1)
    modifies store
    ensures Turn(store.Image(), payload, reply) == Requested(old(store.Image()), cfg, order, i, o, visits)
  {
    hide Cleared, Placed;
    var checked := ClearName(store, order.product, order.name, i, o);
    if checked.Threw? { return order.payload, Threw(checked.why); }
    if order.seen.mode == Legacy && order.seen.defaultHost.None? { return order.payload, Threw(BadRequest); }
    if order.seen.mode == Capacity && !cfg.allocationEnabled { return order.payload, Threw(Unavailable); }
    payload, reply := Prepare(store, cfg, order.(checked := checked.value), visits);
  }
}
