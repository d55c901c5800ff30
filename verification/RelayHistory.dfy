/**
 Relay events beside the executors: the processes of `Executors` and the relay act on the same
 tables, and what the relay needs of every removal is what the executors are proved to do.
 */
module RelayHistory {
  import opened Basics
  import opened Occupancy
  import opened Tables
  import opened Admission
  import opened Provisioning
  import opened Protocol
  import opened Invariants
  import E = Executors
  import X = Exclusion
  import F = Fencing
  import R = RelayEvents

  /** The step of the tables an executor's action takes, if any. */
  function StepOf(s: E.Sys, a: E.Action): Option<Step> {
    match a
    case Elsewhere(step) => Some(step)
    case Prepares(b, q, seen, l) => Some(DoReserve(b, q, seen, l))
    case TakesOver(b, r, owner) => Some(DoClaim(b, r, owner))
    case Transacts(tok, l, newId) => if tok in s.procs then E.Transaction(s.procs[tok], l, newId) else None
    case _ => None
  }

  lemma ActionIsStep(s: E.Sys, cfg: Config, a: E.Action)
    requires E.May(s, cfg, a)
    ensures StepOf(s, a).Some? ==>
              Can(s.db, StepOf(s, a).value) && E.Do(s, cfg, a).db == After(s.db, cfg, s.now, StepOf(s, a).value)
    ensures StepOf(s, a).None? ==> E.Do(s, cfg, a).db == s.db
  {
    hide Reserve, Claim, Lists, E.Continues, After;
    match a
    case Prepares(b, q, seen, l) => F.PrepareIsStep(s, cfg, b, q, seen, l);
    case TakesOver(b, r, owner) => X.TakeoverDb(s, b, r, owner); ClaimStep(s, cfg, b, r, owner);
    case _ =>
  }

  lemma ClaimStep(s: E.Sys, cfg: Config, b: Budget, r: Id, owner: Token)
    ensures After(s.db, cfg, s.now, DoClaim(b, r, owner)) == Commit(s.db, Claim(s.db, s.now, b, r, owner))
  {
    hide Claim;
  }

  /** Whatever an executor removes while it owns its row is the row's own instance. */
  lemma ActionRemovesOwn(s: E.Sys, cfg: Config, a: E.Action)
    requires X.SysInv(s) && E.May(s, cfg, a) && StepOf(s, a).Some?
    ensures X.RemovesOwn(s.db, StepOf(s, a).value)
  {
    hide X.SysInv, Lists;
    if a.Transacts? && StepOf(s, a).value.DoRemove? {
      X.TransactionIsHolders(s.procs[a.tok], a.l, a.newId);
      if Owns(s.db, s.procs[a.tok].ticket) { F.RemovalIsOwn(s, a.tok); }
    }
  }

  // ----- both at once -----

  datatype Joint = ByExecutor(a: E.Action) | ByRelay(act: R.Act)

  ghost predicate May(s: E.Sys, hub: R.Hub, cfg: Config, j: Joint) {
    match j
    case ByExecutor(a) => E.May(s, cfg, a) && (StepOf(s, a).Some? ==> R.FreshKeys(hub, StepOf(s, a).value))
    case ByRelay(act) => !act.Outside? && R.May(hub, act)
  }

  ghost function Do(s: E.Sys, hub: R.Hub, cfg: Config, j: Joint): (E.Sys, R.Hub)
    requires X.SysInv(s) && hub.db == s.db && May(s, hub, cfg, j)
  {
    match j
    case ByExecutor(a) =>
      var step := StepOf(s, a);
      (E.Do(s, cfg, a),
       if step.None? then hub
       else (ExecutorMayAct(s, hub, cfg, a); R.Do(hub, cfg, s.now, R.Outside(step.value))))
    case ByRelay(act) => (s, R.Do(hub, cfg, s.now, act))
  }

  lemma ExecutorMayAct(s: E.Sys, hub: R.Hub, cfg: Config, a: E.Action)
    requires X.SysInv(s) && hub.db == s.db && May(s, hub, cfg, ByExecutor(a)) && StepOf(s, a).Some?
    ensures R.May(hub, R.Outside(StepOf(s, a).value))
  {
    hide X.SysInv, E.May, StepOf, Can, R.FreshKeys;
    ActionIsStep(s, cfg, a);
    ActionRemovesOwn(s, cfg, a);
  }

  /** The two stay at one with the tables, and each keeps its invariant: nothing is assumed of removals. */
  lemma JointKeeps(s: E.Sys, hub: R.Hub, cfg: Config, j: Joint)
    requires X.SysInv(s) && R.HubInv(hub) && hub.db == s.db && May(s, hub, cfg, j)
    ensures var (s2, hub2) := Do(s, hub, cfg, j);
                              X.SysInv(s2) && R.HubInv(hub2) && hub2.db == s2.db && R.Remembers(hub, hub2)
  {
    hide X.SysInv, R.HubInv, E.May, E.Do, R.FreshKeys, After, Can;
    match j
    case ByExecutor(a) =>
      X.ActionKeeps(s, cfg, a);
      ActionIsStep(s, cfg, a);
      if StepOf(s, a).Some? {
        ExecutorMayAct(s, hub, cfg, a);
        R.ActKeeps(hub, cfg, s.now, R.Outside(StepOf(s, a).value));
      }
    case ByRelay(act) => R.ActKeeps(hub, cfg, s.now, act);
  }

  ghost predicate IsJointHistory(cfg: Config, states: seq<E.Sys>, hubs: seq<R.Hub>, joints: seq<Joint>) {
    && |states| == |hubs| == |joints| + 1
    && X.SysInv(states[0]) && R.HubInv(hubs[0]) && hubs[0].db == states[0].db
    && forall k :: 0 <= k < |joints| ==> Leads(cfg, states[k], hubs[k], joints[k], states[k + 1], hubs[k + 1])
  }

  ghost predicate Leads(cfg: Config, s: E.Sys, hub: R.Hub, j: Joint, s2: E.Sys, hub2: R.Hub) {
    X.SysInv(s) && hub.db == s.db ==> May(s, hub, cfg, j) && (s2, hub2) == Do(s, hub, cfg, j)
  }

  lemma {:induction false} JointHistoryKeeps(cfg: Config, states: seq<E.Sys>, hubs: seq<R.Hub>, joints: seq<Joint>,
        k: nat)
    requires IsJointHistory(cfg, states, hubs, joints) && k < |states|
    ensures X.SysInv(states[k]) && R.HubInv(hubs[k]) && hubs[k].db == states[k].db
  {
    hide X.SysInv, R.HubInv, May, Do;
    if k > 0 {
      JointHistoryKeeps(cfg, states, hubs, joints, k - 1);
      assert Leads(cfg, states[k - 1], hubs[k - 1], joints[k - 1], states[k], hubs[k]);
      JointKeeps(states[k - 1], hubs[k - 1], cfg, joints[k - 1]);
    }
  }

  /** From tables without rows and instances on, every job of a joint history is stale only for the two reasons. */
  lemma JobsOfHistory(cfg: Config, states: seq<E.Sys>, hubs: seq<R.Hub>, joints: seq<Joint>, k: nat, n: nat)
    requires |states| == |hubs| == |joints| + 1 && k < |hubs| && n < |hubs[k].queue|
    requires Inv(hubs[0].db) && hubs[0] == R.Hub(hubs[0].db, map[], [], map[], map[]) && hubs[0].db.rows == map[]
             && hubs[0].db.instances == map[]
    requires states[0] == E.Sys(hubs[0].db, states[0].now, map[], states[0].remote, multiset{}, {}, {}, {})
    requires forall i :: 0 <= i < |joints| ==> Leads(cfg, states[i], hubs[i], joints[i], states[i + 1], hubs[i + 1])
    ensures var b := hubs[k].queue[n].bound;
            R.ValidJob(states[k].db, b) <==>
              b.instance in states[k].db.instances && b.host in states[k].db.hosts
              && states[k].db.hosts[b.host].adapter == b.adapter
  {
    hide X.SysInv, R.HubInv, Inv, Leads;
    F.EmptyStart(hubs[0].db, states[0].now, states[0].remote);
    R.NothingRelayedYet(hubs[0].db);
    JointHistoryKeeps(cfg, states, hubs, joints, k);
    R.JobStaleIff(hubs[k], n);
  }

  // ----- a course to a stale job -----

  /** An Evolution host, the default of one product in legacy mode, with nothing on it yet. */
  function Fresh(): Db {
    Db(map[0 := Product(true, Legacy, Some(0), Evolution, false, 0, None)],
       map[0 := Plain(Evolution, 0)], map[(0, 0) := Link(true, 0, 0)], map[], map[], map[], map[], map[])
  }

  /** A host without a limit or a verified identity: its adapter may be edited while it has instances. */
  function Plain(adapter: Adapter, occupancyRevision: nat): Host {
    Host(true, true, true, adapter, None, 0, Url(0, None), 0, None, false, true, None, Unknown, None, 0,
         occupancyRevision, false, None)
  }

  /**
   What keeps a host's destination from being edited while it is in use: a limit, a pause, a
   distributed product; and open rows.
   */
  predicate Guarded(db: Db, h: Id)
    requires h in db.hosts
  {
    || db.hosts[h].maxInstances.Some? || !db.hosts[h].accepting
    || (exists key :: key in db.links && key.1 == h && key.0 in db.products && db.products[key.0].mode == Mode.Capacity)
    || (exists r :: r in db.rows && OpenOn(db, r, h))
  }

  /** The tables with the imported session, under either adapter. */
  function With(n: Name, id: RemoteId, adapter: Adapter): Db {
    Fresh().(instances := map[0 := Instance(0, 0, n, Some(id), 0)], hosts := map[0 := Plain(adapter, 1)])
  }

  lemma ImportedInto(cfg: Config, n: Name, id: RemoteId)
    ensures var step := DoImport(0, 0, n, id, Source(Url(0, None), 0, 0), 0);
            Can(Fresh(), step) && After(Fresh(), cfg, 0, step) == With(n, id, Evolution)
  {}

  lemma ArrivesAt(n: Name, id: RemoteId)
    ensures R.Arrival(With(n, id, Evolution), {0}, R.Identity(Some(n), Some(id)), Evolution) ==
            R.RelayEvent(Some(0), Evolution, Some(n), Some(id), None, Some(R.Binding(0, 0, 0, n, Some(id), Evolution)),
                         R.Pending)
  {
    var db, who := With(n, id, Evolution), R.Identity(Some(n), Some(id));
    assert R.MatchingInstances(db, {0}, who) == {0};
    assert R.MatchingRows(db, {0}, who) == {};
    assert R.ProvenInstance(db, {0}, who, 0);
    R.ArrivalCases(db, {0}, who);
  }

  /**
   An event arrives and is queued; then its host is given another adapter, and the job is stale
   though its instance is there.
   */
  lemma AdapterEditStalesJob(cfg: Config, n: Name, id: RemoteId) returns (hubs: seq<R.Hub>, moments: seq<R.Moment>)
    ensures R.IsCourse(cfg, hubs, moments) && |hubs| == 5 && R.HubInv(hubs[0])
    ensures moments[3].act.Outside? && moments[3].act.step.DoEditHost? && 0 in hubs[3].db.hosts
            && !Guarded(hubs[3].db, 0)
    ensures forall k :: 3 <= k < 5 ==> |hubs[k].queue| == 1 && hubs[k].queue[0].bound.instance in hubs[k].db.instances
    ensures R.ValidJob(hubs[3].db, hubs[3].queue[0].bound) && !R.ValidJob(hubs[4].db, hubs[4].queue[0].bound)
  {
    hide R.Arrival, R.HubInv, After, Can, R.Past, Inv;
    var who, import_ := R.Identity(Some(n), Some(id)), DoImport(0, 0, n, id, Source(Url(0, None), 0, 0), 0);
    var event :=
      R.RelayEvent(Some(0), Evolution, Some(n), Some(id), None, Some(R.Binding(0, 0, 0, n, Some(id), Evolution)),
                   R.Pending);
    var edit := DoEditHost(0, Plain(OtherAdapter(0), 1));
    var there, ever := With(n, id, Evolution), map[0 := R.Owner(0, 0, n, Some(id))];
    var h0 := R.Hub(Fresh(), map[], [], map[], map[]);
    var h1 := R.Hub(there, map[], [], ever, map[]);
    var h2 := h1.(events := map[0 := event]);
    var h3 := h2.(queue := [R.Job(0, event.bound.value)]);
    var h4 := h3.(db := With(n, id, OtherAdapter(0)));
    FreshIsValid();
    R.NothingRelayedYet(Fresh());
    FirstMoves(cfg, n, id, h0, h1, h2);
    EditTurns(cfg, n, id, h3, h4, edit);
    assert R.Turns(cfg, h2, R.Moment(0, R.Enqueue(0, event)), h3);
    hubs := [h0, h1, h2, h3, h4];
    moments :=
      [R.Moment(0, R.Outside(import_)), R.Moment(0, R.Accept(0, there, {0}, who, Evolution)),
       R.Moment(0, R.Enqueue(0, event)), R.Moment(0, R.Outside(edit))];
  }

  lemma FreshIsValid()
    ensures Inv(Fresh())
  {
    assert LinksIntact(Fresh());
  }

  lemma FirstMoves(cfg: Config, n: Name, id: RemoteId, h0: R.Hub, h1: R.Hub, h2: R.Hub)
    requires h0 == R.Hub(Fresh(), map[], [], map[], map[])
    requires h1 == R.Hub(With(n, id, Evolution), map[], [], map[0 := R.Owner(0, 0, n, Some(id))], map[])
    requires h2 ==
               h1.(events := map[0 := R.RelayEvent(Some(0), Evolution, Some(n), Some(id), None,
                                                   Some(R.Binding(0, 0, 0, n, Some(id), Evolution)), R.Pending)])
    ensures R.Turns(cfg, h0, R.Moment(0, R.Outside(DoImport(0, 0, n, id, Source(Url(0, None), 0, 0), 0))), h1)
    ensures R.Turns(cfg, h1,
                    R.Moment(0, R.Accept(0, With(n, id, Evolution), {0}, R.Identity(Some(n), Some(id)), Evolution)), h2)
  {
    hide R.Arrival, After, Can;
    ImportedInto(cfg, n, id);
    ArrivesAt(n, id);
    assert R.Remembered(h0, With(n, id, Evolution)) == h1;
  }

  lemma EditTurns(cfg: Config, n: Name, id: RemoteId, h3: R.Hub, h4: R.Hub, edit: Step)
    requires h3.db == With(n, id, Evolution) && h3.ever == map[0 := R.Owner(0, 0, n, Some(id))] && h3.recorded == map[]
    requires edit == DoEditHost(0, Plain(OtherAdapter(0), 1)) && h4 == h3.(db := With(n, id, OtherAdapter(0)))
    ensures R.Turns(cfg, h3, R.Moment(0, R.Outside(edit)), h4)
  {
    assert After(h3.db, cfg, 0, edit) == h4.db;
    assert R.Remembered(h3, h4.db) == h4;
  }
}
