/**
 A whole course of a change, from an empty table on: it expires while it is being applied, and
 is applied all the same.
 */
module ChangeCourse {
  import opened Basics
  import opened Occupancy
  import opened Tables
  import opened Admission
  import opened Provisioning
  import opened Protocol
  import opened Invariants
  import opened Transactions
  import opened Review
  import opened ChangeControl
  import opened ChangeSafety

  /** A product linked to a host it does not use. */
  function Unused(): Db {
    Db(map[0 := Product(true, Capacity, None, Evolution, false, 0, None)],
       map[0 := Host(true, true, true, Evolution, None, 0, Url(0, None), 0, None, false, true, None, Unknown, None, 0,
                     0, false, None)],
       map[(0, 0) := Link(true, 0, 0)], map[], map[], map[], map[], map[])
  }

  const DETACH: Draft := Draft(ToDetach, Some(0), map[], map[], map[], map[])

  const FINE: Setup := Setup(true, true, [], [])

  const NO_ROWS: Listings := map[0 := Listing([], [], [])]

  /** The draft as created, with the status, revision and lease it has come to. */
  function Draft0(status: Status, report: Option<Diagnostics>, revision: nat, lease: Option<(Token, Time)>): Change
    requires SnapshotOf(Unused(), 0, DETACH).Some?
  {
    Change(0, 0, 0, DETACH, SnapshotOf(Unused(), 0, DETACH).value, status, report, revision,
           if lease.Some? then Some(lease.value.0) else None, if lease.Some? then Some(lease.value.1) else None,
           PREPARATION_TIME, DRAFT_LIFETIME)
  }

  lemma Snapped()
    ensures SnapshotOf(Unused(), 0, DETACH).Some? && Valid(DETACH, 0, SnapshotOf(Unused(), 0, DETACH).value)
    ensures SnapshotOf(Unused(), 0, DETACH).value.links.Keys == {0}
  {
    assert OwnHosts(Unused(), 0) == {0} by { assert (0, 0) in Unused().links && (0, 0).1 == 0; }
  }

  /** The one world the course passes through after its first act, at each status. */
  function At(c: Change, applying: map<Id, Begun>, tokens: set<Token>): World {
    World(Unused(), map[0 := c], map[(0, 0) := 0], applying, tokens, multiset{})
  }

  lemma ReviewIsReady(cfg: Config, now: Time)
    requires SnapshotOf(Unused(), 0, DETACH).Some?
    ensures var snap := SnapshotOf(Unused(), 0, DETACH).value;
            && Reviewable(Unused(), 0, DETACH, snap, NO_ROWS)
            && ReviewedReady(Unused(), cfg, FINE, now, 0, DETACH, snap, NO_ROWS)
            && Review.Applied(Unused(), FINE, 0, DETACH).Done?
  {
    var snap := SnapshotOf(Unused(), 0, DETACH).value;
    Snapped();
    assert Reviewable(Unused(), 0, DETACH, snap, NO_ROWS);
    ReversalDelivers(Unused(), cfg, FINE, now, 0, DETACH, snap, NO_ROWS);
    assert !DetachBlocked(Unused(), 0, 0, false);
  }

  /** The last moment at which an apply may begin. */
  const LATE: Time := DRAFT_LIFETIME - 1

  const READY: Diagnostics := Diagnostics(true, {}, 0)

  const EMPTY: World := World(Unused(), map[], map[], map[], {}, multiset{})

  lemma CreatedAndClaimed(cfg: Config)
    requires SnapshotOf(Unused(), 0, DETACH).Some?
    ensures Turns(cfg, EMPTY, Moment(0, Create(0, 0, 0, DETACH, 0)),
                  At(Draft0(Status.Queued, None, 0, None), map[], {}))
    ensures Turns(cfg, At(Draft0(Status.Queued, None, 0, None), map[], {}), Moment(0, ClaimNext(0, 0)),
                  At(Draft0(Status.Running, None, 1, Some((0, PREPARER_LEASE))), map[], {0}))
  {
    hide SnapshotOf, Valid;
    Snapped();
  }

  lemma ReviewedAndBegun(cfg: Config)
    requires SnapshotOf(Unused(), 0, DETACH).Some?
    ensures Turns(cfg, At(Draft0(Status.Running, None, 1, Some((0, PREPARER_LEASE))), map[], {0}),
                  Moment(0, Publish(0, 0, READY)),
                  At(Draft0(Status.Ready, Some(READY), 2, None), map[], {0}))
    ensures Turns(cfg, At(Draft0(Status.Ready, Some(READY), 2, None), map[], {0}), Moment(LATE, BeginApply(0, 0, 2)),
                  At(Draft0(Status.Ready, Some(READY), 2, None), map[0 := Begun(0, LATE)], {0}))
  {
    hide SnapshotOf, Valid;
  }

  lemma ExpiredMeanwhile(cfg: Config)
    requires SnapshotOf(Unused(), 0, DETACH).Some?
    ensures var c := Draft0(Status.Ready, Some(READY), 2, None);
            Turns(cfg, At(c, map[0 := Begun(0, LATE)], {0}), Moment(DRAFT_LIFETIME, Expire(0, c)),
                  At(Draft0(Status.Expired, Some(READY), 3, None), map[0 := Begun(0, LATE)], {0}))
  {
    hide SnapshotOf, Valid;
  }

  lemma AppliedAllTheSame(cfg: Config)
    requires SnapshotOf(Unused(), 0, DETACH).Some?
    ensures var w, end := At(Draft0(Status.Expired, Some(READY), 3, None), map[0 := Begun(0, LATE)], {0}),
                          EndApply(0, FINE, NO_ROWS);
            && ChangeControl.May(w, end)
            && var w2 := ChangeControl.Do(w, cfg, DRAFT_LIFETIME, end);
               0 in w2.changes && w2.changes[0].status == Status.Applied && w2.applies[0] == 1
  {
    hide SnapshotOf, Valid, Reviewable, ReviewedReady, Review.Applied;
    ReviewIsReady(cfg, DRAFT_LIFETIME);
  }

  /** Created, claimed, reviewed as ready, its apply begun in time; then it expires, and the apply ends in time. */
  lemma ExpiryDoesNotStopApply(cfg: Config) returns (worlds: seq<World>, moments: seq<Moment>)
    ensures IsCourse(cfg, worlds, moments) && |worlds| == 7
    ensures worlds[0] == EMPTY && WorldInv(worlds[0]) && Inv(worlds[0].db)
    ensures ClockAdvances(moments)
    ensures moments[3].act.BeginApply? && moments[5].act.EndApply?
            && moments[5].now <= moments[3].now + 15000
    ensures 0 in worlds[5].changes && worlds[5].changes[0].status == Status.Expired
    ensures 0 in worlds[6].changes && worlds[6].changes[0].status == Status.Applied && worlds[6].applies[0] == 1
  {
    hide WorldInv, SnapshotOf, ChangeControl.Do, ChangeControl.May, Inv;
    Snapped();
    UnusedIsValid();
    NoChangesYet(Unused());
    CreatedAndClaimed(cfg);
    ReviewedAndBegun(cfg);
    ExpiredMeanwhile(cfg);
    AppliedAllTheSame(cfg);
    var ready := Draft0(Status.Ready, Some(READY), 2, None);
    var expired := At(Draft0(Status.Expired, Some(READY), 3, None), map[0 := Begun(0, LATE)], {0});
    var end := EndApply(0, FINE, NO_ROWS);
    worlds := [
      EMPTY, At(Draft0(Status.Queued, None, 0, None), map[], {}),
      At(Draft0(Status.Running, None, 1, Some((0, PREPARER_LEASE))), map[], {0}),
      At(ready, map[], {0}), At(ready, map[0 := Begun(0, LATE)], {0}), expired,
      ChangeControl.Do(expired, cfg, DRAFT_LIFETIME, end)];
    moments := [
      Moment(0, Create(0, 0, 0, DETACH, 0)), Moment(0, ClaimNext(0, 0)), Moment(0, Publish(0, 0, READY)),
      Moment(LATE, BeginApply(0, 0, 2)), Moment(DRAFT_LIFETIME, Expire(0, ready)), Moment(DRAFT_LIFETIME, end)];
  }

  lemma UnusedIsValid()
    ensures Inv(Unused())
  {
    assert LinksIntact(Unused());
  }
}
