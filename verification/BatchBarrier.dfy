/**
 The counter barrier of a batch: every job records its outcome in one of two shared counters,
 then counts itself in a third, and the one whose count comes to the total writes the batch
 row. Any interleaving of the single increments, reads and writes is a run. The key with the
 total expires after a day, and a job whose worker stalled is run again, perhaps beside itself.
 */
module BatchBarrier {
  import opened Basics

  /** A job's next action; `n` is what its own count came to. */
  datatype Pc =
    | Sending | Recorded | Counted(n: nat) | Last(n: nat)
    | ReadSent(n: nat, sent: nat) | ReadBoth(n: nat, sent: nat, failed: nat) | Over(n: nat)

  datatype Job = Job(pc: Pc, ok: bool)

  datatype BatchRow = BatchRow(sentCount: nat, failedCount: nat)

  /**
   The counters, the executions of jobs, the batch row; `kept` while the total has not expired.
   The last two fields are history: how often the row was written, and whether the execution
   that counted to the total looked for it in vain.
   */
  datatype Batch = Batch(
    total: nat, kept: bool, sent: nat, failed: nat, done: nat, jobs: seq<Job>, row: Option<BatchRow>, writes: nat,
    missed: bool)

  function Start(total: nat): Batch {
    Batch(total, true, 0, 0, 0, seq(total, _ => Job(Sending, false)), None, 0, false)
  }

  function With(b: Batch, k: nat, job: Job): Batch
    requires k < |b.jobs|
  {
    b.(jobs := b.jobs[k := job])
  }

  /** One action of execution `k`; `ok` is how its delivery turned out. */
  function Act(b: Batch, k: nat, ok: bool): Batch
    requires k < |b.jobs|
  {
    var job := b.jobs[k];
    match job.pc
    case Sending => if ok then With(b, k, Job(Recorded, true)).(sent := b.sent + 1)
                    else With(b, k, Job(Recorded, false)).(failed := b.failed + 1)
    case Recorded => With(b, k, job.(pc := Counted(b.done + 1))).(done := b.done + 1)
    case Counted(n) =>
      if b.kept && n == b.total then With(b, k, job.(pc := Last(n)))
      else With(b, k, job.(pc := Over(n))).(missed := b.missed || n == b.total)
    case Last(n) => With(b, k, job.(pc := ReadSent(n, b.sent)))
    case ReadSent(n, sent) => With(b, k, job.(pc := ReadBoth(n, sent, b.failed)))
    case ReadBoth(n, sent, failed) =>
      With(b, k, job.(pc := Over(n))).(row := Some(BatchRow(sent, failed)), writes := b.writes + 1)
    case Over(_) => b
  }

  datatype Move = Acts(k: nat, ok: bool) | Expires | RunsAgain(k: nat)

  ghost predicate May(b: Batch, m: Move) {
    m.Expires? || m.k < |b.jobs|
  }

  ghost function Do(b: Batch, m: Move): Batch
    requires May(b, m)
  {
    match m
    case Acts(k, ok) => Act(b, k, ok)
    case Expires => b.(kept := false)
    case RunsAgain(_) => b.(jobs := b.jobs + [Job(Sending, false)])
  }

  // ----- counting jobs -----

  predicate Outcome(job: Job, ok: bool) {
    !job.pc.Sending? && job.ok == ok
  }

  predicate HasCounted(job: Job) {
    !job.pc.Sending? && !job.pc.Recorded?
  }

  function CountOf(job: Job): nat {
    match job.pc
    case Sending => 0
    case Recorded => 0
    case Counted(n) => n
    case Last(n) => n
    case ReadSent(n, _) => n
    case ReadBoth(n, _, _) => n
    case Over(n) => n
  }

  function Outcomes(jobs: seq<Job>, ok: bool): nat {
    if jobs == [] then 0 else Outcomes(jobs[1..], ok) + (if Outcome(jobs[0], ok) then 1 else 0)
  }

  function CountedJobs(jobs: seq<Job>): nat {
    if jobs == [] then 0 else CountedJobs(jobs[1..]) + (if HasCounted(jobs[0]) then 1 else 0)
  }

  lemma {:induction false} OutcomesChange(jobs: seq<Job>, k: nat, job: Job, ok: bool)
    requires k < |jobs|
    ensures Outcomes(jobs[k := job], ok) + (if Outcome(jobs[k], ok) then 1 else 0) ==
              Outcomes(jobs, ok) + (if Outcome(job, ok) then 1 else 0)
  {
    if k == 0 {
      assert jobs[0 := job][1..] == jobs[1..];
    } else {
      assert jobs[k := job][1..] == jobs[1..][k - 1 := job];
      OutcomesChange(jobs[1..], k - 1, job, ok);
    }
  }

  lemma {:induction false} CountedChange(jobs: seq<Job>, k: nat, job: Job)
    requires k < |jobs|
    ensures CountedJobs(jobs[k := job]) + (if HasCounted(jobs[k]) then 1 else 0) ==
              CountedJobs(jobs) + (if HasCounted(job) then 1 else 0)
  {
    if k == 0 {
      assert jobs[0 := job][1..] == jobs[1..];
    } else {
      assert jobs[k := job][1..] == jobs[1..][k - 1 := job];
      CountedChange(jobs[1..], k - 1, job);
    }
  }

  lemma {:induction false} NewcomerCountsNothing(jobs: seq<Job>, job: Job)
    requires job.pc.Sending?
    ensures Outcomes(jobs + [job], true) == Outcomes(jobs, true)
            && Outcomes(jobs + [job], false) == Outcomes(jobs, false)
    ensures CountedJobs(jobs + [job]) == CountedJobs(jobs)
  {
    if jobs != [] {
      NewcomerCountsNothing(jobs[1..], job);
      assert (jobs + [job])[1..] == jobs[1..] + [job];
    }
  }

  /** A job counts itself only after recording its outcome, so fewer have counted than recorded. */
  lemma {:induction false} CountedHaveOutcomes(jobs: seq<Job>)
    ensures CountedJobs(jobs) <= Outcomes(jobs, true) + Outcomes(jobs, false) <= |jobs|
  {
    if jobs != [] { CountedHaveOutcomes(jobs[1..]); }
  }

  lemma {:induction false} NobodyYet(jobs: seq<Job>)
    requires forall k :: 0 <= k < |jobs| ==> jobs[k].pc == Sending
    ensures Outcomes(jobs, true) == Outcomes(jobs, false) == CountedJobs(jobs) == 0
  {
    if jobs != [] { NobodyYet(jobs[1..]); }
  }

  lemma {:induction false} AllCounted(jobs: seq<Job>)
    requires forall k :: 0 <= k < |jobs| ==> HasCounted(jobs[k])
    ensures CountedJobs(jobs) == |jobs|
  {
    if jobs != [] { AllCounted(jobs[1..]); }
  }

  lemma {:induction false} FullCount(jobs: seq<Job>)
    requires CountedJobs(jobs) == |jobs|
    ensures forall k :: 0 <= k < |jobs| ==> HasCounted(jobs[k])
  {
    if jobs != [] {
      CountedHaveOutcomes(jobs[1..]);
      FullCount(jobs[1..]);
      forall k | 0 <= k < |jobs| ensures HasCounted(jobs[k]) { if k > 0 { assert jobs[k] == jobs[1..][k - 1]; } }
    }
  }

  // ----- the invariant -----

  /** The counters follow the executions. */
  ghost predicate Tallied(b: Batch) {
    && |b.jobs| >= b.total
    && b.sent == Outcomes(b.jobs, true) && b.failed == Outcomes(b.jobs, false) && b.done == CountedJobs(b.jobs)
  }

  /** What the execution that counted to the total has seen, and done. */
  predicate JobOk(b: Batch, job: Job) {
    && (HasCounted(job) ==> 1 <= CountOf(job) <= b.done)
    && (job.pc.Last? || job.pc.ReadSent? || job.pc.ReadBoth? ==> CountOf(job) == b.total)
    && (HasCounted(job) && CountOf(job) == b.total ==> if job.pc.Over? then b.writes == 1 <==> !b.missed
                                                       else b.writes == 0 && !b.missed)
    && (job.pc.ReadSent? ==> job.pc.sent + b.failed >= b.total)
    && (job.pc.ReadBoth? ==> job.pc.sent + job.pc.failed >= b.total)
    && (|b.jobs| == b.total && (job.pc.ReadSent? || job.pc.ReadBoth?) ==> job.pc.sent == b.sent)
    && (|b.jobs| == b.total && job.pc.ReadBoth? ==> job.pc.failed == b.failed)
  }

  ghost predicate JobsOk(b: Batch) {
    forall k :: 0 <= k < |b.jobs| ==> JobOk(b, b.jobs[k])
  }

  ghost predicate Distinct(b: Batch) {
    forall j, k :: 0 <= j < k < |b.jobs| && HasCounted(b.jobs[j]) && HasCounted(b.jobs[k]) ==>
                     CountOf(b.jobs[j]) != CountOf(b.jobs[k])
  }

  ghost predicate SomeoneIs(b: Batch, n: nat) {
    exists k :: 0 <= k < |b.jobs| && HasCounted(b.jobs[k]) && CountOf(b.jobs[k]) == n
  }

  predicate RowOk(b: Batch) {
    && b.writes <= 1 && (b.writes == 0 <==> b.row.None?)
    && (b.done < b.total ==> b.writes == 0 && !b.missed)
    && (b.missed ==> !b.kept)
    && (b.row.Some? ==> b.row.value.sentCount + b.row.value.failedCount >= b.total)
    && (b.row.Some? && |b.jobs| == b.total ==> b.row.value == BatchRow(b.sent, b.failed))
  }

  ghost predicate BatchInv(b: Batch) {
    Tallied(b) && JobsOk(b) && Distinct(b) && RowOk(b) && forall n: nat :: 1 <= n <= b.done ==> SomeoneIs(b, n)
  }

  /** Once all have counted, all have recorded, and the two outcome counters stand still. */
  lemma AllRecorded(b: Batch)
    requires Tallied(b) && b.done == b.total == |b.jobs|
    ensures b.sent + b.failed == b.total
    ensures forall k :: 0 <= k < |b.jobs| ==> HasCounted(b.jobs[k])
  {
    CountedHaveOutcomes(b.jobs);
    FullCount(b.jobs);
  }

  lemma StartKeeps(total: nat)
    ensures BatchInv(Start(total))
  {
    NobodyYet(Start(total).jobs);
  }

  lemma ActTallies(b: Batch, k: nat, ok: bool)
    requires Tallied(b) && k < |b.jobs|
    ensures Tallied(Act(b, k, ok))
  {
    hide Outcomes, CountedJobs;
    var job := Act(b, k, ok).jobs[k];
    OutcomesChange(b.jobs, k, job, true);
    OutcomesChange(b.jobs, k, job, false);
    CountedChange(b.jobs, k, job);
    assert b.jobs[k := b.jobs[k]] == b.jobs;
  }

  /** Counting gives the next number, which nobody has. */
  lemma ActKeepsDistinct(b: Batch, k: nat, ok: bool)
    requires Distinct(b) && JobsOk(b) && k < |b.jobs|
    ensures Distinct(Act(b, k, ok))
  {
    var b2 := Act(b, k, ok);
    assert JobOk(b, b.jobs[k]);
    forall i, j | 0 <= i < j < |b2.jobs| && HasCounted(b2.jobs[i]) && HasCounted(b2.jobs[j])
      ensures CountOf(b2.jobs[i]) != CountOf(b2.jobs[j]) {
      assert JobOk(b, b.jobs[i]) && JobOk(b, b.jobs[j]);
    }
  }

  lemma ActKeepsSomeone(b: Batch, k: nat, ok: bool, n: nat)
    requires k < |b.jobs| && (SomeoneIs(b, n) || (b.jobs[k].pc.Recorded? && n == b.done + 1))
    ensures SomeoneIs(Act(b, k, ok), n)
  {
    var b2 := Act(b, k, ok);
    if SomeoneIs(b, n) {
      var j :| 0 <= j < |b.jobs| && HasCounted(b.jobs[j]) && CountOf(b.jobs[j]) == n;
      assert HasCounted(b2.jobs[j]) && CountOf(b2.jobs[j]) == n;
    } else {
      assert HasCounted(b2.jobs[k]) && CountOf(b2.jobs[k]) == n;
    }
  }

  /** What the counters allow the acting execution to conclude. */
  ghost predicate Actable(b: Batch, k: nat) {
    && k < |b.jobs| && JobOk(b, b.jobs[k]) && RowOk(b)
    && b.done <= b.sent + b.failed <= |b.jobs| && b.total <= |b.jobs|
    && (b.done == b.total == |b.jobs| ==> HasCounted(b.jobs[k]) && b.sent + b.failed == b.total)
  }

  lemma ActorOk(b: Batch, k: nat, ok: bool)
    requires Actable(b, k)
    ensures JobOk(Act(b, k, ok), Act(b, k, ok).jobs[k])
  {}

  lemma OtherOk(b: Batch, k: nat, ok: bool, j: nat)
    requires Actable(b, k) && j < |b.jobs| && j != k && JobOk(b, b.jobs[j])
    requires HasCounted(b.jobs[j]) && HasCounted(b.jobs[k]) ==> CountOf(b.jobs[j]) != CountOf(b.jobs[k])
    ensures JobOk(Act(b, k, ok), Act(b, k, ok).jobs[j])
  {}

  lemma RowKept(b: Batch, k: nat, ok: bool)
    requires Actable(b, k)
    ensures RowOk(Act(b, k, ok))
  {}

  /** The acting execution is alone in having counted to the total. */
  lemma ActKeepsJobs(b: Batch, k: nat, ok: bool)
    requires JobsOk(b) && Distinct(b) && Tallied(b) && RowOk(b) && k < |b.jobs|
    ensures JobsOk(Act(b, k, ok)) && RowOk(Act(b, k, ok))
  {
    hide Outcomes, CountedJobs, JobOk, RowOk, HasCounted, CountOf, Act;
    CountedHaveOutcomes(b.jobs);
    if b.done == b.total == |b.jobs| { AllRecorded(b); }
    assert Actable(b, k);
    RowKept(b, k, ok);
    ActLeaves(b, k, ok);
    forall j | 0 <= j < |b.jobs| ensures JobOk(Act(b, k, ok), Act(b, k, ok).jobs[j]) {
      if j == k { ActorOk(b, k, ok); } else { OtherOk(b, k, ok, j); }
    }
  }

  lemma ActKeeps(b: Batch, k: nat, ok: bool)
    requires BatchInv(b) && k < |b.jobs|
    ensures BatchInv(Act(b, k, ok))
  {
    hide Outcomes, CountedJobs, SomeoneIs, RowOk, JobOk;
    var b2 := Act(b, k, ok);
    ActTallies(b, k, ok);
    ActKeepsDistinct(b, k, ok);
    ActKeepsJobs(b, k, ok);
    forall n: nat | 1 <= n <= b2.done ensures SomeoneIs(b2, n) {
      if n <= b.done { assert SomeoneIs(b, n); }
      ActKeepsSomeone(b, k, ok, n);
    }
  }

  lemma RunsAgainKeeps(b: Batch, k: nat)
    requires BatchInv(b) && k < |b.jobs|
    ensures BatchInv(Do(b, RunsAgain(k)))
  {
    hide Outcomes, CountedJobs;
    var b2 := Do(b, RunsAgain(k));
    NewcomerCountsNothing(b.jobs, Job(Sending, false));
    forall j | 0 <= j < |b2.jobs| ensures JobOk(b2, b2.jobs[j]) { if j < |b.jobs| { assert JobOk(b, b.jobs[j]); } }
    forall n: nat | 1 <= n <= b2.done ensures SomeoneIs(b2, n) {
      assert SomeoneIs(b, n);
      var j :| 0 <= j < |b.jobs| && HasCounted(b.jobs[j]) && CountOf(b.jobs[j]) == n;
      assert b2.jobs[j] == b.jobs[j];
    }
  }

  lemma ExpiresKeeps(b: Batch)
    requires BatchInv(b)
    ensures BatchInv(Do(b, Expires))
  {
    hide Outcomes, CountedJobs;
    var b2 := Do(b, Expires);
    forall j | 0 <= j < |b2.jobs| ensures JobOk(b2, b2.jobs[j]) { assert JobOk(b, b.jobs[j]); }
    forall n: nat | 1 <= n <= b2.done ensures SomeoneIs(b2, n) { assert SomeoneIs(b, n); }
  }

  // ----- runs -----

  ghost predicate IsRun(total: nat, states: seq<Batch>, moves: seq<Move>) {
    && |states| == |moves| + 1 && states[0] == Start(total)
    && forall i :: 0 <= i < |moves| ==> Steps(states[i], moves[i], states[i + 1])
  }

  ghost predicate Steps(b: Batch, m: Move, b2: Batch) {
    May(b, m) && b2 == Do(b, m)
  }

  /** How many executions were started again. */
  function Reruns(moves: seq<Move>): nat {
    if moves == [] then 0 else Reruns(moves[..|moves| - 1]) + if moves[|moves| - 1].RunsAgain? then 1 else 0
  }

  predicate Expired(moves: seq<Move>) {
    exists i :: 0 <= i < |moves| && moves[i].Expires?
  }

  lemma {:induction false} RunKeeps(total: nat, states: seq<Batch>, moves: seq<Move>, i: nat)
    requires IsRun(total, states, moves) && i < |states|
    ensures BatchInv(states[i]) && states[i].total == total && |states[i].jobs| == total + Reruns(moves[..i])
    ensures states[i].kept <==> !Expired(moves[..i])
  {
    hide BatchInv, Act;
    if i == 0 {
      StartKeeps(total);
    } else {
      var b, m := states[i - 1], moves[i - 1];
      RunKeeps(total, states, moves, i - 1);
      assert Steps(b, m, states[i]);
      assert moves[..i] == moves[..i - 1] + [m];
      match m {
        case Acts(k, ok) => ActKeeps(b, k, ok); ActLeaves(b, k, ok);
        case Expires => ExpiresKeeps(b); assert moves[..i][i - 1].Expires?;
        case RunsAgain(k) => RunsAgainKeeps(b, k);
      }
      assert Expired(moves[..i]) <==> Expired(moves[..i - 1]) || m.Expires? by { ExpiredOrNow(moves[..i - 1], m); }
    }
  }

  lemma ExpiredOrNow(moves: seq<Move>, m: Move)
    ensures Expired(moves + [m]) <==> Expired(moves) || m.Expires?
  {
    if m.Expires? { assert (moves + [m])[|moves|].Expires?; }
    if Expired(moves) {
      var i :| 0 <= i < |moves| && moves[i].Expires?;
      assert (moves + [m])[i].Expires?;
    }
  }

  lemma ActLeaves(b: Batch, k: nat, ok: bool)
    requires k < |b.jobs|
    ensures Act(b, k, ok).total == b.total && Act(b, k, ok).kept == b.kept && |Act(b, k, ok).jobs| == |b.jobs|
  {}

  /**
   Whatever the interleaving, and however often jobs are run again, the row is written at most
   once, and never before as many outcomes were recorded as the batch has messages.
   */
  lemma AtMostOneWrite(total: nat, states: seq<Batch>, moves: seq<Move>, i: nat)
    requires IsRun(total, states, moves) && i < |states|
    ensures states[i].writes <= 1 && (states[i].row.Some? <==> states[i].writes == 1)
    ensures states[i].row.Some? ==> states[i].row.value.sentCount + states[i].row.value.failedCount >= total
  {
    RunKeeps(total, states, moves, i);
  }

  /**
   As long as every job has run once, the row is written after every job has recorded its
   outcome, with counts that add up to the batch; and when all jobs of a batch are over it has
   been, unless the total had expired when the last one looked.
   */
  lemma OneFinaliser(total: nat, states: seq<Batch>, moves: seq<Move>, i: nat)
    requires IsRun(total, states, moves) && i < |states| && Reruns(moves[..i]) == 0
    ensures states[i].row.Some? ==>
              && states[i].row.value.sentCount == Outcomes(states[i].jobs, true)
              && states[i].row.value.failedCount == Outcomes(states[i].jobs, false)
              && states[i].row.value.sentCount + states[i].row.value.failedCount == total
              && forall k :: 0 <= k < |states[i].jobs| ==> HasCounted(states[i].jobs[k])
    ensures total > 0 && AllOver(states[i]) ==> (states[i].writes == 1 <==> !states[i].missed)
    ensures states[i].missed ==> Expired(moves[..i])
  {
    hide Outcomes, CountedJobs;
    RunKeeps(total, states, moves, i);
    var b := states[i];
    CountedHaveOutcomes(b.jobs);
    if b.done == b.total { AllRecorded(b); }
    if total > 0 && AllOver(b) {
      AllCounted(b.jobs);
      assert SomeoneIs(b, b.total);
      var k :| 0 <= k < |b.jobs| && HasCounted(b.jobs[k]) && CountOf(b.jobs[k]) == b.total;
      assert JobOk(b, b.jobs[k]);
    }
  }

  ghost predicate AllOver(b: Batch) {
    forall k :: 0 <= k < |b.jobs| ==> b.jobs[k].pc.Over?
  }

  // ----- what breaks it -----

  /** One more move at the end of a run. */
  lemma Extended(total: nat, states: seq<Batch>, moves: seq<Move>, m: Move)
    requires IsRun(total, states, moves) && May(states[|moves|], m)
    ensures IsRun(total, states + [Do(states[|moves|], m)], moves + [m])
    ensures Reruns(moves + [m]) == Reruns(moves) + if m.RunsAgain? then 1 else 0
    ensures Expired(moves + [m]) <==> Expired(moves) || m.Expires?
  {
    ExpiredOrNow(moves, m);
    assert (moves + [m])[..|moves|] == moves;
    var longer, more := states + [Do(states[|moves|], m)], moves + [m];
    forall i | 0 <= i < |more| ensures Steps(longer[i], more[i], longer[i + 1]) {
      if i < |moves| { assert Steps(states[i], moves[i], states[i + 1]); }
    }
  }

  /** The first `n` executions have recorded a success, the first `c` of them have counted, and no more has happened. */
  ghost predicate Underway(b: Batch, n: nat, c: nat) {
    && c <= n <= |b.jobs| && b.sent == n && b.failed == 0 && b.done == c && b.row.None? && b.writes == 0
    && (forall k :: 0 <= k < c ==> b.jobs[k] == Job(Counted(k + 1), true))
    && (forall k :: c <= k < n ==> b.jobs[k] == Job(Recorded, true))
    && (forall k :: n <= k < |b.jobs| ==> b.jobs[k] == Job(Sending, false))
  }

  /** Everyone records, then the first `c` count. */
  lemma EveryoneRecords(total: nat, states: seq<Batch>, moves: seq<Move>, c: nat)
    returns (longer: seq<Batch>, more: seq<Move>)
    requires IsRun(total, states, moves) && Underway(states[|moves|], 0, 0) && c <= |states[|moves|].jobs|
    ensures IsRun(total, longer, more) && Reruns(more) == Reruns(moves) && (Expired(more) <==> Expired(moves))
    ensures var b, was := longer[|more|], states[|moves|];
            Underway(b, |was.jobs|, c) && |b.jobs| == |was.jobs| && b.total == was.total && b.kept == was.kept
            && b.missed == was.missed
  {
    hide IsRun;
    longer, more := states, moves;
    RunLength(total, longer, more);
    var was := states[|moves|];
    var n := 0;
    while n < |was.jobs|
      invariant n <= |was.jobs| && IsRun(total, longer, more) && |longer| == |more| + 1
      invariant Reruns(more) == Reruns(moves) && (Expired(more) <==> Expired(moves))
      invariant Underway(longer[|more|], n, 0) && longer[|more|].(jobs := was.jobs, sent := 0) == was
      invariant |longer[|more|].jobs| == |was.jobs|
    {
      Extended(total, longer, more, Acts(n, true));
      longer, more, n := longer + [Do(longer[|more|], Acts(n, true))], more + [Acts(n, true)], n + 1;
    }
    var d := 0;
    while d < c
      invariant d <= c && IsRun(total, longer, more) && |longer| == |more| + 1
      invariant Reruns(more) == Reruns(moves) && (Expired(more) <==> Expired(moves))
      invariant Underway(longer[|more|], |was.jobs|, d)
      invariant |longer[|more|].jobs| == |was.jobs| && longer[|more|].total == was.total
      invariant longer[|more|].kept == was.kept && longer[|more|].missed == was.missed
    {
      Extended(total, longer, more, Acts(d, true));
      longer, more, d := longer + [Do(longer[|more|], Acts(d, true))], more + [Acts(d, true)], d + 1;
    }
  }

  lemma RunLength(total: nat, states: seq<Batch>, moves: seq<Move>)
    requires IsRun(total, states, moves)
    ensures |states| == |moves| + 1
  {}

  /** One job run twice is enough: the row then counts one outcome more than the batch has messages. */
  lemma RerunMiscounts(total: nat) returns (states: seq<Batch>, moves: seq<Move>)
    requires total > 0
    ensures IsRun(total, states, moves) && Reruns(moves) == 1 && !Expired(moves)
    ensures states[|moves|].row == Some(BatchRow(total + 1, 0))
  {
    states, moves := [Start(total)], [];
    Extended(total, states, moves, RunsAgain(0));
    states, moves := states + [Do(states[|moves|], RunsAgain(0))], moves + [RunsAgain(0)];
    states, moves := EveryoneRecords(total, states, moves, total);
    var k: nat := total - 1;
    for i := 0 to 4
      invariant IsRun(total, states, moves) && Reruns(moves) == 1 && !Expired(moves)
      invariant var b := states[|moves|];
                && b.total == total && b.kept && b.sent == total + 1 && b.failed == 0 && |b.jobs| == total + 1
                && b.jobs[k].pc ==
                     (if i == 0 then Counted(total) else if i == 1 then Last(total) else if i == 2
                        then ReadSent(total, total + 1)
                                    else if i == 3 then ReadBoth(total, total + 1, 0) else Over(total))
                && (i == 4 ==> b.row == Some(BatchRow(total + 1, 0)))
    {
      Extended(total, states, moves, Acts(k, true));
      states, moves := states + [Do(states[|moves|], Acts(k, true))], moves + [Acts(k, true)];
    }
  }

  /** If the total expires first, all jobs end and the batch is never marked as completed. */
  lemma ExpiryLosesTheBatch(total: nat) returns (states: seq<Batch>, moves: seq<Move>)
    ensures IsRun(total, states, moves) && Reruns(moves) == 0 && Expired(moves)
    ensures AllOver(states[|moves|]) && states[|moves|].writes == 0
  {
    states, moves := [Start(total)], [];
    Extended(total, states, moves, Expires);
    states, moves := states + [Do(states[|moves|], Expires)], moves + [Expires];
    states, moves := EveryoneRecords(total, states, moves, total);
    for i := 0 to total
      invariant IsRun(total, states, moves) && Reruns(moves) == 0 && Expired(moves)
      invariant var b := states[|moves|]; |b.jobs| == total && !b.kept && b.writes == 0
      invariant forall k :: 0 <= k < i ==> states[|moves|].jobs[k].pc.Over?
      invariant forall k :: i <= k < total ==> states[|moves|].jobs[k].pc == Counted(k + 1)
    {
      Extended(total, states, moves, Acts(i, true));
      states, moves := states + [Do(states[|moves|], Acts(i, true))], moves + [Acts(i, true)];
    }
  }

  /** Every row written adds up to the batch, with at most `r` jobs run again. */
  ghost predicate CountsExact(total: nat, r: nat) {
    forall states: seq<Batch>, moves: seq<Move>, i: nat ::
      IsRun(total, states, moves) && Reruns(moves) <= r && 0 <= i < |states| && states[i].row.Some? ==>
        states[i].row.value.sentCount + states[i].row.value.failedCount == total
  }

  lemma {:induction false} RerunsGrow(moves: seq<Move>, i: nat)
    requires i <= |moves|
    ensures Reruns(moves[..i]) <= Reruns(moves)
    decreases |moves|
  {
    if i < |moves| {
      assert moves[..|moves| - 1][..i] == moves[..i];
      RerunsGrow(moves[..|moves| - 1], i);
    } else {
      assert moves[..i] == moves;
    }
  }

  /** The counts can be trusted exactly when no job may run again, or there is none. */
  lemma CountsExactIff(total: nat, r: nat)
    ensures CountsExact(total, r) <==> r == 0 || total == 0
  {
    if r == 0 || total == 0 {
      forall states: seq<Batch>, moves: seq<Move>, i: nat | IsRun(total, states, moves) && Reruns(moves) <= r
      && 0 <= i < |states| && states[i].row.Some?
        ensures states[i].row.value.sentCount + states[i].row.value.failedCount == total
      {
        RerunsGrow(moves, i);
        if total == 0 { NothingToRun(states, moves, i); } else { OneFinaliser(total, states, moves, i); }
      }
    } else {
      var states, moves := RerunMiscounts(total);
    }
  }

  lemma {:induction false} NothingToRun(states: seq<Batch>, moves: seq<Move>, i: nat)
    requires IsRun(0, states, moves) && i < |states|
    ensures states[i].jobs == [] && states[i].row.None? && states[i].writes == 0
  {
    if i > 0 {
      NothingToRun(states, moves, i - 1);
      assert Steps(states[i - 1], moves[i - 1], states[i]);
    }
  }

  /**
   Once all jobs have run once and are over the batch has been marked as completed; `expiring`
   if its total may expire.
   */
  ghost predicate AlwaysCompleted(total: nat, expiring: bool) {
    forall states: seq<Batch>, moves: seq<Move>, i: nat ::
      IsRun(total, states, moves) && Reruns(moves) == 0 && (Expired(moves) ==> expiring) && 0 <= i < |states|
      && AllOver(states[i]) ==>
        states[i].writes == 1
  }

  /** A batch is sure to be completed exactly when it has a message and its total cannot expire. */
  lemma AlwaysCompletedIff(total: nat, expiring: bool)
    ensures AlwaysCompleted(total, expiring) <==> total > 0 && !expiring
  {
    if total > 0 && !expiring {
      forall states: seq<Batch>, moves: seq<Move>, i: nat | IsRun(total, states, moves) && Reruns(moves) == 0
      && (Expired(moves) ==> expiring) && 0 <= i < |states| && AllOver(states[i])
        ensures states[i].writes == 1
      {
        RerunsGrow(moves, i);
        OneFinaliser(total, states, moves, i);
        assert !Expired(moves[..i]) by { if Expired(moves[..i]) { ExpiredEarlier(moves, i); } }
      }
    } else if total == 0 {
      var states, moves: seq<Move> := [Start(0)], [];
      assert IsRun(0, states, moves) && AllOver(states[0]) && states[0].writes == 0;
    } else {
      var states, moves := ExpiryLosesTheBatch(total);
    }
  }

  lemma ExpiredEarlier(moves: seq<Move>, i: nat)
    requires i <= |moves| && Expired(moves[..i])
    ensures Expired(moves)
  {
    var k :| 0 <= k < i && moves[..i][k].Expires?;
    assert moves[k].Expires?;
  }
}
