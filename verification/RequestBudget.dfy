/** The time budget of one request as it runs: the first reason to stop stays, and so does the first outcome. */
module RequestBudget {
  import opened Basics
  import opened Provisioning
  import opened Executors

  datatype StopReason = RequestTimeout | ProviderTimeout | ClientDisconnected

  datatype Source = Stopped(reason: StopReason) | Other(text: nat)

  datatype Outcome = Outcome(statusCode: nat, source: Source)

  class QrRequestContext {
    const deadline: Time
    var reason: Option<StopReason>
    var outcome: Option<Outcome>

    constructor (now: Time, timeout: nat)
      ensures Budget() == Provisioning.Budget(now + timeout, false) && outcome.None?
    {
      deadline := now + timeout;
      reason, outcome := None, None;
    }

    /** The context as the transactions see it. */
    function Budget(): Budget
      reads this
    {
      Provisioning.Budget(deadline, reason.Some?)
    }

    method Abort(why: StopReason)
      modifies this`reason
      ensures reason == if old(reason).Some? then old(reason) else Some(why)
    {
      if reason.Some? { return; }
      reason := Some(why);
    }

    /** Throws once stopped or out of time; running out of time is itself a reason. */
    method AssertActive(now: Time) returns (active: bool)
      modifies this`reason
      ensures active <==> Active(old(Budget()), now)
      ensures active ==> reason == old(reason)
      ensures !active ==> reason == if old(reason).Some? then old(reason) else Some(RequestTimeout)
    {
      if reason.None? && Remaining(Budget(), now) == 0 { Abort(RequestTimeout); }
      return reason.None?;
    }

    /**
     A call is given the time that is left, less the margin to finish in; a call that cannot
     fit stops the request.
     */
    method CallTimeout(now: Time, limit: nat) returns (timeout: Option<nat>)
      modifies this`reason
      ensures timeout == Executors.CallTimeout(old(Budget()), now, limit)
      ensures timeout.Some? ==> reason == old(reason) && now + timeout.value + FINISH_MARGIN <= deadline
      ensures timeout.None? ==> reason.Some? && (old(reason).Some? ==> reason == old(reason))
    {
      var active := AssertActive(now);
      if !active { return None; }
      var remaining: int := Remaining(Budget(), now) - FINISH_MARGIN;
      if remaining <= 0 {
        Abort(RequestTimeout);
        return None;
      }
      return Some(if limit < remaining then limit else remaining);
    }

    method Finish(statusCode: nat, source: nat)
      modifies this`outcome
      ensures outcome == if old(outcome).Some? then old(outcome)
                         else Some(Outcome(statusCode, if reason.Some? then Stopped(reason.value) else Other(source)))
    {
      if outcome.None? {
        outcome := Some(Outcome(statusCode, if reason.Some? then Stopped(reason.value) else Other(source)));
      }
    }
  }
}
