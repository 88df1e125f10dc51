/** The operator's actions on a stored run. */
module Actions {
  import opened Values
  import opened Records
  import opened Runs

  datatype ActionResult = Done | NotFound | InvalidState

  /**
   * A handle on one run. An action is a sequence of store writes; `writes` is how many of them get
   * through before the process dies, if it does.
   */
  class DurableRun {
    var stored: Option<Record>
    var now: nat

    constructor (stored: Option<Record>, now: nat)
      ensures this.stored == stored && this.now == now
    {
      this.stored, this.now := stored, now;
    }

    /** Reset the failed steps and put the run back on its way. */
    method Retry(writes: nat) returns (r: ActionResult)
      modifies this`stored
      ensures r.NotFound? <==> old(stored).None?
      ensures r.Done? <==> old(stored).Some? && old(stored).value.instance.status.Failed?
      ensures stored == if old(stored).None? then None else Some(Runs.Retry(old(stored).value, writes, now))
    {
      if stored.None? {
        return NotFound;
      }
      if !stored.value.instance.status.Failed? {
        return InvalidState;
      }
      if writes >= 1 {
        stored := Some(stored.value.RemoveSteps(FailedSteps(stored.value)));
      }
      if writes >= 2 {
        stored := Some(stored.value.ClearFailure());
      }
      if writes >= 3 {
        stored := Some(stored.value.Update(NO_CHANGE.(status := Some(Running)), now));
      }
      return Done;
    }

    /** Reset the failed compensations and compensate on, keeping the original trigger. */
    method RetryCompensation(writes: nat) returns (r: ActionResult)
      modifies this`stored
      ensures r.NotFound? <==> old(stored).None?
      ensures r.Done? <==> old(stored).Some? && old(stored).value.instance.status.CompensationFailed?
      ensures stored == if old(stored).None? then None else Some(RetryComp(old(stored).value, writes, now))
    {
      if stored.None? {
        return NotFound;
      }
      if !stored.value.instance.status.CompensationFailed? {
        return InvalidState;
      }
      if writes >= 1 {
        stored := Some(stored.value.RemoveSteps(FailedInternalSteps(stored.value)));
      }
      if writes >= 2 {
        stored := Some(stored.value.ClearOutcome());
      }
      if writes >= 3 {
        stored := Some(stored.value.Update(NO_CHANGE.(status := Some(Compensating)), now));
      }
      return Done;
    }

    /** End the run, unless it has completed or been cancelled already. */
    method Cancel() returns (r: ActionResult)
      modifies this`stored
      ensures r.NotFound? <==> old(stored).None?
      ensures r.InvalidState? <==> old(stored).Some?
                                   && (old(stored).value.instance.status.Completed?
                                       || old(stored).value.instance.status.Cancelled?)
      ensures stored == if old(stored).None? then None else Some(CancelRecord(old(stored).value, now))
    {
      if stored.None? {
        return NotFound;
      }
      var status := stored.value.instance.status;
      if status.Completed? || status.Cancelled? {
        return InvalidState;
      }
      stored := Some(stored.value.End(Ending.Cancel, now));
      return Done;
    }
  }
}
