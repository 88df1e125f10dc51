/** User code as the engine sees it: a deterministic sequence of steps and sleeps. */
module Processors {
  import opened Values
  import opened Phases
  import opened Retries
  import opened Records

  /** A step's compensation. The handler itself is part of the world; only its retry policy is data. */
  datatype OnRollback = OnRollback(retry: Option<RetryOptions>)

  datatype StepOptions = StepOptions(retry: Option<RetryOptions>, onRollback: Option<OnRollback>)

  /** What the processor has been handed so far, one entry for each call it made. */
  datatype Seen = Got(value: Value) | Caught(err: Option<Err>) | Slept

  /** Whether a call recovers from its step's failure, and if so whether it looks at the error. */
  datatype Recovery = Uncaught | Ignores | Reads

  /** The next thing the processor does. A thrown error is `marked` if it is a caught step's, thrown again. */
  datatype Move =
    | Return(value: Value)
    | Throw(err: Err, unrecoverable: bool, marked: bool)
    | Call(key: string, options: StepOptions, recovery: Recovery)
    | Pause(key: string, delay: int)

  /** What a recovering call hands the processor of an error. */
  function CaughtOf(recovery: Recovery, err: Err): Seen {
    Caught(if recovery.Reads? then Some(err) else None)
  }

  const OUT_OF_MOVES := Err("RangeError", "processor exceeded its number of calls")

  /**
   * A deterministic sequential processor: each move depends on what it has been handed so far,
   * and it makes at most `bound` calls. Compared with user code, `bound` only has to exist.
   */
  datatype Processor = Processor(plan: seq<Seen> -> Move, bound: nat) {
    function At(seen: seq<Seen>): (m: Move)
      ensures |seen| >= bound ==> m.Return? || m.Throw?
    {
      var m := plan(seen);
      if |seen| >= bound && (m.Call? || m.Pause?) then Throw(OUT_OF_MOVES, false, false) else m
    }

    function Left(seen: seq<Seen>): nat {
      if |seen| < bound then bound - |seen| else 0
    }
  }

  /** What `onFailure` is told. */
  datatype FailureInfo =
    FailureInfo(error: Err, failedStep: Option<string>, completed: set<string>, report: Report)

  /** The application: forward processor, terminal handler, and worker-level defaults. */
  datatype App = App(
    main: Processor,
    onFailure: Option<FailureInfo -> Processor>,
    defaultRetry: Option<RetryOptions>,
    defaultRollbackRetry: Option<RetryOptions>)

  /** The world's answer when a step body runs. */
  datatype Body =
    | Succeeds(value: Value)
    | Fails(err: Err, nonRetryable: bool)
    | RetryLater(delay: Option<nat>, reason: string)
    | NestedYield(wait: nat)
    | NestedCancel

  /**
   * Everything a delivery does not decide for itself: what each body does at each attempt, how long
   * each operation takes, the random draws, after how many operations the process dies, and whether
   * the terminal transition finds the lock taken over.
   */
  datatype World = World(
    body: (Key, nat) -> Body,
    lag: nat -> nat,
    random: nat -> Chance,
    crashAt: nat,
    fenced: bool)
}
