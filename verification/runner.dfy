/**
 `ExperimentRunner`: the status record the background worker and `end()`
 share. It reuses a generic "code runner" protocol, so most of its accessors
 are fixed answers for this one job kind. The lock that guards it is left out:
 every read and write here is a single pure step.
 */
module Runner {
  import opened Common

  datatype ExperimentRunner = ExperimentRunner(
    done: bool,
    exitCleanly: bool,
    startTime: Option<Time>,
    endTime: Option<Time>)

  /** `ExperimentRunner(done=False, exit_cleanly=True)`: no timestamps yet. */
  function NewRunner(done: bool := false, exitCleanly: bool := true): (r: ExperimentRunner)
    ensures IsDone(r) == (exitCleanly, done)
    ensures GetStartAndEndTime(r) == (None, None)
  {
    ExperimentRunner(done, exitCleanly, None, None)
  }

  /** `is_done`: the clean-exit flag first, then the done flag. */
  function IsDone(r: ExperimentRunner): (status: (bool, bool))
    ensures status.0 <==> r.exitCleanly
    ensures status.1 <==> r.done
  {
    (r.exitCleanly, r.done)
  }

  /** `get_return_val`: this job kind never produces a result. */
  function GetReturnVal(r: ExperimentRunner): (v: Option<Value>)
    ensures v.None?
  {
    None
  }

  /** `get_exception`: this job kind never reports an exception. */
  function GetException(r: ExperimentRunner): (v: Option<Value>)
    ensures v.None?
  {
    None
  }

  /** `should_run_as_thread`: the experiment starts its own worker thread. */
  function ShouldRunAsThread(r: ExperimentRunner): (b: bool)
    ensures !b
  {
    false
  }

  /** `get_start_and_end_time`: the stored timestamps, start first. */
  function GetStartAndEndTime(r: ExperimentRunner): (times: (Option<Time>, Option<Time>))
    ensures times.0 == r.startTime && times.1 == r.endTime
  {
    (r.startTime, r.endTime)
  }

  /** `_set_start_time`: overwrites the start time whatever it held; nothing else changes. */
  function SetStartTime(r: ExperimentRunner, t: Time): (r': ExperimentRunner)
    ensures GetStartAndEndTime(r').0 == Some(t)
    ensures GetStartAndEndTime(r').1 == GetStartAndEndTime(r).1
    ensures IsDone(r') == IsDone(r)
  {
    r.(startTime := Some(t))
  }

  /** `_set_end_time`: overwrites the end time whatever it held; nothing else changes. */
  function SetEndTime(r: ExperimentRunner, t: Time): (r': ExperimentRunner)
    ensures GetStartAndEndTime(r').1 == Some(t)
    ensures GetStartAndEndTime(r').0 == GetStartAndEndTime(r).0
    ensures IsDone(r') == IsDone(r)
  {
    r.(endTime := Some(t))
  }

  /**
   The part of `end()` that runs under the experiment's lock: the runner is
   marked as finished and clean, whatever it held; the timestamps stay.
   */
  function MarkFinished(r: ExperimentRunner): (r': ExperimentRunner)
    ensures IsDone(r') == (true, true)
    ensures GetStartAndEndTime(r') == GetStartAndEndTime(r)
  {
    r.(exitCleanly := true, done := true)
  }

  /**
   What the worker does to the runner around the run loop: it stamps the start,
   then the end. A runner the worker has finished reports both stamps, in
   order, and the worker never touches the done flags.
   */
  lemma WorkerStampsBoth(r: ExperimentRunner, t0: Time, t1: Time)
    ensures GetStartAndEndTime(SetEndTime(SetStartTime(r, t0), t1)) == (Some(t0), Some(t1))
    ensures IsDone(SetEndTime(SetStartTime(r, t0), t1)) == IsDone(r)
  {
  }

  /**
   The usual interleaving of the worker and `end()`: the worker stamps its
   start, `end()` marks the runner finished while the run loop drains, then the
   worker stamps its end. The result is the same as if the marking had come
   after both stamps: finished and clean, with both stamps in order.
   */
  lemma MarkBetweenStamps(r: ExperimentRunner, t0: Time, t1: Time)
    ensures SetEndTime(MarkFinished(SetStartTime(r, t0)), t1)
         == MarkFinished(SetEndTime(SetStartTime(r, t0), t1))
    ensures IsDone(SetEndTime(MarkFinished(SetStartTime(r, t0)), t1)) == (true, true)
    ensures GetStartAndEndTime(SetEndTime(MarkFinished(SetStartTime(r, t0)), t1)) == (Some(t0), Some(t1))
  {
  }
}
