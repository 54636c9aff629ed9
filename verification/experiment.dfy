/**
 `Experiment`: the public facade. Construction saves the process's standard
 streams, optionally swaps in two capture buffers and starts the background
 worker; `metric`, `param` and `iter` forward to the delivery client until the
 experiment has ended; `end()` runs once, restores the streams, marks the
 runner finished and waits for the worker's completion token.

 Every operation is a pure step from one experiment state to the next, with
 the events it caused. The process-wide `(sys.stdout, sys.stderr)` pair is
 carried in the state as `io`: only one capturing experiment is modelled.
 */
module Experiments {
  import opened Common
  import opened Trace
  import opened Runner
  import opened Callbacks

  datatype Experiment = Experiment(
    modelName: string,
    runId: RunId,
    ended: bool,
    saved: StdStreams,            // `_old_out, _old_err`, read at construction
    io: StdStreams,               // the process's current `sys.stdout, sys.stderr`
    runner: ExperimentRunner,
    callbacks: Registry)

  /** The new experiment state, the events of the step, and what the caller gets back. */
  datatype Step<T> = Step(exp: Experiment, trace: seq<Event>, result: T)

  /**
   `Experiment(model_name, capture_io=True)` in a process whose streams are
   currently `io`. `runId` is the identifier `uuid4()` would draw.
   */
  function Create(modelName: string, runId: RunId, io: StdStreams, captureIO: bool := true)
    : (s: Step<()>)
    ensures s.exp.modelName == modelName && s.exp.runId == runId
    ensures !s.exp.ended
    ensures s.exp.saved == io
    ensures captureIO ==> s.exp.io == Buffers
    ensures !captureIO ==> s.exp.io == io
    ensures IsDone(s.exp.runner) == (true, false)
    ensures GetStartAndEndTime(s.exp.runner) == (None, None)
    ensures forall p :: Status(s.exp.callbacks, p) == NotAttempted
    ensures s.trace == [SpawnWorker]
  {
    var current := if captureIO then Buffers else io;
    Step(Experiment(modelName, runId, false, io, current, NewRunner(), EmptyRegistry), [SpawnWorker], ())
  }

  /**
   The shared shape of `metric`, `param` and `iter`: one call forwarded with
   its reply passed back, or, once ended, one warning and `None`.
   */
  function Forward(e: Experiment, client: Client, call: Call, warning: string): (s: Step<Reply>)
    ensures s.exp == e
    ensures |s.trace| == 1 && Reporting(s.trace)
    ensures !e.ended ==> Delivered(s.trace) == [call] && Warnings(s.trace) == [] && s.result == client(call)
    ensures e.ended ==> Delivered(s.trace) == [] && Warnings(s.trace) == [warning] && s.result == None
  {
    if e.ended then Step(e, [Warn(warning)], None)
    else Step(e, [Deliver(call)], client(call))
  }

  function MetricWarning(name: string): string {
    "Cannot send metric " + name + ", experiment ended. Please start a new experiment."
  }

  function ParamWarning(name: string): string {
    "Cannot send param " + name + ", experiment ended. Please start a new experiment."
  }

  const IterWarning := "Cannot iterate, experiment ended. Please start a new experiment."

  /** `metric(name, value, log=True)`. */
  function Metric(e: Experiment, client: Client, name: string, value: Value, log: bool := true)
    : (s: Step<Reply>)
    ensures s.exp == e && |s.trace| == 1 && Reporting(s.trace)
    ensures !e.ended ==> Delivered(s.trace) == [MetricCall(name, value, log)] && Warnings(s.trace) == []
    ensures !e.ended ==> s.result == client(MetricCall(name, value, log))
    ensures e.ended ==> Delivered(s.trace) == [] && Warnings(s.trace) == [MetricWarning(name)] && s.result == None
  {
    Forward(e, client, MetricCall(name, value, log), MetricWarning(name))
  }

  /** `param(name, value, log=True)`. */
  function Param(e: Experiment, client: Client, name: string, value: Value, log: bool := true)
    : (s: Step<Reply>)
    ensures s.exp == e && |s.trace| == 1 && Reporting(s.trace)
    ensures !e.ended ==> Delivered(s.trace) == [ParamCall(name, value, log)] && Warnings(s.trace) == []
    ensures !e.ended ==> s.result == client(ParamCall(name, value, log))
    ensures e.ended ==> Delivered(s.trace) == [] && Warnings(s.trace) == [ParamWarning(name)] && s.result == None
  {
    Forward(e, client, ParamCall(name, value, log), ParamWarning(name))
  }

  /** `iter(n, log=True)`. */
  function Iter(e: Experiment, client: Client, n: int, log: bool := true): (s: Step<Reply>)
    ensures s.exp == e && |s.trace| == 1 && Reporting(s.trace)
    ensures !e.ended ==> Delivered(s.trace) == [IterCall(n, log)] && Warnings(s.trace) == []
    ensures !e.ended ==> s.result == client(IterCall(n, log))
    ensures e.ended ==> Delivered(s.trace) == [] && Warnings(s.trace) == [IterWarning] && s.result == None
  {
    Forward(e, client, IterCall(n, log), IterWarning)
  }

  /** `log(string)`: always written through the logger, ended or not. */
  function Log(e: Experiment, message: string): (s: Step<()>)
    ensures s.exp == e
    ensures Info(message) in s.trace && |s.trace| == 1
    ensures Delivered(s.trace) == [] && Warnings(s.trace) == []
  {
    Step(e, [Info(message)], ())
  }

  /**
   `end()`. The first call marks the experiment ended, puts back the streams
   saved at construction, marks the runner done and clean, and returns only
   after the worker's completion token; later calls do nothing.

   The worker posts its token only after stamping its start (if it had not
   yet when `end()` was called) and its end, so `start` and `finish` are the
   readings of `datetime.now()` it takes; they are opaque here.
   */
  function End(e: Experiment, start: Time, finish: Time): (s: Step<()>)
    ensures e.ended ==> s.exp == e && s.trace == []
    ensures !e.ended ==> s.exp.ended && s.exp.io == e.saved
    ensures !e.ended ==> IsDone(s.exp.runner) == (true, true)
    ensures !e.ended ==> GetStartAndEndTime(s.exp.runner)
                         == (if e.runner.startTime.Some? then e.runner.startTime else Some(start), Some(finish))
    ensures !e.ended ==> s.exp.(ended := e.ended, io := e.io, runner := e.runner) == e
    ensures !e.ended ==> s.trace == [AwaitWorker]
  {
    if e.ended then Step(e, [], ())
    else
      var marked := MarkFinished(e.runner);
      var started := if marked.startTime.None? then SetStartTime(marked, start) else marked;
      var e' := e.(ended := true, io := e.saved, runner := SetEndTime(started, finish));
      Step(e', [AwaitWorker], ())
  }

  /** `exp.callbacks.keras`, with `outcome` how loading the integration would end now. */
  function KerasAccess(e: Experiment, outcome: ImportOutcome): (s: Step<Answer>)
    ensures s.exp.(callbacks := e.callbacks) == e
    ensures Status(e.callbacks, KERAS) == NotAttempted ==> s.trace == [ImportAttempt(KERAS, outcome)]
    ensures Status(e.callbacks, KERAS) == NotAttempted ==>
              (s.result == Returned(Some(KerasCallback(e.runId))) <==> outcome == Loaded)
              && (s.result == Returned(None) <==> outcome == ImportFailed)
              && (s.result == Raised <==> outcome == OtherFailure)
    ensures Status(e.callbacks, KERAS) != NotAttempted ==> s.trace == [] && s.exp == e && s.result.Returned?
    ensures s.result == Raised ==> s.exp == e
    ensures s.result.Returned? && s.result.adapter.Some? ==>
              Status(s.exp.callbacks, KERAS) == Active(s.result.adapter.value)
    ensures s.result == Returned(None) ==> Status(s.exp.callbacks, KERAS) == Unavailable
  {
    var a := Keras(e.callbacks, e.runId, outcome);
    Step(e.(callbacks := a.reg), a.trace, a.answer)
  }

  /** The delivery calls a list of `(name, value)` reports turns into. */
  function MetricCalls(reports: seq<(string, Value)>): (calls: seq<Call>)
    ensures |calls| == |reports|
    ensures forall i :: 0 <= i < |reports| ==> calls[i] == MetricCall(reports[i].0, reports[i].1, true)
  {
    if reports == [] then [] else [MetricCall(reports[0].0, reports[0].1, true)] + MetricCalls(reports[1..])
  }

  /** A report list and its delivery calls hold the same `(name, value)` pairs, all with `log` set. */
  lemma {:induction false} MetricCallsContent(reports: seq<(string, Value)>)
    ensures forall c :: c in MetricCalls(reports) <==> c.MetricCall? && c.log && (c.name, c.value) in reports
  {
    if reports != [] {
      MetricCallsContent(reports[1..]);
      assert reports == [reports[0]] + reports[1..];
    }
  }

  /** The warnings an ended experiment writes for a list of reports, one per report, in order. */
  function MetricWarnings(reports: seq<(string, Value)>): (ws: seq<string>)
    ensures |ws| == |reports|
    ensures forall i :: 0 <= i < |reports| ==> ws[i] == MetricWarning(reports[i].0)
  {
    if reports == [] then [] else [MetricWarning(reports[0].0)] + MetricWarnings(reports[1..])
  }

  /** `self._exp.metric(name, value)` for each report, in order. */
  function ReportAll(e: Experiment, client: Client, reports: seq<(string, Value)>): (s: Step<()>)
    ensures s.exp == e && Reporting(s.trace)
    ensures Delivered(s.trace) == if e.ended then [] else MetricCalls(reports)
    ensures Warnings(s.trace) == if e.ended then MetricWarnings(reports) else []
    decreases |reports|
  {
    if reports == [] then Step(e, [], ())
    else
      var first := Metric(e, client, reports[0].0, reports[0].1);
      var rest := ReportAll(e, client, reports[1..]);
      DeliveredAppend(first.trace, rest.trace);
      WarningsAppend(first.trace, rest.trace);
      ReportingAppend(first.trace, rest.trace);
      Step(e, first.trace + rest.trace, ())
  }

  /**
   `_KerasCallback.on_epoch_end(epoch, logs)` on the adapter bound to `e`:
   one metric report per validation key the logs carry a value for, through
   `metric`, so an ended experiment only warns.
   */
  function OnEpochEnd(e: Experiment, client: Client, epoch: int, logs: Logs): (s: Step<()>)
    ensures s.exp == e && Reporting(s.trace)
    ensures forall v ::
              MetricCall(VAL_ACCURACY, v, true) in Delivered(s.trace) <==> !e.ended && Carries(logs, VAL_ACCURACY, v)
    ensures forall v ::
              MetricCall(VAL_LOSS, v, true) in Delivered(s.trace) <==> !e.ended && Carries(logs, VAL_LOSS, v)
    ensures forall c :: c in Delivered(s.trace) ==>
              c.MetricCall? && (c.name == VAL_ACCURACY || c.name == VAL_LOSS) && c.log
    ensures |Delivered(s.trace)| <= 2
    ensures Delivered(s.trace) == if e.ended then [] else MetricCalls(EpochReports(logs))
    ensures Warnings(s.trace) == if e.ended then MetricWarnings(EpochReports(logs)) else []
  {
    var reports := EpochReports(logs);
    var s := ReportAll(e, client, reports);
    MetricCallsContent(reports);
    s
  }
}
