# Hyperdash experiment runtime, modelled in Dafny

This project models the core of the Hyperdash Python SDK's `Experiment`
(`hyperdash/experiment.py`): the object a training script creates to record
parameters and metrics for one run. The runtime has three small sequential
state machines that sit on top of thread and stream plumbing. Each is written
here as a pure transition over an immutable state, together with the trace of
what it caused.

- **Experiment lifecycle** (`Experiments`). Construction saves the process's
  `(sys.stdout, sys.stderr)` and swaps in two capture buffers when
  `capture_io` is set. It then starts the background worker. `metric`, `param`
  and `iter` forward one call to the delivery client (`HDClient`) and pass its
  reply back. Once the experiment has ended, they write one warning instead
  and return `None`. `log` always writes through the logger. `end()` acts only
  the first time. It restores the saved streams, marks the runner clean and
  done, and returns after consuming the worker's completion token.
- **Runner status** (`Runner`). `ExperimentRunner` holds the done and
  clean-exit flags and the optional start and end timestamps. Its accessors are
  fixed answers or plain projections of those fields.
- **Callback registry and Keras adapter** (`Callbacks`). The `keras` property
  imports Keras lazily. A successful load caches the adapter, and an
  `ImportError` caches a "not importable" mark; either way the import is never
  tried again for that experiment. Any other exception reaches the caller and
  caches nothing, so the next access tries again. The adapter's `on_epoch_end` reports
  `val_accuracy` and then `val_loss` through `metric`, each only when the
  epoch's logs hold a non-`None` value for it.

`Session` runs any sequence of these operations and proves the promises that
span several calls. Nothing is delivered after `end()`. `end()` waits at most
once, and a second `end()` changes nothing. At most one import attempt ends in
a load or an `ImportError`, and none follows a cached answer. After `end()`,
the streams are the ones saved at construction; with capture off they never move.

Modelling choices:
- The delivery client is a function parameter `Call -> Reply`. Its reply is
  what the caller gets back.
- How loading the Keras integration would end (loaded, `ImportError`, or
  another exception from the import or from the adapter's constructor) is an
  input given at each access.
- The process-wide stream pair is the `io` field of the experiment state. The
  streams are abstract tokens: the two originals and `Buf0`, `Buf1`.
- The blocking `done_chan.get` is the `AwaitWorker` event at the end of the
  trace of `end()`. Starting the worker thread is the `SpawnWorker` event.
- The run identifier from `uuid4()` and the timestamps from `datetime.now()`
  are opaque values supplied by the caller. The worker's two stamps are
  arguments of `end()`: it waits for the worker's token, which the worker
  posts only after stamping, so the stamps are in place when `end()` returns.

Notes on the code:
- `end()` tests and sets the ended flag before it takes the instance lock
  (`hyperdash/experiment.py:152-156`). The model is sequential, so this makes
  no difference here.
- The adapter reports through `Experiment.metric`. After `end()` an epoch's
  reports therefore become warnings rather than deliveries.
- An empty logs dict is treated exactly like missing logs (`if not logs`).
- Only `ImportError` is caught (`hyperdash/experiment.py:230`). Another
  exception from the import or from `_KerasCallback(self._exp)` propagates
  and leaves `Callbacks._callbacks` without a `keras` entry.

## Model

| member | source | states |
|---|---|---|
| Runner.NewRunner | hyperdash/experiment.py:31-40 | a new runner reports `(exit_cleanly, done)` as given (by default clean and not done) and has no start or end time |
| Runner.IsDone | hyperdash/experiment.py:42-44 | `is_done` gives the clean-exit flag first and the done flag second |
| Runner.GetReturnVal | hyperdash/experiment.py:46-48 | this job kind never has a return value |
| Runner.GetException | hyperdash/experiment.py:50-52 | this job kind never reports an exception |
| Runner.ShouldRunAsThread | hyperdash/experiment.py:54-55 | the runner never asks to be run as a thread |
| Runner.GetStartAndEndTime | hyperdash/experiment.py:57-58 | the stored start and end times, unchanged and in that order |
| Runner.SetStartTime | hyperdash/experiment.py:60-61 | afterwards the start time reads back as the value set; the end time and both flags are unchanged |
| Runner.SetEndTime | hyperdash/experiment.py:63-64 | afterwards the end time reads back as the value set; the start time and both flags are unchanged |
| Runner.MarkFinished | hyperdash/experiment.py:156-159 | after the locked part of `end()` the runner reports clean and done, and keeps its timestamps |
| Runner.WorkerStampsBoth | hyperdash/experiment.py:123-127 | after the worker stamps its start and then its end, both read back in order, and the done flags are untouched |
| Runner.MarkBetweenStamps | hyperdash/experiment.py:122-159 | when `end()` marks the runner between the worker's start and end stamps, the runner ends finished and clean with both stamps in order, as if the marking had come last |
| Experiments.Create | hyperdash/experiment.py:76-131 | a new experiment is not ended, keeps the streams it found, installs the two buffers only when capture is on, has a fresh runner and an empty registry, and starts one worker |
| Experiments.Forward | hyperdash/experiment.py:133-149 | a live experiment delivers exactly the given call and returns the client's reply; an ended one writes exactly the given warning, delivers nothing and returns `None`; the state never changes |
| Experiments.Metric | hyperdash/experiment.py:133-137 | while live, exactly one `metric` call with unchanged arguments reaches the client and its reply is returned; once ended, no call, exactly one warning naming the metric, `None` |
| Experiments.Param | hyperdash/experiment.py:139-143 | while live, exactly one `param` call with unchanged arguments reaches the client and its reply is returned; once ended, no call, exactly one warning naming the parameter, `None` |
| Experiments.Iter | hyperdash/experiment.py:145-149 | while live, exactly one `iter` call with unchanged arguments reaches the client and its reply is returned; once ended, no call, exactly one warning, `None` |
| Experiments.Log | hyperdash/experiment.py:169-170 | the message is written through `logger.info` whether or not the experiment has ended, and nothing else happens |
| Experiments.End | hyperdash/experiment.py:124-162 | on an ended experiment, no effect and no event; otherwise it ends it, restores the saved streams, marks the runner clean and done, leaves it holding the worker's end stamp and a start stamp (the worker's, unless one was already set), changes nothing else, and its only event is the wait for the worker's token |
| Experiments.KerasAccess | hyperdash/experiment.py:183-234 | with nothing cached, the access makes exactly one import attempt and returns a new adapter bound to this experiment exactly when loading succeeds, `None` exactly on `ImportError`, and raises exactly on any other failure, leaving the experiment unchanged; with an answer cached, no attempt, and the cached answer is returned; the experiment is otherwise unchanged |
| Experiments.ReportAll | hyperdash/experiment.py:223-226 | reporting a list through `metric` delivers exactly those metric calls, in order, while live, and once ended delivers nothing and writes exactly the "Cannot send metric <name>, experiment ended" warning for each report, in order |
| Experiments.OnEpochEnd | hyperdash/experiment.py:217-226 | while live, the delivered calls are exactly the epoch's reports in order (accuracy, then loss, each once and only when the logs carry a value for it), all with `log` set; once ended, nothing is delivered and the warnings are exactly the "Cannot send metric" warnings naming those reports, in the same order |
| Callbacks.Keras | hyperdash/experiment.py:194-234 | a cached "unavailable" gives `None` and a cached adapter gives that adapter, neither re-importing; otherwise one import attempt is recorded, and a load caches and returns a new adapter, an `ImportError` caches "unavailable" and returns `None`, and any other failure raises and caches nothing; other plugins are untouched |
| Callbacks.EpochReports | hyperdash/experiment.py:217-226 | a report for each validation key exactly when the logs hold a non-`None` value for it, accuracy before loss, and nothing for any other key |
| Callbacks.NoLogsNoReports | hyperdash/experiment.py:218-222 | missing logs, or logs with neither key, produce no report |
| Callbacks.AccuracyOnly | hyperdash/experiment.py:220-226 | logs with an accuracy and no loss value produce exactly one report, for accuracy |
| Session.ApplyFrame | hyperdash/experiment.py:133-234 | only `end()` can end the experiment, move the streams (to the saved ones) or touch the runner, and only the first time, after which the runner holds both stamps and the end stamp is the worker's; a cached Keras answer never changes, and any Keras access that does not raise leaves one cached |
| Session.ApplyReports | hyperdash/experiment.py:133-149 | on an ended experiment no operation delivers, and each refused call writes one warning; a live experiment never warns |
| Session.ApplyEvents | hyperdash/experiment.py:151-234 | only the first `end()` waits for the worker, and the step that waits delivers nothing; only a Keras access with nothing cached makes an import attempt, with the outcome it was given |
| Session.RunAfterEnd | hyperdash/experiment.py:133-162 | after `end()`, any sequence of calls delivers nothing, never waits again, and leaves the streams and runner as `end()` left them |
| Session.OneWarningPerRefusal | hyperdash/experiment.py:133-149 | after `end()`, a sequence of calls writes exactly one warning per call that would have been delivered |
| Session.NoDeliveryAfterEnd | hyperdash/experiment.py:133-162 | in any run, no delivery follows the wait that ends the experiment |
| Session.AtMostOneAwait | hyperdash/experiment.py:151-162 | however often `end()` is called, the worker's token is awaited at most once, and never if the experiment had already ended |
| Session.EndOnEnded | hyperdash/experiment.py:151-153 | on an ended experiment, a further `end()` has no effect on state or trace |
| Session.EndTwice | hyperdash/experiment.py:151-162 | calling `end()` twice in a row gives the same state and trace as calling it once, whatever the second call's stamps and whatever follows |
| Session.AtMostOneImport | hyperdash/experiment.py:194-234 | whatever each attempt would end in, at most one import attempt per experiment ends in a load or an `ImportError`, and none once an answer is cached |
| Session.NoImportOnceCached | hyperdash/experiment.py:194-197 | once an adapter or "unavailable" is cached, no further import attempt of any outcome is made |
| Session.RetriedAfterOtherFailure | hyperdash/experiment.py:199-233 | an attempt that raises something other than `ImportError` caches nothing, so the next access attempts the import again |
| Session.CacheSticks | hyperdash/experiment.py:194-234 | once an adapter or "unavailable" is cached, it stays cached through any sequence of calls |
| Session.RestoredAfterEnd | hyperdash/experiment.py:97-162 | once `end()` has run, the process's streams are the ones saved at construction and the runner holds both the start and the end stamp |
| Session.StreamsStay | hyperdash/experiment.py:97-157 | streams that were never swapped are never changed by any sequence of calls |
| Session.NoEndStreamsStay | hyperdash/experiment.py:104-157 | without `end()`, the streams stay whatever construction installed |
| Session.CaptureRoundTrip | hyperdash/experiment.py:97-157 | with capture off the streams never change; with capture on they are the buffers until `end()` and the originals after it |
| Session.FromProcessStreams | hyperdash/experiment.py:97-157 | a process that starts on its own streams with capture on writes to the buffers until `end()` and to its own streams after it |

## Left out

- Thread creation, the daemon flag and the `Queue` rendezvous (lines 120-130, 162). These are concurrency. The wait is the `AwaitWorker` event. The worker's two `datetime.now()` stamps are arguments of `end()`, since `end()` can return only after the worker has set them.
- The instance and runner locks. The model is sequential, so two racing `end()` calls are not modelled.
- The ordering `start_time <= end_time`. The timestamps come from `datetime.now()`, and the model keeps them as opaque values that are never compared.
- `uuid.uuid4()`. The run identifier is a parameter.
- `api_key_getter`, `ServerManagerHTTP`, `HDClient`, `HyperDash.run`, `IOBuffer` and `get_logger`. These collaborators are not part of this model. The client is reduced to a reply function, and the logger to `Warn` and `Info` events.
- What the capture buffers contain, and the logger writing into the first buffer. Writes to the streams are not modelled.
- `_TensorboardExperiment` (lines 238-242). It differs only in the API name passed to the transport, which is not modelled.
- The Keras `Callback` base class and the callbacks other than `on_epoch_end`. `_KerasCallback` defines only `on_epoch_end`, which ignores its epoch number; the model accepts and ignores it too.
- Exceptions as control flow. A non-`ImportError` failure of the `keras` property is the `Raised` answer; a run of operations continues after it, as for a caller that catches the exception.
- Experiments.End: the model assumes the worker's run loop (`self._hd.run()`, line 125) returns, so the worker stamps its end and posts its token. If the loop raises or never returns, lines 126-127 are not reached and `end()` blocks forever at line 162; the total function `End` always returns and cannot show that case.
- Experiments.Create: construction is modelled as never raising. With capture on, line 106 moves the streams to the buffers before `ServerManagerHTTP`, `HDClient`, `HyperDash` and `Thread.start()` run (lines 108-130); if one of those raises, the process is left writing to the buffers with no experiment whose `end()` could put the streams back, and the model cannot show that state.
- Several experiments capturing at once. Only one experiment's view of the process streams is modelled.
