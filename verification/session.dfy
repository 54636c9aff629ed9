/**
 A caller's whole conversation with one experiment: any sequence of facade
 operations, applied one after another. The lemmas here are the promises that
 relate several calls: nothing is delivered after `end()`, `end()` waits at
 most once and a second `end()` changes nothing, at most one Keras import
 attempt settles the cache, and after `end()` the streams are the ones saved at
 construction (with capture off they never move).
 */
module Session {
  import opened Common
  import opened Trace
  import opened Runner
  import opened Callbacks
  import opened Experiments

  /** One call a caller (or its Keras training loop) makes on the experiment. */
  datatype Op =
    | MetricOp(name: string, value: Value, log: bool)
    | ParamOp(name: string, value: Value, log: bool)
    | IterOp(n: int, log: bool)
    | LogOp(message: string)
    | EndOp(start: Time, finish: Time) // `end()`; the worker's stamps it waits for
    | KerasOp(outcome: ImportOutcome)    // reading `exp.callbacks.keras`
    | EpochEndOp(epoch: int, logs: Logs) // the Keras adapter's `on_epoch_end`

  /**
   How many calls on the delivery client an operation asks for: one for
   `metric`, `param` and `iter`, one per reported key for an epoch's end.
   On an ended experiment each of them becomes a warning instead.
   */
  function Refusals(op: Op): nat {
    match op
    case MetricOp(_, _, _) => 1
    case ParamOp(_, _, _) => 1
    case IterOp(_, _) => 1
    case EpochEndOp(_, logs) => |EpochReports(logs)|
    case _ => 0
  }

  function TotalRefusals(ops: seq<Op>): nat {
    if ops == [] then 0 else Refusals(ops[0]) + TotalRefusals(ops[1..])
  }

  /** One operation, its reply dropped. */
  function Apply(e: Experiment, client: Client, op: Op): Step<()>
  {
    match op
    case MetricOp(name, value, log) =>
      var r := Metric(e, client, name, value, log);
      Step(r.exp, r.trace, ())
    case ParamOp(name, value, log) =>
      var r := Param(e, client, name, value, log);
      Step(r.exp, r.trace, ())
    case IterOp(n, log) =>
      var r := Iter(e, client, n, log);
      Step(r.exp, r.trace, ())
    case LogOp(message) => Log(e, message)
    case EndOp(start, finish) => End(e, start, finish)
    case KerasOp(outcome) =>
      var r := KerasAccess(e, outcome);
      Step(r.exp, r.trace, ())
    case EpochEndOp(epoch, logs) => OnEpochEnd(e, client, epoch, logs)
  }

  /**
   What a single operation may do to the state: only `end()` ends the
   experiment, moves the streams (back to the saved ones) or touches the
   runner, and only the first time; a cached Keras answer never changes.
   */
  lemma ApplyFrame(e: Experiment, client: Client, op: Op)
    ensures var s := Apply(e, client, op);
      && s.exp.saved == e.saved
      && s.exp.runId == e.runId
      && (!op.EndOp? ==> s.exp.ended == e.ended && s.exp.io == e.io && s.exp.runner == e.runner)
      && (op.EndOp? ==> s.exp.ended && s.exp.io == (if e.ended then e.io else e.saved))
      && (op.EndOp? && !e.ended ==> s.exp.runner.startTime.Some? && s.exp.runner.endTime == Some(op.finish))
      && (op.EndOp? && e.ended ==> s.exp == e && s.trace == [])
      && (Status(e.callbacks, KERAS) != NotAttempted ==>
            Status(s.exp.callbacks, KERAS) == Status(e.callbacks, KERAS))
      && (op.KerasOp? && op.outcome != OtherFailure ==> Status(s.exp.callbacks, KERAS) != NotAttempted)
  {
  }

  /**
   What a single operation may report: an ended experiment delivers nothing
   and warns once per refused call; a live one never warns.
   */
  lemma ApplyReports(e: Experiment, client: Client, op: Op)
    ensures var s := Apply(e, client, op);
      && (e.ended ==> Delivered(s.trace) == [])
      && |Warnings(s.trace)| == (if e.ended then Refusals(op) else 0)
  {
  }

  /**
   When a single operation waits or imports: only the first `end()` waits for
   the worker, and delivers nothing itself; only a Keras access that finds
   nothing cached imports.
   */
  lemma ApplyEvents(e: Experiment, client: Client, op: Op)
    ensures var s := Apply(e, client, op);
      && Occurrences(s.trace, AwaitWorker) == (if op.EndOp? && !e.ended then 1 else 0)
      && (AwaitWorker in s.trace ==> s.exp.ended && Delivered(s.trace) == [])
      && (forall o :: Occurrences(s.trace, ImportAttempt(KERAS, o))
            == (if op == KerasOp(o) && Status(e.callbacks, KERAS) == NotAttempted then 1 else 0))
  {
  }

  /** The operations in order; the trace is every step's events, concatenated. */
  function Run(e: Experiment, client: Client, ops: seq<Op>): Step<()>
    decreases ops
  {
    if ops == [] then Step(e, [], ())
    else
      var first := Apply(e, client, ops[0]);
      var rest := Run(first.exp, client, ops[1..]);
      Step(rest.exp, first.trace + rest.trace, ())
  }

  /**
   After `end()`, whatever the caller does delivers nothing, never waits again,
   and leaves the experiment ended with its streams and runner as `end()` left them.
   */
  lemma {:induction false} RunAfterEnd(e: Experiment, client: Client, ops: seq<Op>)
    requires e.ended
    ensures Delivered(Run(e, client, ops).trace) == []
    ensures Occurrences(Run(e, client, ops).trace, AwaitWorker) == 0
    ensures Run(e, client, ops).exp.ended
    ensures Run(e, client, ops).exp.io == e.io
    ensures Run(e, client, ops).exp.runner == e.runner
    decreases ops
  {
    if ops != [] {
      var first := Apply(e, client, ops[0]);
      ApplyFrame(e, client, ops[0]);
      ApplyEvents(e, client, ops[0]);
      ApplyReports(e, client, ops[0]);
      RunAfterEnd(first.exp, client, ops[1..]);
      DeliveredAppend(first.trace, Run(first.exp, client, ops[1..]).trace);
      OccurrencesAppend(first.trace, Run(first.exp, client, ops[1..]).trace, AwaitWorker);
    }
  }

  /** After `end()`, every call that would have been delivered writes exactly one warning. */
  lemma {:induction false} OneWarningPerRefusal(e: Experiment, client: Client, ops: seq<Op>)
    requires e.ended
    ensures |Warnings(Run(e, client, ops).trace)| == TotalRefusals(ops)
    decreases ops
  {
    if ops != [] {
      var first := Apply(e, client, ops[0]);
      ApplyFrame(e, client, ops[0]);
      ApplyReports(e, client, ops[0]);
      OneWarningPerRefusal(first.exp, client, ops[1..]);
      WarningsAppend(first.trace, Run(first.exp, client, ops[1..]).trace);
    }
  }

  /** No call reaches the delivery client after the wait that ends the experiment. */
  predicate QuietAfterAwait(t: seq<Event>) {
    forall i, j :: 0 <= i < j < |t| && t[i] == AwaitWorker ==> !t[j].Deliver?
  }

  lemma QuietAppend(a: seq<Event>, b: seq<Event>)
    requires QuietAfterAwait(a) && QuietAfterAwait(b)
    requires AwaitWorker in a ==> Delivered(b) == []
    ensures QuietAfterAwait(a + b)
  {
    forall i, j | 0 <= i < j < |a + b| && (a + b)[i] == AwaitWorker
      ensures !(a + b)[j].Deliver?
    {
      if j >= |a| && i < |a| {
        assert a[i] == AwaitWorker;
        var x := b[j - |a|];
        assert x in b;
      }
    }
  }

  lemma {:induction false} NoDeliveryAfterEnd(e: Experiment, client: Client, ops: seq<Op>)
    ensures QuietAfterAwait(Run(e, client, ops).trace)
    decreases ops
  {
    if ops != [] {
      var first := Apply(e, client, ops[0]);
      ApplyFrame(e, client, ops[0]);
      ApplyEvents(e, client, ops[0]);
      var rest := Run(first.exp, client, ops[1..]);
      NoDeliveryAfterEnd(first.exp, client, ops[1..]);
      if AwaitWorker in first.trace {
        RunAfterEnd(first.exp, client, ops[1..]);
      }
      assert QuietAfterAwait(first.trace) by {
        forall i, j | 0 <= i < j < |first.trace| && first.trace[i] == AwaitWorker
          ensures !first.trace[j].Deliver?
        {
          assert first.trace[i] in first.trace;
          assert first.trace[j] in first.trace;
        }
      }
      QuietAppend(first.trace, rest.trace);
    }
  }

  /** However often the caller calls `end()`, the worker's token is awaited at most once. */
  lemma {:induction false} AtMostOneAwait(e: Experiment, client: Client, ops: seq<Op>)
    ensures Occurrences(Run(e, client, ops).trace, AwaitWorker) <= (if e.ended then 0 else 1)
    decreases ops
  {
    if ops != [] {
      var first := Apply(e, client, ops[0]);
      ApplyFrame(e, client, ops[0]);
      ApplyEvents(e, client, ops[0]);
      AtMostOneAwait(first.exp, client, ops[1..]);
      OccurrencesAppend(first.trace, Run(first.exp, client, ops[1..]).trace, AwaitWorker);
      if Occurrences(first.trace, AwaitWorker) > 0 {
        RunAfterEnd(first.exp, client, ops[1..]);
      }
    }
  }

  /** On an ended experiment, a further `end()` is not there at all. */
  lemma EndOnEnded(e: Experiment, client: Client, start: Time, finish: Time, post: seq<Op>)
    requires e.ended
    ensures Run(e, client, [EndOp(start, finish)] + post) == Run(e, client, post)
  {
    assert ([EndOp(start, finish)] + post)[0] == EndOp(start, finish);
    assert ([EndOp(start, finish)] + post)[1..] == post;
    assert [] + Run(e, client, post).trace == Run(e, client, post).trace;
  }

  /**
   A second `end()` right after the first changes no state and adds no event,
   whatever state the experiment was in and whatever the caller does next.
   */
  lemma EndTwice(e: Experiment, client: Client, first: Op, second: Op, post: seq<Op>)
    requires first.EndOp? && second.EndOp?
    ensures Run(e, client, [first, second] + post) == Run(e, client, [first] + post)
  {
    var twice := [first, second] + post;
    var once := [first] + post;
    assert twice[0] == first && twice[1..] == [second] + post;
    assert once[0] == first && once[1..] == post;
    ApplyFrame(e, client, first);
    EndOnEnded(Apply(e, client, first).exp, client, second.start, second.finish, post);
  }

  /** The attempts in a trace that settled the Keras entry: a successful load or an `ImportError`. */
  function SettledImports(t: seq<Event>): nat {
    Occurrences(t, ImportAttempt(KERAS, Loaded)) + Occurrences(t, ImportAttempt(KERAS, ImportFailed))
  }

  /**
   Whatever each attempt would end in, at most one attempt per experiment
   ends in a successful load or an `ImportError`, and none once the registry
   holds an answer. (An attempt that raises something else caches nothing, so
   it may be followed by further attempts.)
   */
  lemma {:induction false} AtMostOneImport(e: Experiment, client: Client, ops: seq<Op>)
    ensures SettledImports(Run(e, client, ops).trace)
         <= (if Status(e.callbacks, KERAS) == NotAttempted then 1 else 0)
    decreases ops
  {
    if ops != [] {
      var first := Apply(e, client, ops[0]);
      var rest := Run(first.exp, client, ops[1..]);
      ApplyFrame(e, client, ops[0]);
      ApplyEvents(e, client, ops[0]);
      AtMostOneImport(first.exp, client, ops[1..]);
      OccurrencesAppend(first.trace, rest.trace, ImportAttempt(KERAS, Loaded));
      OccurrencesAppend(first.trace, rest.trace, ImportAttempt(KERAS, ImportFailed));
    }
  }

  /** Once the registry holds an adapter or the unavailable mark, Keras is never loaded again. */
  lemma {:induction false} NoImportOnceCached(e: Experiment, client: Client, ops: seq<Op>, o: ImportOutcome)
    requires Status(e.callbacks, KERAS) != NotAttempted
    ensures Occurrences(Run(e, client, ops).trace, ImportAttempt(KERAS, o)) == 0
    decreases ops
  {
    if ops != [] {
      var first := Apply(e, client, ops[0]);
      var rest := Run(first.exp, client, ops[1..]);
      ApplyFrame(e, client, ops[0]);
      ApplyEvents(e, client, ops[0]);
      NoImportOnceCached(first.exp, client, ops[1..], o);
      OccurrencesAppend(first.trace, rest.trace, ImportAttempt(KERAS, o));
    }
  }

  /** An attempt that raises leaves nothing cached: the next access loads again. */
  lemma RetriedAfterOtherFailure(e: Experiment, client: Client, o: ImportOutcome)
    requires Status(e.callbacks, KERAS) == NotAttempted
    ensures Run(e, client, [KerasOp(OtherFailure), KerasOp(o)]).trace
         == [ImportAttempt(KERAS, OtherFailure), ImportAttempt(KERAS, o)]
  {
    var ops := [KerasOp(OtherFailure), KerasOp(o)];
    var first := KerasAccess(e, OtherFailure);
    assert first.exp == e && first.trace == [ImportAttempt(KERAS, OtherFailure)];
    assert Apply(e, client, ops[0]) == Step(e, first.trace, ());
    var second := KerasAccess(e, o);
    assert second.trace == [ImportAttempt(KERAS, o)];
    assert ops[1..] == [KerasOp(o)];
    assert ops[1..][1..] == [];
    assert Run(e, client, ops[1..]).trace == second.trace + [];
  }

  /** Once the registry holds an adapter or the unavailable mark, it keeps it for good. */
  lemma {:induction false} CacheSticks(e: Experiment, client: Client, ops: seq<Op>)
    requires Status(e.callbacks, KERAS) != NotAttempted
    ensures Status(Run(e, client, ops).exp.callbacks, KERAS) == Status(e.callbacks, KERAS)
    decreases ops
  {
    if ops != [] {
      ApplyFrame(e, client, ops[0]);
      CacheSticks(Apply(e, client, ops[0]).exp, client, ops[1..]);
    }
  }

  /** True when the caller's sequence calls `end()` somewhere. */
  predicate CallsEnd(ops: seq<Op>) {
    exists i :: 0 <= i < |ops| && ops[i].EndOp?
  }

  /**
   The invariant every reachable experiment keeps: an ended experiment has put
   back the streams it saved, and its worker has stamped both times.
   */
  predicate Finalized(e: Experiment) {
    e.ended ==> e.io == e.saved && e.runner.startTime.Some? && e.runner.endTime.Some?
  }

  /**
   Once `end()` has run, the process's streams are the ones saved at
   construction and the runner holds both of the worker's timestamps.
   */
  lemma {:induction false} RestoredAfterEnd(e: Experiment, client: Client, ops: seq<Op>)
    requires Finalized(e)
    requires CallsEnd(ops)
    ensures Run(e, client, ops).exp.io == e.saved
    ensures Run(e, client, ops).exp.runner.startTime.Some? && Run(e, client, ops).exp.runner.endTime.Some?
    decreases ops
  {
    var first := Apply(e, client, ops[0]);
    ApplyFrame(e, client, ops[0]);
    if ops[0].EndOp? {
      RunAfterEnd(first.exp, client, ops[1..]);
    } else {
      var i :| 0 <= i < |ops| && ops[i].EndOp?;
      assert ops[1..][i - 1].EndOp?;
      RestoredAfterEnd(first.exp, client, ops[1..]);
    }
  }

  /** Streams that were never swapped stay where they are. */
  lemma {:induction false} StreamsStay(e: Experiment, client: Client, ops: seq<Op>)
    requires e.io == e.saved
    ensures Run(e, client, ops).exp.io == e.io
    decreases ops
  {
    if ops != [] {
      ApplyFrame(e, client, ops[0]);
      StreamsStay(Apply(e, client, ops[0]).exp, client, ops[1..]);
    }
  }

  /**
   End to end: with capture off the process's streams are never changed; with
   capture on they are the buffers until `end()`, and the originals after it.
   */
  lemma CaptureRoundTrip(modelName: string, runId: RunId, io: StdStreams, captureIO: bool,
                         client: Client, ops: seq<Op>)
    ensures !captureIO ==> Run(Create(modelName, runId, io, captureIO).exp, client, ops).exp.io == io
    ensures CallsEnd(ops) ==> Run(Create(modelName, runId, io, captureIO).exp, client, ops).exp.io == io
    ensures captureIO && !CallsEnd(ops) ==>
              Run(Create(modelName, runId, io, captureIO).exp, client, ops).exp.io == Buffers
  {
    var e := Create(modelName, runId, io, captureIO).exp;
    if !captureIO {
      StreamsStay(e, client, ops);
    }
    if CallsEnd(ops) {
      RestoredAfterEnd(e, client, ops);
    } else {
      NoEndStreamsStay(e, client, ops);
    }
  }

  /**
   A process that has not redirected its streams: with capture on, it writes to
   the buffers until `end()` and to its own streams again afterwards.
   */
  lemma FromProcessStreams(modelName: string, runId: RunId, client: Client, ops: seq<Op>)
    ensures Run(Create(modelName, runId, Originals, true).exp, client, ops).exp.io
            == if CallsEnd(ops) then Originals else Buffers
  {
    CaptureRoundTrip(modelName, runId, Originals, true, client, ops);
  }

  lemma {:induction false} NoEndStreamsStay(e: Experiment, client: Client, ops: seq<Op>)
    requires !CallsEnd(ops)
    ensures Run(e, client, ops).exp.io == e.io
    decreases ops
  {
    if ops != [] {
      assert !ops[0].EndOp?;
      assert !CallsEnd(ops[1..]) by {
        forall i | 0 <= i < |ops[1..]| ensures !ops[1..][i].EndOp? {
          assert ops[1..][i] == ops[i + 1];
        }
      }
      ApplyFrame(e, client, ops[0]);
      NoEndStreamsStay(Apply(e, client, ops[0]).exp, client, ops[1..]);
    }
  }
}
