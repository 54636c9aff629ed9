/**
 Opaque tokens shared by the whole model of the Hyperdash experiment runtime:
 Python's `None`, the payloads that flow through untouched (metric values,
 client replies, timestamps, the run identifier) and the abstract identities of
 the process's standard output and error streams.
 */
module Common {

  /** Python's optional value: `None` or a present value. */
  datatype Option<+T> = None | Some(value: T)

  /** A metric, parameter or logs-dict value. The runtime never inspects it. */
  datatype Value = Value(payload: string)

  /** A wall-clock reading from `datetime.now()`; never compared here. */
  datatype Time = Time(stamp: int)

  /** The run identifier drawn once from `uuid.uuid4()` at construction. */
  datatype RunId = RunId(uuid: string)

  /**
   How one attempt to load the Keras integration ends: the import and the
   adapter's construction both succeed; the import raises `ImportError`,
   which is caught; or some other exception is raised (by the import of a
   broken installation, or by the adapter's constructor), which is not.
   */
  datatype ImportOutcome = Loaded | ImportFailed | OtherFailure

  /** Which of the two standard streams an original stream token stands for. */
  datatype Std = Out | Err

  /**
   The identity of an object installed as `sys.stdout` or `sys.stderr`:
   one of the process's original streams, or one of the two capture buffers
   an experiment creates (`out[0]` and `out[1]`).
   */
  datatype Stream = Orig(which: Std) | Buf0 | Buf1

  /** The pair `(sys.stdout, sys.stderr)`. */
  datatype StdStreams = StdStreams(out: Stream, err: Stream)

  /** The streams of a process nobody has redirected yet. */
  const Originals := StdStreams(Orig(Out), Orig(Err))

  /** The two fresh capture buffers, in the order they are installed. */
  const Buffers := StdStreams(Buf0, Buf1)
}
