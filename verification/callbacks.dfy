/**
 `Callbacks`: the per-experiment lazy registry of third-party callback
 adapters, and the filter the Keras adapter applies to an epoch's logs.

 The registry is the dictionary `Callbacks._callbacks`: a plugin name that is
 absent has not been tried (or its last attempt raised something other than
 `ImportError`), `Adapter(cb)` holds the adapter built on the first successful
 import, and `Unimportable` is the `False` sentinel left by an `ImportError`.
 `Status` reads it as the three-state cache.
 */
module Callbacks {
  import opened Common
  import opened Trace

  /** The registry key of the Keras integration. */
  const KERAS := "keras"

  /** A `_KerasCallback`, bound to the experiment it reports on. */
  datatype KerasCallback = KerasCallback(owner: RunId)

  datatype Entry = Adapter(cb: KerasCallback) | Unimportable

  datatype Registry = Registry(entries: map<string, Entry>)

  /** The three states a plugin can be in for one experiment. */
  datatype Cache = NotAttempted | Active(adapter: KerasCallback) | Unavailable

  const EmptyRegistry := Registry(map[])

  function Status(reg: Registry, plugin: string): Cache {
    if plugin !in reg.entries then NotAttempted
    else match reg.entries[plugin]
      case Adapter(cb) => Active(cb)
      case Unimportable => Unavailable
  }

  /** What the `keras` property gives its caller: a value (an adapter or `None`), or an exception. */
  datatype Answer = Returned(adapter: Option<KerasCallback>) | Raised

  /** The result of one access to the `keras` property. */
  datatype Access = Access(reg: Registry, trace: seq<Event>, answer: Answer)

  /**
   The `keras` property of the registry owned by experiment `owner`.
   `outcome` is how loading the integration would end if it were attempted
   now. Only a plugin with nothing cached is loaded; a cached answer, good or
   bad, is returned as it is. An `ImportError` is cached for good; any other
   exception reaches the caller and caches nothing, so the next access tries again.
   */
  function Keras(reg: Registry, owner: RunId, outcome: ImportOutcome): (a: Access)
    ensures Status(reg, KERAS) == Unavailable ==> a.reg == reg && a.trace == [] && a.answer == Returned(None)
    ensures Status(reg, KERAS).Active? ==>
              a.reg == reg && a.trace == [] && a.answer == Returned(Some(Status(reg, KERAS).adapter))
    ensures Status(reg, KERAS) == NotAttempted ==> a.trace == [ImportAttempt(KERAS, outcome)]
    ensures Status(reg, KERAS) == NotAttempted && outcome == Loaded ==>
              a.answer == Returned(Some(KerasCallback(owner)))
              && Status(a.reg, KERAS) == Active(KerasCallback(owner))
    ensures Status(reg, KERAS) == NotAttempted && outcome == ImportFailed ==>
              a.answer == Returned(None) && Status(a.reg, KERAS) == Unavailable
    ensures Status(reg, KERAS) == NotAttempted && outcome == OtherFailure ==>
              a.answer == Raised && a.reg == reg
    ensures forall p :: p != KERAS ==> Status(a.reg, p) == Status(reg, p)
  {
    if KERAS in reg.entries && reg.entries[KERAS] == Unimportable then
      Access(reg, [], Returned(None))
    else if KERAS !in reg.entries then
      match outcome
      case Loaded =>
        var cb := KerasCallback(owner);
        Access(Registry(reg.entries[KERAS := Adapter(cb)]), [ImportAttempt(KERAS, outcome)], Returned(Some(cb)))
      case ImportFailed =>
        Access(Registry(reg.entries[KERAS := Unimportable]), [ImportAttempt(KERAS, outcome)], Returned(None))
      case OtherFailure =>
        Access(reg, [ImportAttempt(KERAS, outcome)], Raised)
    else
      Access(reg, [], Returned(Some(reg.entries[KERAS].cb)))
  }

  /** The keys `_KerasCallback.on_epoch_end` reports, in reporting order. */
  const VAL_ACCURACY := "val_accuracy"
  const VAL_LOSS := "val_loss"

  /** The logs dict of one epoch: absent, or a map whose values may be `None`. */
  type Logs = Option<map<string, Option<Value>>>

  /** `logs.get(key)` after `if not logs: logs = {}`. */
  function Get(logs: Logs, key: string): Option<Value> {
    if logs.Some? && key in logs.value then logs.value[key] else None
  }

  /** True when the logs carry a non-`None` value under `key`. */
  predicate Carries(logs: Logs, key: string, v: Value) {
    logs.Some? && key in logs.value && logs.value[key] == Some(v)
  }

  /**
   The metric reports `on_epoch_end` makes, as `(name, value)` pairs: the
   validation accuracy, then the validation loss, each only when the logs
   carry a value for it. Nothing is invented for an absent key.
   */
  function EpochReports(logs: Logs): (reports: seq<(string, Value)>)
    ensures |reports| <= 2
    ensures forall v :: (VAL_ACCURACY, v) in reports <==> Carries(logs, VAL_ACCURACY, v)
    ensures forall v :: (VAL_LOSS, v) in reports <==> Carries(logs, VAL_LOSS, v)
    ensures forall i :: 0 <= i < |reports| ==> reports[i].0 == VAL_ACCURACY || reports[i].0 == VAL_LOSS
    ensures |reports| == 2 ==> reports[0].0 == VAL_ACCURACY && reports[1].0 == VAL_LOSS
  {
    var acc := Get(logs, VAL_ACCURACY);
    var loss := Get(logs, VAL_LOSS);
    (if acc.Some? then [(VAL_ACCURACY, acc.value)] else [])
      + (if loss.Some? then [(VAL_LOSS, loss.value)] else [])
  }

  /** Missing logs, or logs without either key, produce no report at all. */
  lemma NoLogsNoReports(logs: Logs)
    requires logs.None? || (VAL_ACCURACY !in logs.value && VAL_LOSS !in logs.value)
    ensures EpochReports(logs) == []
  {
  }

  /** An epoch that logged only an accuracy produces exactly that one report. */
  lemma AccuracyOnly(logs: Logs, v: Value)
    requires Carries(logs, VAL_ACCURACY, v)
    requires Get(logs, VAL_LOSS).None?
    ensures EpochReports(logs) == [(VAL_ACCURACY, v)]
  {
  }
}
