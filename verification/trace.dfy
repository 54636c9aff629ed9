/**
 The observable side of the model. Every operation returns the events it
 caused, in order: calls handed to the delivery client, lines written through
 the logger, import attempts for optional integrations, the spawn of the
 background worker and the wait on its completion token.
 */
module Trace {
  import opened Common

  /** A call on the delivery client (`HDClient.metric`, `.param`, `.iter`). */
  datatype Call =
    | MetricCall(name: string, value: Value, log: bool)
    | ParamCall(name: string, value: Value, log: bool)
    | IterCall(n: int, log: bool)

  /** What the delivery client returns; passed through to the caller. */
  type Reply = Option<Value>

  /** The delivery client, reduced to the reply it gives each call. */
  type Client = Call -> Reply

  datatype Event =
    | Deliver(call: Call)          // the call was forwarded to the delivery client
    | Warn(message: string)        // `logger.warn`
    | Info(message: string)        // `logger.info`
    | ImportAttempt(plugin: string, outcome: ImportOutcome) // one attempt to load an optional integration
    | SpawnWorker                  // the background worker thread was started
    | AwaitWorker                  // `done_chan.get` consumed the worker's token

  /** A trace made only of delivery calls and warnings, as `metric`, `param` and `iter` produce. */
  predicate Reporting(t: seq<Event>) {
    forall i :: 0 <= i < |t| ==> t[i].Deliver? || t[i].Warn?
  }

  /** The calls a trace handed to the delivery client, in order. */
  function Delivered(t: seq<Event>): (calls: seq<Call>)
    ensures |calls| <= |t|
    ensures forall c :: c in calls <==> Deliver(c) in t
  {
    if t == [] then []
    else (if t[0].Deliver? then [t[0].call] else []) + Delivered(t[1..])
  }

  /** The warnings a trace wrote, in order. */
  function Warnings(t: seq<Event>): (messages: seq<string>)
    ensures |messages| <= |t|
    ensures forall m :: m in messages <==> Warn(m) in t
  {
    if t == [] then []
    else (if t[0].Warn? then [t[0].message] else []) + Warnings(t[1..])
  }

  /** How many times an event occurs in a trace. */
  function Occurrences(t: seq<Event>, e: Event): (n: nat)
    ensures n <= |t|
    ensures n == 0 <==> e !in t
  {
    if t == [] then 0
    else (if t[0] == e then 1 else 0) + Occurrences(t[1..], e)
  }

  lemma ReportingAppend(a: seq<Event>, b: seq<Event>)
    requires Reporting(a) && Reporting(b)
    ensures Reporting(a + b)
  {
    forall i | 0 <= i < |a + b|
      ensures (a + b)[i].Deliver? || (a + b)[i].Warn?
    {
      if i >= |a| {
        assert (a + b)[i] == b[i - |a|];
      }
    }
  }

  lemma {:induction false} DeliveredAppend(a: seq<Event>, b: seq<Event>)
    ensures Delivered(a + b) == Delivered(a) + Delivered(b)
  {
    if a == [] {
      assert a + b == b;
    } else {
      assert (a + b)[1..] == a[1..] + b;
      DeliveredAppend(a[1..], b);
    }
  }

  lemma {:induction false} WarningsAppend(a: seq<Event>, b: seq<Event>)
    ensures Warnings(a + b) == Warnings(a) + Warnings(b)
  {
    if a == [] {
      assert a + b == b;
    } else {
      assert (a + b)[1..] == a[1..] + b;
      WarningsAppend(a[1..], b);
    }
  }

  lemma {:induction false} OccurrencesAppend(a: seq<Event>, b: seq<Event>, e: Event)
    ensures Occurrences(a + b, e) == Occurrences(a, e) + Occurrences(b, e)
  {
    if a == [] {
      assert a + b == b;
    } else {
      assert (a + b)[1..] == a[1..] + b;
      OccurrencesAppend(a[1..], b, e);
    }
  }
}
