/**
 * The two channels through which the plugin talks to the Flutter side:
 * the per-call `Result` objects (modelled as one reply log, each reply tagged
 * with the call it answers) and the shared method channel on which the
 * plugin itself invokes methods such as "onDestroy".
 */
module Channels {

  /** Identifies the `MethodChannel.Result` handed to one `onMethodCall`. */
  type CallId = nat

  /** What `result.success(...)` can carry in this core. */
  datatype Payload =
    | Null
    | Text(text: string)
    | Flag(flag: bool)
    | Position(entries: map<string, real>)

  datatype Outcome = Success(payload: Payload) | NotImplemented

  datatype Reply = Reply(call: CallId, outcome: Outcome)

  /** Number of replies in `log` that answer call `id`. */
  function RepliesTo(log: seq<Reply>, id: CallId): nat
  {
    if log == [] then 0
    else RepliesTo(log[..|log| - 1], id) + (if log[|log| - 1].call == id then 1 else 0)
  }

  lemma {:induction false} RepliesToConcat(a: seq<Reply>, b: seq<Reply>, id: CallId)
    ensures RepliesTo(a + b, id) == RepliesTo(a, id) + RepliesTo(b, id)
    decreases |b|
  {
    if b == [] {
      assert a + b == a;
    } else {
      assert (a + b)[..|a + b| - 1] == a + b[..|b| - 1];
      RepliesToConcat(a, b[..|b| - 1], id);
    }
  }

  /** A batch of replies all addressed to `id` adds exactly its length to the count for `id`. */
  lemma {:induction false} RepliesToBatch(b: seq<Reply>, id: CallId)
    requires forall i :: 0 <= i < |b| ==> b[i].call == id
    ensures RepliesTo(b, id) == |b|
    decreases |b|
  {
    if b != [] {
      RepliesToBatch(b[..|b| - 1], id);
    }
  }

  /** A batch of replies all addressed to `id` adds nothing to the count of any other call. */
  lemma {:induction false} RepliesToBatchOthers(b: seq<Reply>, id: CallId, other: CallId)
    requires forall i :: 0 <= i < |b| ==> b[i].call == id
    requires other != id
    ensures RepliesTo(b, other) == 0
    decreases |b|
  {
    if b != [] {
      RepliesToBatchOthers(b[..|b| - 1], id, other);
    }
  }

  /** The Flutter side: replies received on result objects, and methods invoked on it. */
  class Host {
    var replies: seq<Reply>
    var invocations: seq<string>

    constructor ()
      ensures replies == [] && invocations == []
    {
      replies := [];
      invocations := [];
    }

    /** `result.success(payload)` on the result object of call `id`. */
    method SendSuccess(id: CallId, payload: Payload)
      modifies this
      ensures replies == old(replies) + [Reply(id, Success(payload))]
      ensures invocations == old(invocations)
    {
      replies := replies + [Reply(id, Success(payload))];
    }

    /** `result.notImplemented()` on the result object of call `id`. */
    method SendNotImplemented(id: CallId)
      modifies this
      ensures replies == old(replies) + [Reply(id, NotImplemented)]
      ensures invocations == old(invocations)
    {
      replies := replies + [Reply(id, NotImplemented)];
    }

    /** `methodChannel.invokeMethod(name, null)`. */
    method InvokeMethod(name: string)
      modifies this
      ensures invocations == old(invocations) + [name]
      ensures replies == old(replies)
    {
      invocations := invocations + [name];
    }
  }
}
