/** `call_api`, identical in the streaming chat program and the research
    agent: call the completion service until it answers; a failure whose text
    mentions "maximum context length" trims the conversation and retries at
    once, any other failure counts against a budget of seven with exponential
    sleeps in between, and the seventh counted failure is re-raised.

    The service is a script: `script(i)` is the outcome of the i-th call
    (numbered from 0). Completions and messages are opaque (`C`, `M`); the
    sleeps are recorded instead of performed. */
module Retry {
  import opened Basics

  const MaxRetry: nat := 7
  const ContextLengthMarker: string := "maximum context length"

  datatype ApiOutcome<C> = Completed(completion: C) | Failed(message: string)

  /** What `msgs` holds: a list of messages or, after the as-written trim, a
      single message dictionary. */
  datatype Payload<M> = Messages(msgs: seq<M>) | OneMessage(msg: M)

  /** The exceptions `call_api` lets escape: the service's own error, `pop`
      on an empty list (IndexError) and `pop(0)` on a dictionary (KeyError). */
  datatype CallError = ServiceError(message: string) | PopFromEmptyList | MissingKey

  /** How a call ended, with the sleeps taken on the way and the number of
      service calls made. */
  datatype CallResult<C, M> =
    | Returned(completion: C, sent: Payload<M>, sleeps: seq<nat>, calls: nat)
    | Raised(error: CallError, sleeps: seq<nat>, calls: nat)

  /** `DropOldest` removes the first message and keeps the rest;
      `AsWritten` is `msgs = msgs.pop(0)`, which keeps only the removed one. */
  datatype TrimPolicy = DropOldest | AsWritten

  function Pow2(n: nat): nat
  {
    if n == 0 then 1 else 2 * Pow2(n - 1)
  }

  /** `2 ** (retry - 1) * 5` seconds: the sleep after the `retry`-th counted failure. */
  function Backoff(retry: nat): nat
    requires retry >= 1
  {
    Pow2(retry - 1) * 5
  }

  /** The sleeps after the first `n` counted failures, in order. */
  function BackoffSchedule(n: nat): (r: seq<nat>)
    ensures |r| == n
    ensures forall k :: 0 <= k < n ==> r[k] == Backoff(k + 1)
  {
    if n == 0 then [] else BackoffSchedule(n - 1) + [Backoff(n)]
  }

  predicate IsContextLengthError(message: string)
  {
    Contains(message, ContextLengthMarker)
  }

  /** Failures among the first `n` calls that count against the retry budget. */
  function CountedFailures<C>(script: nat -> ApiOutcome<C>, n: nat): nat
  {
    if n == 0 then 0
    else CountedFailures(script, n - 1)
         + (if script(n - 1).Failed? && !IsContextLengthError(script(n - 1).message) then 1 else 0)
  }

  /** Context-length failures among the first `n` calls. */
  function ContextFailures<C>(script: nat -> ApiOutcome<C>, n: nat): nat
  {
    if n == 0 then 0
    else ContextFailures(script, n - 1)
         + (if script(n - 1).Failed? && IsContextLengthError(script(n - 1).message) then 1 else 0)
  }

  predicate AllFailed<C>(script: nat -> ApiOutcome<C>, n: nat)
  {
    forall i :: 0 <= i < n ==> script(i).Failed?
  }

  function Size<M>(payload: Payload<M>): nat
  {
    match payload
    case Messages(s) => |s| + 1
    case OneMessage(_) => 0
  }

  /** The context-length recovery step under either policy. */
  function Trim<M>(policy: TrimPolicy, payload: Payload<M>): (r: Result<Payload<M>, CallError>)
    ensures r.Ok? ==> Size(r.value) < Size(payload)
    ensures r.Ok? <==> payload.Messages? && |payload.msgs| > 0
    ensures r.Err? ==> r.error == (if payload.OneMessage? then MissingKey else PopFromEmptyList)
  {
    match payload
    case OneMessage(_) => Err(MissingKey)
    case Messages(s) =>
      if |s| == 0 then Err(PopFromEmptyList)
      else if policy == DropOldest then Ok(Messages(s[1..]))
      else Ok(OneMessage(s[0]))
  }

  /** The `while True` loop, entered after `calls` calls of which `retry`
      were counted failures. */
  function Loop<C(==), M>(policy: TrimPolicy, script: nat -> ApiOutcome<C>, payload: Payload<M>,
                          retry: nat, calls: nat, sleeps: seq<nat>): (r: CallResult<C, M>)
    requires retry < MaxRetry
    requires retry == CountedFailures(script, calls)
    requires AllFailed(script, calls)
    requires sleeps == BackoffSchedule(retry)
    ensures r.calls > calls
    ensures AllFailed(script, r.calls - 1)
    ensures r.sleeps == BackoffSchedule(|r.sleeps|)
    ensures r.Returned? ==> script(r.calls - 1) == Completed(r.completion)
    ensures r.Returned? ==> |r.sleeps| == CountedFailures(script, r.calls) < MaxRetry
    ensures r.Raised? ==> script(r.calls - 1).Failed?
    ensures r.Raised? && r.error.ServiceError? ==>
              && r.error.message == script(r.calls - 1).message
              && !IsContextLengthError(r.error.message)
              && CountedFailures(script, r.calls) == MaxRetry
              && |r.sleeps| == MaxRetry - 1
    ensures r.Raised? && !r.error.ServiceError? ==>
              && IsContextLengthError(script(r.calls - 1).message)
              && |r.sleeps| == CountedFailures(script, r.calls) < MaxRetry
    decreases MaxRetry - retry, Size(payload)
  {
    match script(calls)
    case Completed(c) => Returned(c, payload, sleeps, calls + 1)
    case Failed(m) =>
      if IsContextLengthError(m) then
        match Trim(policy, payload)
        case Err(e) => Raised(e, sleeps, calls + 1)
        case Ok(trimmed) => Loop(policy, script, trimmed, retry, calls + 1, sleeps)
      else if retry + 1 >= MaxRetry then Raised(ServiceError(m), sleeps, calls + 1)
      else Loop(policy, script, payload, retry + 1, calls + 1, sleeps + [Backoff(retry + 1)])
  }

  /** `call_api(msgs, ...)` with the context-length recovery dropping the
      oldest message. */
  function CallApi<C(==), M>(script: nat -> ApiOutcome<C>, msgs: seq<M>): (r: CallResult<C, M>)
    ensures r.calls >= 1
    ensures AllFailed(script, r.calls - 1)
    ensures r.Returned? ==> script(r.calls - 1) == Completed(r.completion)
    ensures r.Returned? ==> |r.sleeps| == CountedFailures(script, r.calls)
    ensures |r.sleeps| < MaxRetry
    ensures forall k :: 0 <= k < |r.sleeps| ==> r.sleeps[k] == 5 * Pow2(k)
    ensures r.Raised? && r.error.ServiceError? ==>
              && script(r.calls - 1) == Failed(r.error.message)
              && !IsContextLengthError(r.error.message)
              && CountedFailures(script, r.calls) == MaxRetry
  {
    Loop(DropOldest, script, Messages(msgs), 0, 0, [])
  }

  /** `call_api` exactly as written, with `msgs = msgs.pop(0)`. */
  function CallApiAsWritten<C(==), M>(script: nat -> ApiOutcome<C>, msgs: seq<M>): (r: CallResult<C, M>)
    ensures r.calls >= 1
    ensures AllFailed(script, r.calls - 1)
    ensures r.Returned? ==> script(r.calls - 1) == Completed(r.completion)
    ensures r.Returned? ==> |r.sleeps| == CountedFailures(script, r.calls)
    ensures |r.sleeps| < MaxRetry
    ensures forall k :: 0 <= k < |r.sleeps| ==> r.sleeps[k] == 5 * Pow2(k)
    ensures r.Raised? && r.error.ServiceError? ==>
              && script(r.calls - 1) == Failed(r.error.message)
              && !IsContextLengthError(r.error.message)
              && CountedFailures(script, r.calls) == MaxRetry
  {
    Loop(AsWritten, script, Messages(msgs), 0, 0, [])
  }

  /** When the budget is exhausted the sleeps were exactly 5, 10, 20, 40, 80
      and 160 seconds. */
  lemma ExhaustedSleeps<C, M>(script: nat -> ApiOutcome<C>, msgs: seq<M>)
    requires CallApi(script, msgs).Raised? && CallApi(script, msgs).error.ServiceError?
    ensures CallApi(script, msgs).sleeps == [5, 10, 20, 40, 80, 160]
  {
  }

  /** The messages of a successful call are the original ones minus one
      oldest message per context-length failure before it; KeyError never
      escapes, and IndexError only once every message has been dropped. */
  predicate DroppedOldest<C, M(==)>(r: CallResult<C, M>, script: nat -> ApiOutcome<C>, msgs: seq<M>)
  {
    && (r.Returned? ==> ContextFailures(script, r.calls) <= |msgs|
                        && r.sent == Messages(msgs[ContextFailures(script, r.calls)..]))
    && (r.Raised? ==> r.error != MissingKey)
    && (r.Raised? && r.error == PopFromEmptyList ==> ContextFailures(script, r.calls) == |msgs| + 1)
  }

  /** As written: without a context-length failure the original list is
      sent; after one, only its oldest message is; a second one raises KeyError,
      and KeyError arises at no other point. */
  predicate KeptOldestOnly<C, M(==)>(r: CallResult<C, M>, script: nat -> ApiOutcome<C>, msgs: seq<M>)
  {
    && (r.Returned? ==> (ContextFailures(script, r.calls) == 0 && r.sent == Messages(msgs))
                        || (ContextFailures(script, r.calls) == 1 && |msgs| > 0 && r.sent == OneMessage(msgs[0])))
    && (r.Raised? && r.error == MissingKey ==> ContextFailures(script, r.calls) == 2)
    && (r.Raised? && !r.error.ServiceError? && ContextFailures(script, r.calls) == 2 ==> r.error == MissingKey)
  }

  lemma ContextStep<C>(script: nat -> ApiOutcome<C>, calls: nat)
    requires script(calls).Failed?
    ensures IsContextLengthError(script(calls).message) ==>
              && ContextFailures(script, calls + 1) == ContextFailures(script, calls) + 1
              && CountedFailures(script, calls + 1) == CountedFailures(script, calls)
    ensures !IsContextLengthError(script(calls).message) ==>
              && ContextFailures(script, calls + 1) == ContextFailures(script, calls)
              && CountedFailures(script, calls + 1) == CountedFailures(script, calls) + 1
  {
  }

  lemma {:induction false} LoopDropsOldest<C, M>(script: nat -> ApiOutcome<C>, msgs: seq<M>,
                                                 retry: nat, calls: nat, sleeps: seq<nat>)
    requires retry < MaxRetry
    requires retry == CountedFailures(script, calls)
    requires AllFailed(script, calls)
    requires sleeps == BackoffSchedule(retry)
    requires ContextFailures(script, calls) <= |msgs|
    ensures DroppedOldest(Loop(DropOldest, script, Messages(msgs[ContextFailures(script, calls)..]), retry, calls, sleeps),
                          script, msgs)
    decreases MaxRetry - retry, |msgs| - ContextFailures(script, calls), 1
  {
    var n := ContextFailures(script, calls);
    if script(calls).Completed? {
      assert ContextFailures(script, calls + 1) == n;
    } else if IsContextLengthError(script(calls).message) {
      DropsOldestAfterOverflow(script, msgs, retry, calls, sleeps);
    } else {
      DropsOldestAfterFailure(script, msgs, retry, calls, sleeps);
    }
  }

  lemma {:induction false} DropsOldestAfterOverflow<C, M>(script: nat -> ApiOutcome<C>, msgs: seq<M>,
                                                          retry: nat, calls: nat, sleeps: seq<nat>)
    requires retry < MaxRetry
    requires retry == CountedFailures(script, calls)
    requires AllFailed(script, calls)
    requires sleeps == BackoffSchedule(retry)
    requires ContextFailures(script, calls) <= |msgs|
    requires script(calls).Failed? && IsContextLengthError(script(calls).message)
    ensures DroppedOldest(Loop(DropOldest, script, Messages(msgs[ContextFailures(script, calls)..]), retry, calls, sleeps),
                          script, msgs)
    decreases MaxRetry - retry, |msgs| - ContextFailures(script, calls), 0
  {
    var n := ContextFailures(script, calls);
    ContextStep(script, calls);
    if n < |msgs| {
      assert msgs[n..][1..] == msgs[n + 1..];
      LoopDropsOldest(script, msgs, retry, calls + 1, sleeps);
    }
  }

  lemma {:induction false} DropsOldestAfterFailure<C, M>(script: nat -> ApiOutcome<C>, msgs: seq<M>,
                                                         retry: nat, calls: nat, sleeps: seq<nat>)
    requires retry < MaxRetry
    requires retry == CountedFailures(script, calls)
    requires AllFailed(script, calls)
    requires sleeps == BackoffSchedule(retry)
    requires ContextFailures(script, calls) <= |msgs|
    requires script(calls).Failed? && !IsContextLengthError(script(calls).message)
    ensures DroppedOldest(Loop(DropOldest, script, Messages(msgs[ContextFailures(script, calls)..]), retry, calls, sleeps),
                          script, msgs)
    decreases MaxRetry - retry, |msgs| - ContextFailures(script, calls), 0
  {
    ContextStep(script, calls);
    if retry + 1 < MaxRetry {
      LoopDropsOldest(script, msgs, retry + 1, calls + 1, sleeps + [Backoff(retry + 1)]);
    }
  }

  /** The corrected `call_api` drops exactly one oldest message per
      context-length failure and never raises KeyError. */
  lemma CallApiDropsOldest<C, M>(script: nat -> ApiOutcome<C>, msgs: seq<M>)
    ensures DroppedOldest(CallApi(script, msgs), script, msgs)
  {
    assert msgs[0..] == msgs;
    LoopDropsOldest(script, msgs, 0, 0, []);
  }

  lemma {:induction false} LoopAsWritten<C, M>(script: nat -> ApiOutcome<C>, msgs: seq<M>, payload: Payload<M>,
                                               retry: nat, calls: nat, sleeps: seq<nat>)
    requires retry < MaxRetry
    requires retry == CountedFailures(script, calls)
    requires AllFailed(script, calls)
    requires sleeps == BackoffSchedule(retry)
    requires ContextFailures(script, calls) == 0 ==> payload == Messages(msgs)
    requires ContextFailures(script, calls) == 1 ==> |msgs| > 0 && payload == OneMessage(msgs[0])
    requires ContextFailures(script, calls) <= 1
    ensures KeptOldestOnly(Loop(AsWritten, script, payload, retry, calls, sleeps), script, msgs)
    decreases MaxRetry - retry, Size(payload), 1
  {
    if script(calls).Completed? {
      assert ContextFailures(script, calls + 1) == ContextFailures(script, calls);
    } else if IsContextLengthError(script(calls).message) {
      AsWrittenAfterOverflow(script, msgs, payload, retry, calls, sleeps);
    } else {
      AsWrittenAfterFailure(script, msgs, payload, retry, calls, sleeps);
    }
  }

  lemma {:induction false} AsWrittenAfterOverflow<C, M>(script: nat -> ApiOutcome<C>, msgs: seq<M>, payload: Payload<M>,
                                                        retry: nat, calls: nat, sleeps: seq<nat>)
    requires retry < MaxRetry
    requires retry == CountedFailures(script, calls)
    requires AllFailed(script, calls)
    requires sleeps == BackoffSchedule(retry)
    requires ContextFailures(script, calls) == 0 ==> payload == Messages(msgs)
    requires ContextFailures(script, calls) == 1 ==> |msgs| > 0 && payload == OneMessage(msgs[0])
    requires ContextFailures(script, calls) <= 1
    requires script(calls).Failed? && IsContextLengthError(script(calls).message)
    ensures KeptOldestOnly(Loop(AsWritten, script, payload, retry, calls, sleeps), script, msgs)
    decreases MaxRetry - retry, Size(payload), 0
  {
    ContextStep(script, calls);
    if ContextFailures(script, calls) == 0 && |msgs| > 0 {
      LoopAsWritten(script, msgs, OneMessage(msgs[0]), retry, calls + 1, sleeps);
    }
  }

  lemma {:induction false} AsWrittenAfterFailure<C, M>(script: nat -> ApiOutcome<C>, msgs: seq<M>, payload: Payload<M>,
                                                       retry: nat, calls: nat, sleeps: seq<nat>)
    requires retry < MaxRetry
    requires retry == CountedFailures(script, calls)
    requires AllFailed(script, calls)
    requires sleeps == BackoffSchedule(retry)
    requires ContextFailures(script, calls) == 0 ==> payload == Messages(msgs)
    requires ContextFailures(script, calls) == 1 ==> |msgs| > 0 && payload == OneMessage(msgs[0])
    requires ContextFailures(script, calls) <= 1
    requires script(calls).Failed? && !IsContextLengthError(script(calls).message)
    ensures KeptOldestOnly(Loop(AsWritten, script, payload, retry, calls, sleeps), script, msgs)
    decreases MaxRetry - retry, Size(payload), 0
  {
    ContextStep(script, calls);
    if retry + 1 < MaxRetry {
      LoopAsWritten(script, msgs, payload, retry + 1, calls + 1, sleeps + [Backoff(retry + 1)]);
    }
  }

  /** `call_api` as written hands the service a single message dictionary
      after the first context-length failure and raises KeyError on the second. */
  lemma CallApiAsWrittenKeepsOneMessage<C, M>(script: nat -> ApiOutcome<C>, msgs: seq<M>)
    ensures KeptOldestOnly(CallApiAsWritten(script, msgs), script, msgs)
  {
    LoopAsWritten(script, msgs, Messages(msgs), 0, 0, []);
  }

  /** A service that reports a context overflow on its first `k` calls and
      then answers 7. */
  function OverflowsFirst(k: nat): nat -> ApiOutcome<int>
  {
    (i: nat) => if i < k then Failed(ContextLengthMarker) else Completed(7)
  }

  lemma OverflowIsContextLengthError()
    ensures IsContextLengthError(ContextLengthMarker)
  {
  }

  /** A conversation of two messages whose first call overflows the context:
      as written the retry sends the oldest message alone (a dictionary, not a
      list); with the oldest message dropped it sends the newer one. */
  lemma PopReplacesList(a: int, b: int)
    ensures CallApiAsWritten(OverflowsFirst(1), [a, b]) == Returned(7, OneMessage(a), [], 2)
    ensures CallApi(OverflowsFirst(1), [a, b]) == Returned(7, Messages([b]), [], 2)
  {
    var script := OverflowsFirst(1);
    OverflowIsContextLengthError();
    assert CountedFailures(script, 1) == 0;
    assert [a, b][1..] == [b];
    calc {
      CallApiAsWritten(script, [a, b]);
      Loop(AsWritten, script, Messages([a, b]), 0, 0, []);
      Loop(AsWritten, script, OneMessage(a), 0, 1, []);
      Returned(7, OneMessage(a), [], 2);
    }
    calc {
      CallApi(script, [a, b]);
      Loop(DropOldest, script, Messages([a, b]), 0, 0, []);
      Loop(DropOldest, script, Messages([b]), 0, 1, []);
      Returned(7, Messages([b]), [], 2);
    }
  }

  /** Two overflows in a row: as written the second `pop(0)` is applied to a
      dictionary and raises KeyError; dropping the oldest message recovers. */
  lemma SecondOverflowRaises(a: int, b: int, c: int)
    ensures CallApiAsWritten(OverflowsFirst(2), [a, b, c]) == Raised(MissingKey, [], 2)
    ensures CallApi(OverflowsFirst(2), [a, b, c]) == Returned(7, Messages([c]), [], 3)
  {
    var script := OverflowsFirst(2);
    OverflowIsContextLengthError();
    assert CountedFailures(script, 1) == 0;
    assert CountedFailures(script, 2) == 0;
    assert [a, b, c][1..] == [b, c];
    assert [b, c][1..] == [c];
    calc {
      CallApiAsWritten(script, [a, b, c]);
      Loop(AsWritten, script, Messages([a, b, c]), 0, 0, []);
      Loop(AsWritten, script, OneMessage(a), 0, 1, []);
      Raised(MissingKey, [], 2);
    }
    calc {
      CallApi(script, [a, b, c]);
      Loop(DropOldest, script, Messages([a, b, c]), 0, 0, []);
      Loop(DropOldest, script, Messages([b, c]), 0, 1, []);
      Loop(DropOldest, script, Messages([c]), 0, 2, []);
      Returned(7, Messages([c]), [], 3);
    }
  }
}
