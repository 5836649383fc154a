// One broker delivery: consumed and acknowledged, retried and acknowledged, or dead-lettered.
module RabbitDelivery {
  import opened Prelude
  import opened EventingModel

  // What the delivery and its surroundings do. A body that is too large, not
  // JSON or not a message is None, and so is an attempt that is not an integer.
  // The first `ackFailures` acknowledgements throw, and so with dead-lettering.
  datatype Setting = Setting(
    body: Option<Envelope>, attempt: Option<int>, eventPolicy: JobPolicy,
    consumeFails: bool, ackFailures: nat, deadLetterFailures: nat, retryable: bool, retryFails: bool)

  // The calls made on the delivery, in order, with how each went.
  datatype Action =
    | Consumed(envelope: Envelope, attempt: int, timeoutMs: nat)
    | ConsumeFailed(envelope: Envelope, attempt: int, timeoutMs: nat)
    | Acked
    | AckFailed
    | RetryConfirmed(delaySeconds: nat)
    | RetryFailed(delaySeconds: nat)
    | DeadLettered
    | DeadLetterFailed

  predicate EventPolicyOk(p: JobPolicy) {
    && 1 <= p.maxAttempts <= 16 && |p.backoffSeconds| == p.maxAttempts - 1
    && (forall i :: 0 <= i < |p.backoffSeconds| ==> 1 <= p.backoffSeconds[i] <= 86400)
    && 100 <= p.timeoutMs <= 900000
  }

  // The policy in force when something goes wrong: the job's own as soon as the
  // message has been read.
  function RetryPolicy(s: Setting): JobPolicy {
    if HeaderOk(s) && s.body.Some? then DeliveryPolicy(s.eventPolicy, s.body.value) else s.eventPolicy
  }

  predicate HeaderOk(s: Setting) {
    s.attempt.Some? && s.attempt.value >= 1
  }

  predicate Readable(s: Setting) {
    HeaderOk(s) && s.body.Some? && (s.body.value.Job? || EventPolicyOk(s.eventPolicy))
  }

  predicate Retries(s: Setting) {
    s.retryable && s.attempt.Some? && s.attempt.value < RetryPolicy(s).maxAttempts
  }

  // The delay of the retry layer, with the fallback of one second.
  function RetryDelay(s: Setting): nat
    requires s.attempt.Some?
  {
    EventingModel.RetryDelay(RetryPolicy(s), s.attempt.value)
  }

  function Acking(s: Setting, earlier: nat): Action { if earlier < s.ackFailures then AckFailed else Acked }

  function DeadLettering(s: Setting, earlier: nat): Action { if earlier < s.deadLetterFailures then DeadLetterFailed else DeadLettered }

  // The catch block, after so many calls to acknowledge and to dead-letter.
  function Recover(s: Setting, acks: nat, deadLetters: nat): seq<Action> {
    if !Retries(s) then [DeadLettering(s, deadLetters)]
    else if s.retryFails then [RetryFailed(RetryDelay(s))]
    else [RetryConfirmed(RetryDelay(s)), Acking(s, acks)]
  }

  function Handle(s: Setting): seq<Action> {
    if !Readable(s) then Recover(s, 0, 0)
    else if s.attempt.value > RetryPolicy(s).maxAttempts then
      if s.deadLetterFailures == 0 then [DeadLettered] else [DeadLetterFailed] + Recover(s, 0, 1)
    else if s.consumeFails then [ConsumeFailed(s.body.value, s.attempt.value, RetryPolicy(s).timeoutMs)] + Recover(s, 0, 0)
    else if s.ackFailures > 0 then [Consumed(s.body.value, s.attempt.value, RetryPolicy(s).timeoutMs), AckFailed] + Recover(s, 1, 0)
    else [Consumed(s.body.value, s.attempt.value, RetryPolicy(s).timeoutMs), Acked]
  }

  class Delivery {
    const setting: Setting
    var log: seq<Action>
    var acks: nat
    var deadLetters: nat

    constructor (setting: Setting)
      ensures this.setting == setting && log == [] && acks == deadLetters == 0
    {
      this.setting, log := setting, [];
      acks, deadLetters := 0, 0;
    }

    method Ack() returns (done: bool)
      modifies this
      ensures done <==> old(acks) >= setting.ackFailures
      ensures log == old(log) + [Acking(setting, old(acks))] && acks == old(acks) + 1 && deadLetters == old(deadLetters)
    {
      done := acks >= setting.ackFailures;
      log := log + [if done then Acked else AckFailed];
      acks := acks + 1;
    }

    method DeadLetter() returns (done: bool)
      modifies this
      ensures done <==> old(deadLetters) >= setting.deadLetterFailures
      ensures log == old(log) + [DeadLettering(setting, old(deadLetters))] && deadLetters == old(deadLetters) + 1 && acks == old(acks)
    {
      done := deadLetters >= setting.deadLetterFailures;
      log := log + [if done then DeadLettered else DeadLetterFailed];
      deadLetters := deadLetters + 1;
    }

    method Retry(delaySeconds: nat) returns (confirmed: bool)
      modifies this`log
      ensures confirmed == !setting.retryFails
      ensures log == old(log) + [if confirmed then RetryConfirmed(delaySeconds) else RetryFailed(delaySeconds)]
    {
      confirmed := !setting.retryFails;
      log := log + [if confirmed then RetryConfirmed(delaySeconds) else RetryFailed(delaySeconds)];
    }

    // The catch block, under the policy the try block had reached.
    method AfterError(retryPolicy: JobPolicy)
      requires retryPolicy == RetryPolicy(setting)
      modifies this
      ensures log == old(log) + Recover(setting, old(acks), old(deadLetters))
    {
      if setting.retryable && setting.attempt.Some? && setting.attempt.value < retryPolicy.maxAttempts {
        var index := setting.attempt.value - 1;
        var delay := if 0 <= index < |retryPolicy.backoffSeconds| then retryPolicy.backoffSeconds[index] else 1;
        var confirmed := Retry(delay);
        if confirmed {
          var _ := Ack();
        }
      } else {
        var _ := DeadLetter();
      }
    }

    method HandleRabbitDelivery()
      requires acks == deadLetters == 0
      modifies this
      ensures log == old(log) + Handle(setting)
    {
      var retryPolicy := setting.eventPolicy;
      if setting.attempt.None? || setting.attempt.value < 1 || setting.body.None? {
        AfterError(retryPolicy);
        return;
      }
      var message, attempt := setting.body.value, setting.attempt.value;
      if message.Job? {
        retryPolicy := message.policy;
      } else if !EventPolicyOk(retryPolicy) {
        AfterError(retryPolicy);
        return;
      }
      if attempt > retryPolicy.maxAttempts {
        var deadLettered := DeadLetter();
        if !deadLettered {
          AfterError(retryPolicy);
        }
        return;
      }
      if setting.consumeFails {
        log := log + [ConsumeFailed(message, attempt, retryPolicy.timeoutMs)];
        AfterError(retryPolicy);
        return;
      }
      log := log + [Consumed(message, attempt, retryPolicy.timeoutMs)];
      var acked := Ack();
      if !acked {
        AfterError(retryPolicy);
      }
    }
  }

  // --------------------------------------------------------------- dispositions

  predicate Disposes(a: Action) {
    a.Acked? || a.DeadLettered?
  }

  function Dispositions(log: seq<Action>): nat {
    if log == [] then 0 else (if Disposes(log[0]) then 1 else 0) + Dispositions(log[1..])
  }

  lemma {:induction false} DispositionsAppend(a: seq<Action>, b: seq<Action>)
    ensures Dispositions(a + b) == Dispositions(a) + Dispositions(b)
  {
    if a == [] {
      assert a + b == b;
    } else {
      DispositionsAppend(a[1..], b);
      assert (a + b)[1..] == a[1..] + b;
    }
  }

  // Whether the catch block leaves the delivery as it is.
  predicate RecoveryFails(s: Setting, acks: nat, deadLetters: nat) {
    if Retries(s) then s.retryFails || acks < s.ackFailures else deadLetters < s.deadLetterFailures
  }

  lemma {:induction false} RecoveryDisposes(s: Setting, acks: nat, deadLetters: nat)
    ensures Dispositions(Recover(s, acks, deadLetters)) == (if RecoveryFails(s, acks, deadLetters) then 0 else 1)
  {
    if Retries(s) && !s.retryFails {
      DispositionsAppend([RetryConfirmed(RetryDelay(s))], [Acking(s, acks)]);
      assert [RetryConfirmed(RetryDelay(s))][1..] == [] && [Acking(s, acks)][1..] == [];
      assert Recover(s, acks, deadLetters) == [RetryConfirmed(RetryDelay(s))] + [Acking(s, acks)];
    }
  }

  predicate WithinLimit(s: Setting)
    requires Readable(s)
  {
    s.attempt.value <= RetryPolicy(s).maxAttempts
  }

  // The delivery is neither acknowledged nor dead-lettered.
  predicate LeftOpen(s: Setting) {
    if !Readable(s) then RecoveryFails(s, 0, 0)
    else if !WithinLimit(s) then s.deadLetterFailures > 0 && RecoveryFails(s, 0, 1)
    else if s.consumeFails then RecoveryFails(s, 0, 0)
    else s.ackFailures > 0 && RecoveryFails(s, 1, 0)
  }

  // A delivery is acknowledged or dead-lettered exactly once, except when the
  // retry copy could not be confirmed or the call that should do it throws in
  // the catch block: then it is left to the broker.
  lemma {:induction false} OneDisposition(s: Setting)
    ensures Dispositions(Handle(s)) == (if LeftOpen(s) then 0 else 1)
  {
    hide Recover, RecoveryFails;
    RecoveryDisposes(s, 0, 0);
    RecoveryDisposes(s, 0, 1);
    RecoveryDisposes(s, 1, 0);
    if Readable(s) {
      var envelope, attempt, timeout := s.body.value, s.attempt.value, RetryPolicy(s).timeoutMs;
      var failed, consumed := ConsumeFailed(envelope, attempt, timeout), Consumed(envelope, attempt, timeout);
      DispositionsAppend([failed], Recover(s, 0, 0));
      DispositionsAppend([DeadLetterFailed], Recover(s, 0, 1));
      DispositionsAppend([consumed, AckFailed], Recover(s, 1, 0));
      DispositionsAppend([consumed], [AckFailed]);
      DispositionsAppend([consumed], [Acked]);
      assert [consumed] + [AckFailed] == [consumed, AckFailed] && [consumed] + [Acked] == [consumed, Acked];
      assert [failed][1..] == [] && [consumed][1..] == [] && [AckFailed][1..] == [] && [Acked][1..] == [] && [DeadLetterFailed][1..] == [];
    }
  }
}
