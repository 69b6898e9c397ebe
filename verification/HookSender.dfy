/** deliverProviderHookWithSpooling(): deliver, start the observer, deliver again, spool. */
module HookSender {
  import opened Wrappers

  datatype HookStatus = IsIngested | IsSpooled | IsRejected

  datatype Receipt = Receipt(hookId: string, status: HookStatus, error: Option<string>)

  /** What became of a call: an answer, or an exception, a refused connection or a timeout. */
  datatype Call<T> = Answer(value: T) | Failure(error: string)

  datatype Attempt = Attempt(receipt: Option<Receipt>, error: Option<string>)

  const HOOK_REJECTED := "HOOK_REJECTED"

  /** deliverHook(): any answer other than "ingested" is turned into a failure. */
  function DeliverHook(call: Call<Receipt>): Call<Receipt> {
    if call.Answer? && !call.value.status.IsIngested? then Failure(call.value.error.Or(HOOK_REJECTED)) else call
  }

  function AttemptDelivery(call: Call<Receipt>): Attempt {
    var delivery := DeliverHook(call);
    if delivery.Answer? && delivery.value.status.IsIngested? then Attempt(Some(delivery.value), None)
    else if delivery.Answer? then Attempt(None, delivery.value.error)
    else Attempt(None, Some(delivery.error))
  }

  /** An attempt ends with an ingested receipt or with an error to spool, never with neither or both. */
  lemma AttemptIsDecided(call: Call<Receipt>)
    ensures var a := AttemptDelivery(call);
            && (a.receipt.Some? <==> a.error.None?)
            && (a.receipt.Some? <==> call.Answer? && call.value.status.IsIngested?)
            && (a.receipt.Some? ==> a.receipt == Some(call.value))
  {
  }

  /** The error to spool is the observer's own if it gave one, or that of the failed call. */
  lemma AttemptErrorIs(call: Call<Receipt>)
    requires !(call.Answer? && call.value.status.IsIngested?)
    ensures AttemptDelivery(call).error ==
            Some(if call.Failure? then call.error
                 else if call.value.error.Some? then call.value.error.value else "HOOK_REJECTED")
  {
  }

  /** The observable effects of one send, in order. */
  datatype Effect = Delivered(ok: bool) | StartTried(ok: bool) | SpoolTried(error: Option<string>, ok: bool)

  datatype Environment = Environment(
    first: Call<Receipt>, start: Call<()>, second: Call<Receipt>, spoolWorks: bool)

  class Sender {
    const hookId: string
    var effects: seq<Effect>

    constructor (hookId: string)
      ensures this.hookId == hookId && effects == []
    {
      this.hookId := hookId;
      effects := [];
    }

    method Deliver(call: Call<Receipt>) returns (attempt: Attempt)
      modifies `effects
      ensures attempt == AttemptDelivery(call)
      ensures effects == old(effects) + [Delivered(attempt.receipt.Some?)]
    {
      attempt := AttemptDelivery(call);
      effects := effects + [Delivered(attempt.receipt.Some?)];
    }

    /** The spool write either yields a "spooled" receipt or throws. */
    method Spool(error: Option<string>, works: bool) returns (result: Call<Receipt>)
      modifies `effects
      ensures effects == old(effects) + [SpoolTried(error, works)]
      ensures result == if works then Answer(Receipt(hookId, IsSpooled, error)) else Failure("HOOK_SPOOL_WRITE_FAILED")
    {
      effects := effects + [SpoolTried(error, works)];
      result := if works then Answer(Receipt(hookId, IsSpooled, error)) else Failure("HOOK_SPOOL_WRITE_FAILED");
    }

    /**
     * The whole send. A receipt says "ingested" exactly when some delivery succeeded, and there is a spool write
     * exactly when none did; the observer is started only after a failed delivery, and only a started one is retried.
     */
    method Send(env: Environment, autoStart: bool) returns (result: Call<Receipt>, ghost trace: seq<Effect>)
      modifies `effects
      ensures effects == old(effects) + trace && IsTrace(trace, env, autoStart, result)
    {
      var first := Deliver(env.first);
      AttemptIsDecided(env.first);
      trace := [Delivered(first.receipt.Some?)];
      if first.receipt.Some? {
        result := Answer(first.receipt.value);
        return;
      }
      var error := first.error;
      if autoStart {
        effects := effects + [StartTried(env.start.Answer?)];
        trace := trace + [StartTried(env.start.Answer?)];
        if env.start.Answer? {
          var second := Deliver(env.second);
          AttemptIsDecided(env.second);
          trace := trace + [Delivered(second.receipt.Some?)];
          if second.receipt.Some? {
            result := Answer(second.receipt.value);
            return;
          }
          error := second.error;
        } else {
          error := Some(env.start.error);
        }
      }
      result := Spool(error, env.spoolWorks);
      trace := trace + [SpoolTried(error, env.spoolWorks)];
    }
  }

  /** The order in which the effects of a send happen and what its result says about them. */
  ghost predicate IsTrace(trace: seq<Effect>, env: Environment, autoStart: bool, result: Call<Receipt>) {
    && 0 < |trace| <= 4 && trace[0].Delivered?
    && (forall k :: 0 <= k < |trace| - 1 && trace[k].Delivered? ==> !trace[k].ok)
    && (forall k :: 0 < k < |trace| && trace[k].StartTried? ==> k == 1 && autoStart && trace[0] == Delivered(false))
    && (forall k :: 0 < k < |trace| && trace[k].Delivered? ==> k == 2 && trace[1] == StartTried(true))
    && (forall k :: 0 <= k < |trace| && trace[k].SpoolTried? ==> k == |trace| - 1)
    && (IsIngestedResult(result) <==> Delivered(true) in trace)
    && (trace[|trace| - 1].SpoolTried? <==> Delivered(true) !in trace)
    && (result.Failure? <==> trace[|trace| - 1].SpoolTried? && !env.spoolWorks)
    && (trace[|trace| - 1].SpoolTried? ==>
          trace[|trace| - 1].error ==
            if !autoStart then AttemptDelivery(env.first).error
            else if env.start.Failure? then Some(env.start.error)
            else AttemptDelivery(env.second).error)
  }

  predicate IsIngestedResult(result: Call<Receipt>) {
    result.Answer? && result.value.status.IsIngested?
  }
}
