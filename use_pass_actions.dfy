/**
 * The pass action gateway (src/hooks/usePassActions.ts): create and revoke
 * wrapped in an in-flight flag each, one shared error cell, an optional
 * success callback, and a rejected promise when the service call throws.
 */
module UsePassActions {
  import opened Types

  const CreateFailedMessage := "Failed to create pass"
  const RevokeFailedMessage := "Failed to revoke pass"

  /** How the promise an action returns settles: `true`, or the thrown error re-thrown. */
  datatype Settled = Fulfilled(value: bool) | Rejected(reason: Thrown)

  class PassActions {
    /** Whether the hook was given an `onSuccess` callback. */
    const hasOnSuccess: bool
    var isCreating: bool
    var isRevoking: bool
    var error: Option<string>
    /** How many times `onSuccess` has been invoked. */
    var successCalls: nat

    constructor (hasOnSuccess: bool)
      ensures this.hasOnSuccess == hasOnSuccess
      ensures !isCreating && !isRevoking && error.None? && successCalls == 0
    {
      this.hasOnSuccess := hasOnSuccess;
      isCreating, isRevoking := false, false;
      error := None;
      successCalls := 0;
    }

    /** `createPass` up to its await: the flag goes up and the old error is cleared. */
    method BeginCreate()
      modifies this`isCreating, this`error
      ensures isCreating && error.None?
    {
      isCreating := true;
      error := None;
    }

    /**
     * `createPass` after its await. The `finally` lowers the flag whatever happens. On
     * success `onSuccess` runs inside the `try` when it was given;
     * `callbackThrows` is what it throws, None when it returns normally, and
     * a throw from it is caught like a failed call.
     */
    method SettleCreate(outcome: Outcome<SponsorPass>, callbackThrows: Option<Thrown>) returns (r: Settled)
      modifies this`isCreating, this`error, this`successCalls
      ensures !isCreating
      ensures outcome.Resolved? ==> successCalls == old(successCalls) + (if hasOnSuccess then 1 else 0)
      ensures outcome.Resolved? && (!hasOnSuccess || callbackThrows.None?) ==>
        r == Fulfilled(true) && error == old(error)
      ensures outcome.Resolved? && hasOnSuccess && callbackThrows.Some? ==>
        && r == Rejected(callbackThrows.value)
        && error == Some(ErrorText(callbackThrows.value, CreateFailedMessage))
      ensures outcome.Threw? ==>
        && r == Rejected(outcome.error) && successCalls == old(successCalls)
        && error == Some(ErrorText(outcome.error, CreateFailedMessage))
    {
      var thrown: Option<Thrown> := None;
      match outcome {
        case Resolved(_) =>
          if hasOnSuccess {
            successCalls := successCalls + 1;
            thrown := callbackThrows;
          }
        case Threw(e) =>
          thrown := Some(e);
      }
      match thrown {
        case None =>
          r := Fulfilled(true);
        case Some(e) =>
          error := Some(ErrorText(e, CreateFailedMessage));
          r := Rejected(e);
      }
      isCreating := false;
    }

    /** A whole `createPass(data)`: `sent` is what reaches the service. */
    method CreatePass(data: CreateSponsorPassRequest, outcome: Outcome<SponsorPass>, callbackThrows: Option<Thrown>)
      returns (sent: CreateSponsorPassRequest, r: Settled)
      modifies this`isCreating, this`error, this`successCalls
      ensures sent == data && !isCreating
      ensures outcome.Resolved? ==> successCalls == old(successCalls) + (if hasOnSuccess then 1 else 0)
      ensures outcome.Resolved? && (!hasOnSuccess || callbackThrows.None?) ==>
        r == Fulfilled(true) && error.None?
      ensures outcome.Resolved? && hasOnSuccess && callbackThrows.Some? ==>
        && r == Rejected(callbackThrows.value)
        && error == Some(ErrorText(callbackThrows.value, CreateFailedMessage))
      ensures outcome.Threw? ==>
        && r == Rejected(outcome.error) && successCalls == old(successCalls)
        && error == Some(ErrorText(outcome.error, CreateFailedMessage))
    {
      BeginCreate();
      sent := data;
      r := SettleCreate(outcome, callbackThrows);
    }

    /** `revokePass` up to its await. */
    method BeginRevoke()
      modifies this`isRevoking, this`error
      ensures isRevoking && error.None?
    {
      isRevoking := true;
      error := None;
    }

    /**
     * `revokePass` after its await. The `finally` lowers the flag whatever happens. On
     * success `onSuccess` runs inside the `try` when it was given;
     * `callbackThrows` is what it throws, None when it returns normally, and
     * a throw from it is caught like a failed call.
     */
    method SettleRevoke(outcome: Outcome<SponsorPass>, callbackThrows: Option<Thrown>) returns (r: Settled)
      modifies this`isRevoking, this`error, this`successCalls
      ensures !isRevoking
      ensures outcome.Resolved? ==> successCalls == old(successCalls) + (if hasOnSuccess then 1 else 0)
      ensures outcome.Resolved? && (!hasOnSuccess || callbackThrows.None?) ==>
        r == Fulfilled(true) && error == old(error)
      ensures outcome.Resolved? && hasOnSuccess && callbackThrows.Some? ==>
        && r == Rejected(callbackThrows.value)
        && error == Some(ErrorText(callbackThrows.value, RevokeFailedMessage))
      ensures outcome.Threw? ==>
        && r == Rejected(outcome.error) && successCalls == old(successCalls)
        && error == Some(ErrorText(outcome.error, RevokeFailedMessage))
    {
      var thrown: Option<Thrown> := None;
      match outcome {
        case Resolved(_) =>
          if hasOnSuccess {
            successCalls := successCalls + 1;
            thrown := callbackThrows;
          }
        case Threw(e) =>
          thrown := Some(e);
      }
      match thrown {
        case None =>
          r := Fulfilled(true);
        case Some(e) =>
          error := Some(ErrorText(e, RevokeFailedMessage));
          r := Rejected(e);
      }
      isRevoking := false;
    }

    /** A whole `revokePass(pass)`: only the pass's id is sent. */
    method RevokePass(pass: SponsorPass, outcome: Outcome<SponsorPass>, callbackThrows: Option<Thrown>)
      returns (sent: RevokeSponsorPassRequest, r: Settled)
      modifies this`isRevoking, this`error, this`successCalls
      ensures sent == RevokeSponsorPassRequest(pass.id) && !isRevoking
      ensures outcome.Resolved? ==> successCalls == old(successCalls) + (if hasOnSuccess then 1 else 0)
      ensures outcome.Resolved? && (!hasOnSuccess || callbackThrows.None?) ==>
        r == Fulfilled(true) && error.None?
      ensures outcome.Resolved? && hasOnSuccess && callbackThrows.Some? ==>
        && r == Rejected(callbackThrows.value)
        && error == Some(ErrorText(callbackThrows.value, RevokeFailedMessage))
      ensures outcome.Threw? ==>
        && r == Rejected(outcome.error) && successCalls == old(successCalls)
        && error == Some(ErrorText(outcome.error, RevokeFailedMessage))
    {
      BeginRevoke();
      sent := RevokeSponsorPassRequest(pass.id);
      r := SettleRevoke(outcome, callbackThrows);
    }

    /** `clearError` drops the error and touches neither flag. */
    method ClearError()
      modifies this`error
      ensures error.None?
    {
      error := None;
    }
  }

  /**
   * The hook's tests, replayed: nothing is busy at first, the flag is up while
   * the call is pending, a failure leaves its message, and clearError drops it.
   */
  method CreateScenario() returns (pending: bool, settled: Settled, failedWith: Option<string>, cleared: Option<string>)
    ensures pending
    ensures settled == Rejected(ErrorObject("API Error"))
    ensures failedWith == Some("API Error")
    ensures cleared.None?
  {
    var actions := new PassActions(true);
    actions.BeginCreate();
    pending := actions.isCreating;
    settled := actions.SettleCreate(Threw(ErrorObject("API Error")), None);
    failedWith := actions.error;
    actions.ClearError();
    cleared := actions.error;
  }

  /** A successful create calls `onSuccess` once and fulfils with true. */
  method SuccessScenario(data: CreateSponsorPassRequest, pass: SponsorPass) returns (calls: nat, settled: Settled)
    ensures calls == 1 && settled == Fulfilled(true)
  {
    var actions := new PassActions(true);
    var sent;
    sent, settled := actions.CreatePass(data, Resolved(pass), None);
    calls := actions.successCalls;
  }
}
