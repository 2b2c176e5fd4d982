/** The cashier's credit request dialog: a two-step machine, first the request form,
    then the entry of the code the admin hands out. The calls to the store are not
    part of this model; their outcomes come in as parameters. */
module CreditRequestModal {
  import opened Base
  import opened Text

  datatype Step = RequestStep | VerifyStep

  /** The body `addCreditRequest` receives. */
  datatype RequestPayload = RequestPayload(amount: Option<int>, reason: string, cashier: string, customer: string)

  /** The cashier the form is filled with. */
  const DefaultCashier := "John Doe"

  /** `onChange` of the code field with `maxLength={6}`: upper-cased and at most six
      characters. */
  function CodeInput(typed: string): (r: string)
    ensures |r| <= 6 && |r| <= |typed|
    ensures forall i :: 0 <= i < |r| ==> r[i] == UpperChar(typed[i]) && !IsLower(r[i])
    ensures |typed| <= 6 ==> r == Upper(typed)
  {
    var up := Upper(typed);
    if |up| <= 6 then up else up[..6]
  }

  class CreditRequestDialog {
    var step: Step
    var amount: string
    var reason: string
    var cashier: string
    var code: string
    var result: Option<bool>
    var loading: bool

    /** The state every reset returns to. */
    predicate Fresh()
      reads this
    {
      step == RequestStep && amount == "" && reason == "" && cashier == DefaultCashier && code == ""
      && result.None?
    }

    constructor ()
      ensures Fresh() && !loading
    {
      step, amount, reason, cashier, code, result, loading := RequestStep, "", "", DefaultCashier, "", None, false;
    }

    method EditAmount(text: string)
      modifies this`amount
      ensures amount == text
    {
      amount := text;
    }

    method EditReason(text: string)
      modifies this`reason
      ensures reason == text
    {
      reason := text;
    }

    method EditCode(typed: string)
      modifies this`code
      ensures code == CodeInput(typed)
      ensures |code| <= 6
      ensures !VerifyDisabled() <==> !loading && |typed| >= 6
    {
      code := CodeInput(typed);
    }

    /** The Verify button. */
    function VerifyDisabled(): (r: bool)
      reads this
      ensures !r <==> |code| == 6 && !loading
    {
      loading || |code| != 6
    }

    /** `handleSubmitRequest`: the form with the customer and the amount through
        `parseInt`; the dialog moves to the code step only when the call went through. */
    method SubmitRequest(customerName: string, accepted: bool) returns (payload: RequestPayload)
      modifies this`step, this`loading
      ensures payload == RequestPayload(ParseInt(old(amount)), old(reason), old(cashier), customerName)
      ensures step == if accepted then VerifyStep else old(step)
      ensures !loading
    {
      loading := true;
      payload := RequestPayload(ParseInt(amount), reason, cashier, customerName);
      if accepted {
        step := VerifyStep;
      }
      loading := false;
    }

    /** `handleVerifyCode` once the store answers: `reply` is the `valid` flag, or None
        when the call threw, which counts as invalid. The two-second close is scheduled
        exactly for a valid code; until it fires the dialog stays on the code step. */
    method VerifyAnswered(reply: Option<bool>) returns (scheduleClose: bool)
      modifies this`result, this`loading
      ensures result == Some(reply.Some? && reply.value)
      ensures scheduleClose <==> reply == Some(true)
      ensures !loading
    {
      loading := true;
      if reply.Some? {
        result := Some(reply.value);
      } else {
        result := Some(false);
      }
      scheduleClose := reply == Some(true);
      loading := false;
    }

    /** The delayed close after an approved code: everything back to the start. */
    method CloseAfterApproval()
      modifies this`step, this`amount, this`reason, this`cashier, this`code, this`result
      ensures Fresh()
    {
      Close();
    }

    /** `handleClose` */
    method Close()
      modifies this`step, this`amount, this`reason, this`cashier, this`code, this`result
      ensures Fresh()
    {
      step, amount, reason, cashier, code, result := RequestStep, "", "", DefaultCashier, "", None;
    }

    /** Back: to the form, the typed code and the last result kept. */
    method Back()
      modifies this`step
      ensures step == RequestStep
    {
      step := RequestStep;
    }

    /** What the result banner says, if anything. */
    function Banner(): (r: Option<string>)
      reads this
      ensures r.None? <==> result.None?
      ensures r == Some("Credit approved! Processing...") <==> result == Some(true)
    {
      match result
      case None => None
      case Some(valid) => Some(if valid then "Credit approved! Processing..." else "Invalid verification code")
    }
  }

  /** A code the field accepted can be submitted only when it has exactly six
      characters, none of them lower case. */
  lemma SubmittableCode(typed: string)
    requires |CodeInput(typed)| == 6
    ensures |typed| >= 6 && CodeInput(typed) == Upper(typed)[..6]
    ensures forall i :: 0 <= i < 6 ==> !IsLower(CodeInput(typed)[i])
  {
  }
}
