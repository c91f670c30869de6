/** The dialog that sends money to a named recipient: form -> confirm -> success,
    with an optional memo. As in the transfer dialog, the confirm handler's
    two-second wait is split into BeginConfirm and CompleteConfirm. */
module SendMoney {
  import opened BankData

  datatype Step = Form | Confirm | Success

  /** The submit check: recipient and amount must both be filled in; the memo is
      optional. Both are raw field text, so "0" passes. */
  predicate DraftComplete(recipient: string, amount: string) {
    recipient != "" && amount != ""
  }

  /** The toast text for a refused submit; one message for either missing field. */
  const MissingFieldsMessage := "Please fill in all required fields"

  /** The review lists a Memo row only when a memo was typed. */
  predicate ShowsMemoRow(memo: string) {
    memo != ""
  }

  /** The rows of the review, in display order. */
  function ReviewRows(recipient: string, amount: string, memo: string): (rows: seq<(string, string)>)
    ensures |rows| == if ShowsMemoRow(memo) then 4 else 3
    ensures rows[0] == ("To", recipient) && rows[1] == ("Amount", amount)
    ensures ("Memo", memo) in rows <==> ShowsMemoRow(memo)
    ensures rows[|rows| - 1] == ("From", "Checking ****4521")
  {
    [("To", recipient), ("Amount", amount)]
      + (if ShowsMemoRow(memo) then [("Memo", memo)] else [])
      + [("From", "Checking ****4521")]
  }

  class SendMoneyModal {
    var step: Step
    var recipient: string
    var amount: string
    var memo: string
    var isProcessing: bool

    constructor ()
      ensures step == Form && recipient == "" && amount == "" && memo == ""
      ensures !isProcessing
    {
      step := Form;
      recipient := "";
      amount := "";
      memo := "";
      isProcessing := false;
    }

    /** Typing in the recipient field. */
    method EnterRecipient(text: string)
      requires step == Form
      modifies this`recipient
      ensures recipient == text
    {
      recipient := text;
    }

    /** Typing in the amount field. */
    method EnterAmount(text: string)
      requires step == Form
      modifies this`amount
      ensures amount == text
    {
      amount := text;
    }

    /** Typing in the memo field. */
    method EnterMemo(text: string)
      requires step == Form
      modifies this`memo
      ensures memo == text
    {
      memo := text;
    }

    /** `handleSubmit`: returns the missing-fields message and stays on the form,
        or moves to the review; the draft is never changed. */
    method Submit() returns (error: Option<string>)
      requires step == Form
      modifies this`step
      ensures error == if DraftComplete(recipient, amount) then None else Some(MissingFieldsMessage)
      ensures step == if error.None? then Confirm else Form
    {
      if DraftComplete(recipient, amount) {
        error := None;
        step := Confirm;
      } else {
        error := Some(MissingFieldsMessage);
      }
    }

    /** The Back button keeps recipient, amount and memo. */
    method Back()
      requires step == Confirm
      modifies this`step
      ensures step == Form
    {
      step := Form;
    }

    /** A click on "Confirm & Send"; disabled while a confirmation is pending. */
    method BeginConfirm() returns (started: bool)
      requires step == Confirm
      modifies this`isProcessing
      ensures isProcessing
      ensures started == !old(isProcessing)
    {
      started := !isProcessing;
      if started {
        isProcessing := true;
      }
    }

    /** The end of the simulated delay: success, whatever happened meanwhile. */
    method CompleteConfirm()
      requires isProcessing
      modifies this`isProcessing, this`step
      ensures !isProcessing && step == Success
    {
      isProcessing := false;
      step := Success;
    }

    /** `handleClose`: the form again with every field cleared; a pending
        confirmation is not cancelled. */
    method Close()
      modifies this`step, this`recipient, this`amount, this`memo
      ensures step == Form && recipient == "" && amount == "" && memo == ""
    {
      step := Form;
      recipient := "";
      amount := "";
      memo := "";
    }
  }

  /** Recipient "Jane" and amount "250.00": review, one confirmation, success
      with the same draft on screen. */
  method ScenarioSendToJane()
  {
    var m := new SendMoneyModal();
    m.EnterRecipient("Jane");
    m.EnterAmount("250.00");
    var error := m.Submit();
    assert error.None? && m.step == Confirm;
    var started := m.BeginConfirm();
    m.CompleteConfirm();
    assert m.step == Success && m.recipient == "Jane" && m.amount == "250.00";
  }
}
