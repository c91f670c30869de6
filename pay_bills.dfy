/** The bill-payment dialog: pick one of four fixed billers, review, pay. The
    amount comes from the biller, never from the user. The two-second wait of
    the confirm handler is split into BeginConfirm and CompleteConfirm. */
module PayBills {
  import opened BankData

  datatype Step = Select | Confirm | Success

  datatype Biller = Biller(id: string, name: string, amount: Cents, dueDate: string)

  /** The `billers` table, amounts in cents. */
  function Billers(): (b: seq<Biller>)
    ensures |b| == 4
    ensures forall i, j :: 0 <= i < j < |b| ==> b[i].id != b[j].id
    ensures forall i :: 0 <= i < |b| ==> b[i].amount > 0
  {
    [ Biller("power", "City Power & Light", 14550, "Dec 25, 2024"),
      Biller("internet", "FastNet Internet", 8999, "Dec 28, 2024"),
      Biller("mortgage", "Home Mortgage", 245000, "Jan 1, 2025"),
      Biller("phone", "Mobile Services", 12500, "Dec 30, 2024") ]
  }

  /** What the body of the dialog shows. The confirm and success views need a
      selected bill; without one the body is empty. */
  datatype View = SelectView | ConfirmView(bill: Biller) | SuccessView(bill: Biller) | EmptyView

  function ViewOf(step: Step, selectedBill: Option<Biller>): (v: View)
    ensures v.ConfirmView? <==> step == Confirm && selectedBill.Some?
    ensures v.SuccessView? <==> step == Success && selectedBill.Some?
    ensures v.SelectView? <==> step == Select
    ensures (v.ConfirmView? || v.SuccessView?) ==> selectedBill == Some(v.bill)
  {
    match step
    case Select => SelectView
    case Confirm => if selectedBill.Some? then ConfirmView(selectedBill.value) else EmptyView
    case Success => if selectedBill.Some? then SuccessView(selectedBill.value) else EmptyView
  }

  class PayBillsModal {
    var step: Step
    var selectedBill: Option<Biller>
    var isProcessing: bool

    /** The review is only reached by picking a biller, and only listed billers
        can be picked. */
    ghost predicate Valid()
      reads this
    {
      && (step == Confirm ==> selectedBill.Some?)
      && (selectedBill.Some? ==> selectedBill.value in Billers())
    }

    constructor ()
      ensures Valid()
      ensures step == Select && selectedBill == None && !isProcessing
    {
      step := Select;
      selectedBill := None;
      isProcessing := false;
    }

    /** `handleSelectBill`: one click records the biller and opens the review. */
    method SelectBill(bill: Biller)
      requires Valid() && step == Select && bill in Billers()
      modifies this`selectedBill, this`step
      ensures Valid()
      ensures selectedBill == Some(bill) && step == Confirm
    {
      selectedBill := Some(bill);
      step := Confirm;
    }

    /** The Back button returns to the list and keeps the selected biller. */
    method Back()
      requires Valid() && step == Confirm
      modifies this`step
      ensures Valid() && step == Select
    {
      step := Select;
    }

    /** A click on "Pay Now"; disabled while a payment is pending. */
    method BeginConfirm() returns (started: bool)
      requires Valid() && step == Confirm
      modifies this`isProcessing
      ensures Valid() && isProcessing
      ensures started == !old(isProcessing)
    {
      started := !isProcessing;
      if started {
        isProcessing := true;
      }
    }

    /** The end of the simulated delay: success, whatever happened meanwhile. */
    method CompleteConfirm()
      requires Valid() && isProcessing
      modifies this`isProcessing, this`step
      ensures Valid() && !isProcessing && step == Success
    {
      isProcessing := false;
      step := Success;
    }

    /** `handleClose`: back to the list with nothing selected. */
    method Close()
      requires Valid()
      modifies this`step, this`selectedBill
      ensures Valid() && step == Select && selectedBill == None
    {
      step := Select;
      selectedBill := None;
    }

    /** In the review the dialog always has a listed biller to show. */
    function CurrentView(): (v: View)
      reads this
      requires Valid()
      ensures step == Confirm ==> v.ConfirmView? && v.bill in Billers()
      ensures v.SuccessView? ==> v.bill in Billers()
    {
      ViewOf(step, selectedBill)
    }
  }

  /** Closing while a payment is pending and letting it finish leaves the
      success step with no biller, which shows an empty body. */
  method ScenarioCloseWhilePaying()
  {
    var m := new PayBillsModal();
    var bills := Billers();
    m.SelectBill(bills[2]);
    assert m.CurrentView() == ConfirmView(bills[2]) && bills[2].amount == 245000;
    var started := m.BeginConfirm();
    m.Close();
    m.CompleteConfirm();
    assert m.CurrentView() == EmptyView;
  }
}
