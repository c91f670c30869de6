/** The quick-action panel of the dashboard: six buttons, four of which open a
    money-movement dialog and two of which navigate away. Each dialog has its own
    open flag; a dialog's close callback clears only that flag. */
module QuickActions {
  import opened BankData

  /** The four dialogs the panel can open. */
  datatype Flow = SendFlow | ReceiveFlow | BillsFlow | TransferFlow

  /** What `handleAction` does with an action name. */
  datatype Effect = Open(flow: Flow) | Navigate(route: string) | NoEffect

  /** The `switch` of `handleAction`; a name it does not list falls through with
      no effect, since the switch has no default. */
  function Dispatch(action: string): (e: Effect)
    ensures e == Open(SendFlow) <==> action == "send"
    ensures e == Open(ReceiveFlow) <==> action == "receive"
    ensures e == Open(BillsFlow) <==> action == "bills"
    ensures e == Open(TransferFlow) <==> action == "transfer"
    ensures e == Navigate("/investments") <==> action == "invest"
    ensures e == Navigate("/accounts") <==> action == "more"
    ensures e.NoEffect? <==> action !in ActionNames
  {
    match action
    case "send" => Open(SendFlow)
    case "receive" => Open(ReceiveFlow)
    case "bills" => Open(BillsFlow)
    case "transfer" => Open(TransferFlow)
    case "invest" => Navigate("/investments")
    case "more" => Navigate("/accounts")
    case _ => NoEffect
  }

  /** The action names of the six buttons, in display order. */
  const ActionNames: seq<string> := ["send", "receive", "bills", "transfer", "invest", "more"]

  class QuickActionsPanel {
    var sendModalOpen: bool
    var transferModalOpen: bool
    var billsModalOpen: bool
    var receiveModalOpen: bool

    function IsOpen(flow: Flow): bool
      reads this
    {
      match flow
      case SendFlow => sendModalOpen
      case ReceiveFlow => receiveModalOpen
      case BillsFlow => billsModalOpen
      case TransferFlow => transferModalOpen
    }

    constructor ()
      ensures forall f :: !IsOpen(f)
    {
      sendModalOpen := false;
      transferModalOpen := false;
      billsModalOpen := false;
      receiveModalOpen := false;
    }

    /** `handleAction`: opens the named dialog and leaves the other flags as they
        are, or returns the route to navigate to. */
    method HandleAction(action: string) returns (route: Option<string>)
      modifies this
      ensures forall f :: IsOpen(f) == (old(IsOpen(f)) || Dispatch(action) == Open(f))
      ensures route == if Dispatch(action).Navigate? then Some(Dispatch(action).route) else None
    {
      route := None;
      match action
      case "send" => sendModalOpen := true;
      case "receive" => receiveModalOpen := true;
      case "bills" => billsModalOpen := true;
      case "transfer" => transferModalOpen := true;
      case "invest" => route := Some("/investments");
      case "more" => route := Some("/accounts");
      case _ =>
    }

    /** The `onClose` callback handed to one dialog: clears that dialog's flag only. */
    method CloseFlow(flow: Flow)
      modifies this
      ensures forall f :: IsOpen(f) == (old(IsOpen(f)) && f != flow)
    {
      match flow
      case SendFlow => sendModalOpen := false;
      case ReceiveFlow => receiveModalOpen := false;
      case BillsFlow => billsModalOpen := false;
      case TransferFlow => transferModalOpen := false;
    }
  }

  /** Opening one dialog never closes another: both flags end up set. */
  method ScenarioTwoDialogsOpen()
  {
    var panel := new QuickActionsPanel();
    var r1 := panel.HandleAction("send");
    var r2 := panel.HandleAction("transfer");
    assert panel.IsOpen(SendFlow) && panel.IsOpen(TransferFlow);
    var r3 := panel.HandleAction("invest");
    assert r3 == Some("/investments") && !panel.IsOpen(BillsFlow);
  }
}
