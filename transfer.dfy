/** The dialog that moves money between the household's checking and savings
    accounts. It walks form -> confirm -> success; the submit handler checks the
    draft, and the confirm handler, which waits 1.5 seconds before reporting
    success, is split into the click (BeginConfirm) and the end of the wait
    (CompleteConfirm). Toasts are left out; the error a toast would show is
    returned instead. */
module Transfer {
  import opened BankData

  datatype Step = Form | Confirm | Success

  /** An entry of the "from" and "to" selects. */
  datatype AccountOption = AccountOption(id: string, name: string, balance: Cents, number: string)

  /** `accountOptions`: the two accounts a transfer can use, in select order. */
  function AccountOptions(accounts: Accounts): seq<AccountOption> {
    [ AccountOption("checking", "Checking Account", accounts.checking.balance, accounts.checking.number),
      AccountOption("savings", "Savings Account", accounts.savings.balance, accounts.savings.number) ]
  }

  /** The values the two selects can hold. */
  const AccountIds: set<string> := {"checking", "savings"}

  predicate HasOption(options: seq<AccountOption>, id: string) {
    exists i :: 0 <= i < |options| && options[i].id == id
  }

  /** `options.find(a => a.id === id)`: the position of the first option with that id. */
  function FindOption(options: seq<AccountOption>, id: string): (i: nat)
    requires HasOption(options, id)
    ensures i < |options| && options[i].id == id
    ensures forall j :: 0 <= j < i ==> options[j].id != id
  {
    if options[0].id == id then 0
    else
      assert HasOption(options[1..], id) by {
        var k :| 0 <= k < |options| && options[k].id == id;
        assert options[1..][k - 1] == options[k];
      }
      1 + FindOption(options[1..], id)
  }

  /** `getAccountInfo`; the non-null assertion `!` is the precondition. */
  function GetAccountInfo(accounts: Accounts, id: string): AccountOption
    requires HasOption(AccountOptions(accounts), id)
  {
    var options := AccountOptions(accounts);
    options[FindOption(options, id)]
  }

  /** `getAccountInfo` finds an option exactly for the two ids the selects offer. */
  lemma {:induction false} AccountInfoDefinedIff(accounts: Accounts, id: string)
    ensures HasOption(AccountOptions(accounts), id) <==> id in AccountIds
    ensures id in AccountIds ==> GetAccountInfo(accounts, id).id == id
  {
    var options := AccountOptions(accounts);
    if id in AccountIds {
      assert options[if id == "checking" then 0 else 1].id == id;
    }
  }

  /** Why `handleSubmit` refuses to continue. */
  datatype SubmitError = SameAccounts | MissingAmount

  /** The submit check: an amount must be typed and the accounts must differ.
      The amount is the raw text of the field; it is not parsed or compared with
      zero. When both tests fail the account error wins. */
  function SubmitCheck(fromAccount: string, toAccount: string, amount: string): (r: Option<SubmitError>)
    ensures r.None? <==> amount != "" && fromAccount != toAccount
    ensures r == Some(SameAccounts) <==> fromAccount == toAccount
    ensures r == Some(MissingAmount) <==> fromAccount != toAccount && amount == ""
  {
    if amount == "" || fromAccount == toAccount then
      Some(if fromAccount == toAccount then SameAccounts else MissingAmount)
    else
      None
  }

  /** The toast text for a refused submit. */
  function ErrorMessage(e: SubmitError): string {
    match e
    case SameAccounts => "Please select different accounts"
    case MissingAmount => "Please enter an amount"
  }

  class TransferModal {
    var step: Step
    var fromAccount: string
    var toAccount: string
    var amount: string
    var isProcessing: bool

    /** Both accounts are always one of the select options. */
    ghost predicate Valid()
      reads this
    {
      fromAccount in AccountIds && toAccount in AccountIds
    }

    constructor ()
      ensures Valid()
      ensures step == Form && fromAccount == "checking" && toAccount == "savings"
      ensures amount == "" && !isProcessing
    {
      step := Form;
      fromAccount := "checking";
      toAccount := "savings";
      amount := "";
      isProcessing := false;
    }

    /** Choosing in the "from" select. */
    method SelectFrom(id: string)
      requires Valid() && step == Form && id in AccountIds
      modifies this`fromAccount
      ensures Valid() && fromAccount == id
    {
      fromAccount := id;
    }

    /** Choosing in the "to" select. */
    method SelectTo(id: string)
      requires Valid() && step == Form && id in AccountIds
      modifies this`toAccount
      ensures Valid() && toAccount == id
    {
      toAccount := id;
    }

    /** Typing in the amount field. */
    method EnterAmount(text: string)
      requires Valid() && step == Form
      modifies this`amount
      ensures Valid() && amount == text
    {
      amount := text;
    }

    /** `handleSubmit`: moves to the review only when the draft passes the check;
        the draft itself is never changed. */
    method Submit() returns (error: Option<SubmitError>)
      requires Valid() && step == Form
      modifies this`step
      ensures Valid()
      ensures error == SubmitCheck(fromAccount, toAccount, amount)
      ensures step == if error.None? then Confirm else Form
    {
      error := SubmitCheck(fromAccount, toAccount, amount);
      if error.None? {
        step := Confirm;
      }
    }

    /** The Back button of the review keeps the draft. */
    method Back()
      requires Valid() && step == Confirm
      modifies this`step
      ensures Valid() && step == Form
    {
      step := Form;
    }

    /** A click on the confirm button. The button is disabled while a
        confirmation is pending, so a second click starts nothing. */
    method BeginConfirm() returns (started: bool)
      requires Valid() && step == Confirm
      modifies this`isProcessing
      ensures Valid() && isProcessing
      ensures started == !old(isProcessing)
    {
      started := !isProcessing;
      if started {
        isProcessing := true;
      }
    }

    /** The end of the simulated delay: success, whatever happened meanwhile. */
    method CompleteConfirm()
      requires Valid() && isProcessing
      modifies this`isProcessing, this`step
      ensures Valid() && !isProcessing && step == Success
    {
      isProcessing := false;
      step := Success;
    }

    /** `handleClose`: back to the form with an empty amount; the chosen accounts
        and a pending confirmation are left as they are. */
    method Close()
      requires Valid()
      modifies this`step, this`amount
      ensures Valid() && step == Form && amount == ""
    {
      step := Form;
      amount := "";
    }

    /** The From and To rows of the review: looking both accounts up never fails. */
    function ReviewAccounts(accounts: Accounts): (r: (AccountOption, AccountOption))
      reads this
      requires Valid()
      ensures r.0.id == fromAccount && r.1.id == toAccount
      ensures r.0 in AccountOptions(accounts) && r.1 in AccountOptions(accounts)
    {
      AccountInfoDefinedIff(accounts, fromAccount);
      AccountInfoDefinedIff(accounts, toAccount);
      (GetAccountInfo(accounts, fromAccount), GetAccountInfo(accounts, toAccount))
    }
  }

  /** Same account on both sides with an amount typed: refused, still on the form. */
  method ScenarioSameAccount()
  {
    var m := new TransferModal();
    m.SelectTo("checking");
    m.EnterAmount("100");
    var error := m.Submit();
    assert error == Some(SameAccounts) && m.step == Form;
  }

  /** Two clicks on confirm start one confirmation; Back and Close in the meantime
      do not stop it, and its end shows the success step with the cleared amount. */
  method ScenarioCloseWhileProcessing()
  {
    var m := new TransferModal();
    m.EnterAmount("250");
    var error := m.Submit();
    var first := m.BeginConfirm();
    var second := m.BeginConfirm();
    assert first && !second;
    m.Close();
    m.CompleteConfirm();
    assert m.step == Success && m.amount == "";
  }
}
