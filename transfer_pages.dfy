/** The three-step transfer wizard (`transfer/page.tsx`): details, recipient, review,
    then the outcome of the request. `parsed` parameters stand for what
    `parseFloat` makes of the amount text, None for NaN. */
module TransferWizard {
  import opened Common

  const SelectSource := "Please select a source account"
  const ValidAmount := "Please enter a valid amount"
  const EnterRecipientAccount := "Please enter recipient account number"
  const EnterRecipientName := "Please enter recipient name"

  /** The JS comparison `parsed <= 0`: false for NaN. */
  predicate NotPositive(parsed: Option<real>) {
    parsed.Some? && parsed.value <= 0.0
  }

  /** The checks of `handleNext`, in order. The amount check is written
      `step === 1 && !amount || parseFloat(amount) <= 0`, which groups as
      `(step === 1 && !amount) || parseFloat(amount) <= 0`. */
  function NextError(step: int, fromAccount: string, amount: string, parsed: Option<real>,
                     recipientAccount: string, recipientName: string): Option<string> {
    if step == 1 && fromAccount == "" then Some(SelectSource)
    else if (step == 1 && amount == "") || NotPositive(parsed) then Some(ValidAmount)
    else if step == 2 && recipientAccount == "" then Some(EnterRecipientAccount)
    else if step == 2 && recipientName == "" then Some(EnterRecipientName)
    else None
  }

  /** At step 1 Next is refused exactly when the source is missing, the amount text
      is empty or the amount reads as a non-positive number; a non-numeric amount
      text gets through. */
  lemma {:induction false} Step1Accepts(fromAccount: string, amount: string, parsed: Option<real>, recipientAccount: string, recipientName: string)
    ensures NextError(1, fromAccount, amount, parsed, recipientAccount, recipientName).None? <==>
      fromAccount != "" && amount != "" && !NotPositive(parsed)
    ensures fromAccount == "" ==> NextError(1, fromAccount, amount, parsed, recipientAccount, recipientName) == Some(SelectSource)
  {
  }

  /** Because of the grouping, a non-positive amount refuses Next at every step, and
      at step 2 it is reported before the recipient checks. */
  lemma {:induction false} NonPositiveAmountBlocksEveryStep(step: int, fromAccount: string, amount: string, parsed: Option<real>, recipientAccount: string, recipientName: string)
    requires NotPositive(parsed) && (step != 1 || fromAccount != "")
    ensures NextError(step, fromAccount, amount, parsed, recipientAccount, recipientName) == Some(ValidAmount)
  {
  }

  /** At step 2, with a readable positive amount or none at all, Next needs the
      recipient account and then the recipient name. */
  lemma {:induction false} Step2Accepts(fromAccount: string, amount: string, parsed: Option<real>, recipientAccount: string, recipientName: string)
    requires !NotPositive(parsed)
    ensures NextError(2, fromAccount, amount, parsed, recipientAccount, recipientName).None? <==>
      recipientAccount != "" && recipientName != ""
    ensures recipientAccount == "" ==>
      NextError(2, fromAccount, amount, parsed, recipientAccount, recipientName) == Some(EnterRecipientAccount)
  {
  }

  /** What came back from `POST /api/transfer`: an answer with its status flag and
      body fields, or a thrown error with its message. */
  datatype Outcome =
    | Answered(ok: bool, reference: string, error: Option<string>)
    | Thrown(message: string)

  /** The message shown for a failed submit: the server's error, else "Transfer
      failed" for a refused request; the thrown message, else the generic text. */
  function FailureMessage(o: Outcome): (m: string)
    requires !(o.Answered? && o.ok)
    ensures m != ""
    ensures o.Answered? && Truthy(o.error) ==> m == o.error.value
    ensures o.Thrown? && o.message != "" ==> m == o.message
  {
    if o.Answered? then (if Truthy(o.error) then o.error.value else "Transfer failed")
    else if o.message != "" then o.message else "Transfer failed. Please try again."
  }

  class Wizard {
    var step: int
    var error: string
    var fromAccount: string
    var amount: string
    var recipientAccount: string
    var recipientName: string
    var isSubmitting: bool
    /** None stands for `null`: no submit has finished yet. */
    var transferSuccess: Option<bool>
    var transactionRef: string

    constructor ()
      ensures step == 1 && error == "" && fromAccount == "" && amount == ""
      ensures recipientAccount == "" && recipientName == ""
      ensures !isSubmitting && transferSuccess.None? && transactionRef == ""
    {
      step := 1;
      error := "";
      fromAccount := "";
      amount := "";
      recipientAccount := "";
      recipientName := "";
      isSubmitting := false;
      transferSuccess := None;
      transactionRef := "";
    }

    /** `handleNext`: when every check passes the error is cleared and the step goes
        up by one; otherwise the step stays and the first failing check's message is
        shown. */
    method Next(parsed: Option<real>)
      modifies this`step, this`error
      ensures var e := NextError(old(step), fromAccount, amount, parsed, recipientAccount, recipientName);
        if e.None? then step == old(step) + 1 && error == ""
        else step == old(step) && error == e.value
    {
      if step == 1 && fromAccount == "" {
        error := SelectSource;
        return;
      }
      if (step == 1 && amount == "") || NotPositive(parsed) {
        error := ValidAmount;
        return;
      }
      if step == 2 && recipientAccount == "" {
        error := EnterRecipientAccount;
        return;
      }
      if step == 2 && recipientName == "" {
        error := EnterRecipientName;
        return;
      }
      error := "";
      step := step + 1;
    }

    /** `handleBack`: one step back with the error cleared, or, from step 1, leaving
        for the dashboard with nothing changed. */
    method Back() returns (leaves: bool)
      modifies this`step, this`error
      ensures leaves <==> old(step) <= 1
      ensures !leaves ==> step == old(step) - 1 && error == ""
      ensures leaves ==> step == old(step) && error == old(error)
      ensures old(step) >= 1 ==> step >= 1
    {
      if step > 1 {
        step := step - 1;
        error := "";
        leaves := false;
      } else {
        leaves := true;
      }
    }

    /** `handleSubmit`: success records the server's reference and shows step 4; a
        refused or failed request keeps the step and the reference, shows the failure
        message and sets `transferSuccess` to false. Submitting always ends. */
    method Submit(o: Outcome)
      modifies this`error, this`isSubmitting, this`transferSuccess, this`transactionRef, this`step
      ensures !isSubmitting
      ensures o.Answered? && o.ok ==>
        step == 4 && transactionRef == o.reference && transferSuccess == Some(true) && error == ""
      ensures !(o.Answered? && o.ok) ==>
        step == old(step) && transactionRef == old(transactionRef) &&
        transferSuccess == Some(false) && error == FailureMessage(o)
    {
      isSubmitting := true;
      error := "";
      if o.Answered? && o.ok {
        transactionRef := o.reference;
        transferSuccess := Some(true);
        step := 4;
      } else {
        error := FailureMessage(o);
        transferSuccess := Some(false);
      }
      isSubmitting := false;
    }
  }
}

/** The older transfer page (`transfer/page.js`): loads the user's accounts, checks
    the recipient number, the IFSC and the amount, and simulates the transfer with a
    random reference. `numeric` parameters stand for `Number(amount)`, None for NaN. */
module LegacyTransferPage {
  import opened Common
  import AccountsRoute
  import CreditCardsRoute

  predicate IsUpperOrDigit(c: char) {
    IsUpper(c) || IsDigit(c)
  }

  /** `/^[A-Z]{4}0[A-Z0-9]{6}$/`: four capital letters, a zero, then six capital
      letters or digits. */
  predicate IsIfsc(s: string) {
    |s| == 11 &&
    (forall i :: 0 <= i < 4 ==> IsUpper(s[i])) &&
    s[4] == '0' &&
    (forall i :: 5 <= i < 11 ==> IsUpperOrDigit(s[i]))
  }

  /** Account numbers the account route generates pass the recipient check; the
      masked numbers of cards and the demo accounts do not. */
  lemma {:induction false} GeneratedNumbersPass(draw: nat, cardDraw: nat)
    requires draw < 9000000000 && cardDraw < 9000
    ensures TenDigits(AccountsRoute.AccountNumber(draw))
    ensures !TenDigits(CreditCardsRoute.MaskedNumber(cardDraw))
  {
    AccountsRoute.AccountNumberShape(draw);
    CreditCardsRoute.MaskedNumberShape(cardDraw);
    assert !IsDigit(CreditCardsRoute.MaskedNumber(cardDraw)[0]) by {
      assert CreditCardsRoute.MaskedNumber(cardDraw)[..5][0] == '\U{2022}';
    }
  }

  /** A well-formed code passes the IFSC check; lower case, a non-zero fifth character
      and a wrong length do not. */
  lemma {:induction false} IfscExamples()
    ensures IsIfsc("SBIN0001234")
    ensures !IsIfsc("sbin0001234") && !IsIfsc("SBIN1001234") && !IsIfsc("SBIN000123")
  {
    assert !IsUpper("sbin0001234"[0]);
    assert "SBIN1001234"[4] != '0';
  }

  const RecipientError := "Recipient Account Number must be 10 digits."
  const IfscError := "Invalid IFSC code format."
  const AmountError := "Enter a valid amount."

  /** `handleSubmit`'s checks, in order: recipient, IFSC, amount. */
  function SubmitError(to: string, ifsc: string, amount: string, numeric: Option<real>): Option<string> {
    if !TenDigits(to) then Some(RecipientError)
    else if !IsIfsc(ifsc) then Some(IfscError)
    else if amount == "" || numeric.None? || numeric.value <= 0.0 then Some(AmountError)
    else None
  }

  /** The form goes on exactly when all three checks pass, and a failing recipient is
      reported whatever the other fields hold. */
  lemma {:induction false} SubmitAccepts(to: string, ifsc: string, amount: string, numeric: Option<real>)
    ensures SubmitError(to, ifsc, amount, numeric).None? <==>
      TenDigits(to) && IsIfsc(ifsc) && amount != "" && numeric.Some? && numeric.value > 0.0
    ensures !TenDigits(to) ==> SubmitError(to, ifsc, amount, numeric) == Some(RecipientError)
    ensures TenDigits(to) && !IsIfsc(ifsc) ==> SubmitError(to, ifsc, amount, numeric) == Some(IfscError)
  {
  }

  /** What the page draws, in the order of its early returns. */
  datatype Screen = Loading | ErrorOnly(message: string) | NoAccounts | Form(step: int, notice: string)

  /** As written: any error, a validation error included, replaces the whole page,
      so the in-form error line never shows. */
  function ScreenAsWritten(loading: bool, error: string, accountCount: nat, step: int): Screen {
    if loading then Loading
    else if error != "" then ErrorOnly(error)
    else if accountCount == 0 then NoAccounts
    else Form(step, "")
  }

  /** Evidently intended: a loading error, which always leaves the account list
      empty, fills the page, while a validation error is shown inside the form. */
  function ScreenIntended(loading: bool, error: string, accountCount: nat, step: int): (sc: Screen)
    ensures !loading && accountCount > 0 ==> sc == Form(step, error)
  {
    if loading then Loading
    else if accountCount == 0 then (if error != "" then ErrorOnly(error) else NoAccounts)
    else Form(step, error)
  }

  class Page {
    var step: int
    var loading: bool
    /** The numbers of the loaded accounts, the values of the source select. */
    var ownAccounts: seq<string>
    var from: string
    var to: string
    var ifsc: string
    var amount: string
    var error: string
    var reference: string

    constructor ()
      ensures step == 1 && loading && ownAccounts == [] && error == "" && reference == ""
      ensures from == "" && to == "" && ifsc == "" && amount == ""
    {
      step := 1;
      loading := true;
      ownAccounts := [];
      from := "";
      to := "";
      ifsc := "";
      amount := "";
      error := "";
      reference := "";
    }

    /** The mount effect: `signedIn` is the stored account number and `fetched` the
        loaded account numbers (a missing list counts as empty), None when the request
        fails. The source defaults to the first loaded account. */
    method Load(signedIn: Option<string>, fetched: Option<seq<string>>)
      modifies this`loading, this`error, this`ownAccounts, this`from
      ensures !loading
      ensures !Truthy(signedIn) ==>
        error == "Not logged in" && ownAccounts == old(ownAccounts) && from == old(from)
      ensures Truthy(signedIn) && fetched.None? ==>
        error == "Failed to load accounts" && ownAccounts == old(ownAccounts) && from == old(from)
      ensures Truthy(signedIn) && fetched.Some? ==>
        ownAccounts == fetched.value && error == old(error) &&
        from == if |fetched.value| > 0 then fetched.value[0] else old(from)
    {
      if !Truthy(signedIn) {
        error := "Not logged in";
        loading := false;
        return;
      }
      if fetched.None? {
        error := "Failed to load accounts";
        loading := false;
        return;
      }
      ownAccounts := fetched.value;
      if |ownAccounts| > 0 {
        from := ownAccounts[0];
      }
      loading := false;
    }

    /** `handleSubmit`: clears the error, then either reports the first failing check
        or moves to the review step. */
    method Submit(numeric: Option<real>)
      modifies this`error, this`step
      ensures var e := SubmitError(to, ifsc, amount, numeric);
        if e.None? then step == 2 && error == "" else step == old(step) && error == e.value
      ensures !loading && SubmitError(to, ifsc, amount, numeric).Some? ==> ScreenNow() == ErrorOnly(error)
    {
      error := "";
      if !TenDigits(to) {
        error := RecipientError;
        return;
      }
      if !IsIfsc(ifsc) {
        error := IfscError;
        return;
      }
      if amount == "" || numeric.None? || numeric.value <= 0.0 {
        error := AmountError;
        return;
      }
      step := 2;
    }

    /** `confirmTransfer`: `draw` stands for `Math.floor(Math.random() * 1000000000)`. */
    method Confirm(draw: nat)
      requires draw < 1000000000
      modifies this`reference, this`step
      ensures step == 3 && reference == "TXN" + NatToString(draw)
      ensures 4 <= |reference| <= 12 && reference[..3] == "TXN"
      ensures AllDigits(reference[3..]) && ParseDigits(reference[3..]) == draw
    {
      reference := "TXN" + NatToString(draw);
      step := 3;
      NatToStringAtMost(draw, 9);
      assert Pow10(9) == 1000000000 by {
        assert Pow10(3) == 1000;
        assert Pow10(6) == 1000 * Pow10(3);
      }
      assert reference[3..] == NatToString(draw);
      ParseNatToString(draw);
    }

    /** The Edit and Make Another Transfer buttons: back to the form, fields kept. */
    method BackToForm()
      modifies this`step
      ensures step == 1
    {
      step := 1;
    }

    /** What the page draws now, as written. */
    function ScreenNow(): Screen
      reads this
    {
      ScreenAsWritten(loading, error, |ownAccounts|, step)
    }
  }

  /** A failed check on a loaded page replaces the form by the bare message; since
      only a submit from that form clears the error, the page stays on the message. */
  lemma {:induction false} ValidationErrorHidesForm(to: string, ifsc: string, amount: string, numeric: Option<real>, accountCount: nat, step: int)
    requires accountCount > 0 && SubmitError(to, ifsc, amount, numeric).Some?
    ensures ScreenAsWritten(false, SubmitError(to, ifsc, amount, numeric).value, accountCount, step) ==
      ErrorOnly(SubmitError(to, ifsc, amount, numeric).value)
  {
  }

  /** With the intended screen, a failed check keeps the form, showing the message in
      it, and a loading failure, which leaves no accounts, still fills the page. */
  lemma {:induction false} IntendedKeepsForm(to: string, ifsc: string, amount: string, numeric: Option<real>, accountCount: nat, step: int)
    requires accountCount > 0 && SubmitError(to, ifsc, amount, numeric).Some?
    ensures ScreenIntended(false, SubmitError(to, ifsc, amount, numeric).value, accountCount, step) ==
      Form(step, SubmitError(to, ifsc, amount, numeric).value)
    ensures ScreenIntended(false, "Failed to load accounts", 0, step) == ErrorOnly("Failed to load accounts")
    ensures ScreenIntended(false, "Not logged in", 0, step) == ErrorOnly("Not logged in")
  {
  }
}
