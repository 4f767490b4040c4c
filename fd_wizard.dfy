/** The new-fixed-deposit wizard: the tenure-to-rate table, the simple-interest
    figures it shows, and the three-step form with its checks. Amounts typed into the
    form are rupees and the figures are `real`; account balances are paise. */
module FixedDepositWizard {
  import opened Common
  import opened Seqs
  import opened BankingContext

  /** `interestRates`: tenure in months to yearly rate in percent. */
  const InterestRates: map<int, real> := map[
    3 := 5.5, 6 := 6.0, 9 := 6.25, 12 := 6.5, 15 := 6.75, 18 := 7.0,
    21 := 7.25, 24 := 7.5, 36 := 7.75, 48 := 8.0, 60 := 8.25]

  const DefaultRate: real := 6.5

  /** `interestRates[tenure] || 6.5`: a tenure missing from the table, or one whose
      rate were 0, gets the default rate. */
  function Rate(tenure: int): real {
    if tenure in InterestRates && InterestRates[tenure] != 0.0 then InterestRates[tenure] else DefaultRate
  }

  /** Every listed tenure gets its listed rate (no listed rate is 0, so the fallback
      never hides one), any other tenure gets 6.5, and every rate lies between 5.5
      and 8.25. */
  lemma {:induction false} RateTable(tenure: int)
    ensures tenure in InterestRates ==> Rate(tenure) == InterestRates[tenure]
    ensures tenure !in InterestRates ==> Rate(tenure) == 6.5
    ensures 5.5 <= Rate(tenure) <= 8.25
  {
  }

  /** A longer listed tenure never earns a lower rate. */
  lemma {:induction false} RatesRiseWithTenure(t1: int, t2: int)
    requires t1 in InterestRates && t2 in InterestRates && t1 <= t2
    ensures Rate(t1) <= Rate(t2)
  {
  }

  /** `parseFloat(amount) || 0`; `parsed` stands for what `parseFloat` makes of the
      text, None for NaN. */
  function Principal(parsed: Option<real>): real {
    parsed.GetOr(0.0)
  }

  function Interest(parsed: Option<real>, rate: real, tenure: int): real {
    Principal(parsed) * (rate / 100.0) * ((tenure as real) / 12.0)
  }

  /** `calculateMaturityAmount`: simple interest over the tenure. */
  function MaturityAmount(parsed: Option<real>, rate: real, tenure: int): (r: real)
    ensures r == Principal(parsed) * (1.0 + rate / 100.0 * (tenure as real) / 12.0)
    ensures parsed.None? ==> r == 0.0
    ensures Principal(parsed) >= 0.0 && rate >= 0.0 && tenure >= 0 ==> r >= Principal(parsed)
  {
    Principal(parsed) + Interest(parsed, rate, tenure)
  }

  /** `calculateMonthlyInterest`: the total interest spread over the months; None for
      a tenure of 0, where the division gives no number. */
  function MonthlyInterest(parsed: Option<real>, rate: real, tenure: int): (m: Option<real>)
    ensures m.Some? <==> tenure != 0
  {
    if tenure == 0 then None else Some(Interest(parsed, rate, tenure) / (tenure as real))
  }

  /** The monthly interest times the tenure is the whole interest: the maturity
      amount less the principal. */
  lemma {:induction false} MonthlyTimesTenure(parsed: Option<real>, rate: real, tenure: int)
    requires tenure != 0
    ensures MonthlyInterest(parsed, rate, tenure).value * (tenure as real) ==
      MaturityAmount(parsed, rate, tenure) - Principal(parsed)
  {
  }

  const SelectAccount := "Please select a source account"
  const MinimumAmount := "Minimum amount required is \U{20B9}10,000"
  const Insufficient := "Insufficient balance in selected account"
  const EnterNominee := "Please enter nominee name"
  const EnterRelation := "Please enter nominee relation"
  const EnterMobile := "Please enter valid nominee mobile number"

  /** The account the source field names: the first whose id prints as that text. */
  function Selected(accounts: seq<Account>, sourceAccount: string): Option<nat> {
    FindFirst(accounts, (a: Account) => IntToString(a.id) == sourceAccount)
  }

  /** The JS comparison `parsed < x`: false for NaN. */
  predicate Below(parsed: Option<real>, x: real) {
    parsed.Some? && parsed.value < x
  }

  /** The JS comparison `parsed > x`: false for NaN. */
  predicate Above(parsed: Option<real>, x: real) {
    parsed.Some? && parsed.value > x
  }

  /** The checks of step 1, in order; the balance is in paise, the amount in rupees. */
  function Step1Error(accounts: seq<Account>, sourceAccount: string, amount: string, parsed: Option<real>): Option<string> {
    if sourceAccount == "" then Some(SelectAccount)
    else if amount == "" || Below(parsed, 10000.0) then Some(MinimumAmount)
    else match Selected(accounts, sourceAccount)
      case Some(i) =>
        if Above(parsed, (accounts[i].balance as real) / 100.0) then Some(Insufficient) else None
      case None => None
  }

  /** The checks of step 2, in order. */
  function Step2Error(nominee: string, relation: string, mobile: string): Option<string> {
    if nominee == "" then Some(EnterNominee)
    else if relation == "" then Some(EnterRelation)
    else if mobile == "" || |mobile| != 10 then Some(EnterMobile)
    else None
  }

  /** Step 1 lets the form on exactly when a source is chosen, an amount is typed
      that is not below 10,000, and, when the source names a known account, the
      amount does not exceed its balance. A source naming no account skips the
      balance check. */
  lemma {:induction false} Step1Accepts(accounts: seq<Account>, sourceAccount: string, amount: string, parsed: Option<real>)
    ensures Step1Error(accounts, sourceAccount, amount, parsed).None? <==>
      sourceAccount != "" && amount != "" && !Below(parsed, 10000.0) &&
      (Selected(accounts, sourceAccount).Some? ==>
        !Above(parsed, (accounts[Selected(accounts, sourceAccount).value].balance as real) / 100.0))
    ensures sourceAccount == "" ==> Step1Error(accounts, sourceAccount, amount, parsed) == Some(SelectAccount)
    ensures sourceAccount != "" && (amount == "" || Below(parsed, 10000.0)) ==>
      Step1Error(accounts, sourceAccount, amount, parsed) == Some(MinimumAmount)
    ensures sourceAccount != "" && Selected(accounts, sourceAccount).None? ==>
      (Step1Error(accounts, sourceAccount, amount, parsed).None? <==> amount != "" && !Below(parsed, 10000.0))
  {
  }

  /** A typed amount that `parseFloat` cannot read is compared as NaN, losing both
      comparisons, so it passes step 1. */
  lemma {:induction false} UnreadableAmountPasses(accounts: seq<Account>, sourceAccount: string, amount: string)
    requires sourceAccount != "" && amount != ""
    ensures Step1Error(accounts, sourceAccount, amount, None).None?
  {
  }

  /** Step 2 lets the form on exactly when nominee and relation are given and the
      mobile number has exactly ten characters. */
  lemma {:induction false} Step2Accepts(nominee: string, relation: string, mobile: string)
    ensures Step2Error(nominee, relation, mobile).None? <==> nominee != "" && relation != "" && |mobile| == 10
  {
  }

  /** The error `handleNext` reports at a step; steps other than 1 and 2 have no checks. */
  function NextError(step: int, accounts: seq<Account>, sourceAccount: string, amount: string, parsed: Option<real>,
                     nominee: string, relation: string, mobile: string): Option<string> {
    if step == 1 then Step1Error(accounts, sourceAccount, amount, parsed)
    else if step == 2 then Step2Error(nominee, relation, mobile)
    else None
  }

  class Wizard {
    var step: int
    var error: string
    var sourceAccount: string
    var amount: string
    var tenure: int
    var interestRate: real
    var nominee: string
    var nomineeRelation: string
    var nomineeMobile: string
    var isSubmitting: bool
    var success: bool
    var fdNumber: string

    /** The form's initial state: step 1, twelve months at 6.5 percent. */
    constructor ()
      ensures step == 1 && error == "" && sourceAccount == "" && amount == ""
      ensures tenure == 12 && interestRate == 6.5 && interestRate == Rate(tenure)
      ensures nominee == "" && nomineeRelation == "" && nomineeMobile == ""
      ensures !isSubmitting && !success && fdNumber == ""
    {
      step := 1;
      error := "";
      sourceAccount := "";
      amount := "";
      tenure := 12;
      interestRate := 6.5;
      nominee := "";
      nomineeRelation := "";
      nomineeMobile := "";
      isSubmitting := false;
      success := false;
      fdNumber := "";
    }

    /** `handleInputChange` for the tenure select: `parsed` is `parseInt` of the chosen
        value; the rate follows the table. */
    method ChooseTenure(parsed: int)
      modifies this`tenure, this`interestRate
      ensures tenure == parsed && interestRate == Rate(parsed)
    {
      tenure := parsed;
      interestRate := Rate(parsed);
    }

    /** `handleNext`: with every check of the current step passed the error is cleared
        and the step goes up by one; otherwise the step stays and the first failing
        check's message is shown. `parsed` is `parseFloat` of the amount text. */
    method Next(accounts: seq<Account>, parsed: Option<real>)
      modifies this`step, this`error
      ensures var e := NextError(old(step), accounts, sourceAccount, amount, parsed, nominee, nomineeRelation, nomineeMobile);
        if e.None? then step == old(step) + 1 && error == ""
        else step == old(step) && error == e.value
    {
      if step == 1 {
        if sourceAccount == "" {
          error := SelectAccount;
          return;
        }
        if amount == "" || Below(parsed, 10000.0) {
          error := MinimumAmount;
          return;
        }
        var selected := Selected(accounts, sourceAccount);
        if selected.Some? && Above(parsed, (accounts[selected.value].balance as real) / 100.0) {
          error := Insufficient;
          return;
        }
      }
      if step == 2 {
        if nominee == "" {
          error := EnterNominee;
          return;
        }
        if nomineeRelation == "" {
          error := EnterRelation;
          return;
        }
        if nomineeMobile == "" || |nomineeMobile| != 10 {
          error := EnterMobile;
          return;
        }
      }
      error := "";
      step := step + 1;
    }

    /** `handleBack`: one step back with the error cleared, or, from step 1, leaving the
        page with nothing changed; the step never drops below 1. */
    method Back() returns (leaves: bool)
      modifies this`step, this`error
      ensures leaves <==> old(step) <= 1
      ensures !leaves ==> step == old(step) - 1 && error == ""
      ensures leaves ==> step == old(step) && error == old(error)
      ensures old(step) >= 1 ==> step >= 1
    {
      if step > 1 {
        step := step - 1;
        error := "";
        leaves := false;
      } else {
        leaves := true;
      }
    }

    /** `handleSubmit`: `created` is the number of the deposit `addFixedDeposit` makes,
        or None when it throws. Success records the number and shows step 4; failure
        keeps the step and shows an error; either way submitting ends. */
    method Submit(created: Option<string>)
      modifies this`step, this`error, this`isSubmitting, this`success, this`fdNumber
      ensures !isSubmitting
      ensures created.Some? ==> success && fdNumber == created.value && step == 4 && error == ""
      ensures created.None? ==> error == "Failed to create fixed deposit. Please try again."
      ensures created.None? ==> step == old(step) && success == old(success) && fdNumber == old(fdNumber)
    {
      isSubmitting := true;
      error := "";
      if created.Some? {
        fdNumber := created.value;
        success := true;
        step := 4;
      } else {
        error := "Failed to create fixed deposit. Please try again.";
      }
      isSubmitting := false;
    }
  }
}
