/** The credit-card application form (`credit-cards/apply/page.tsx`): name, card type
    and limit, a minimum-limit check, and the outcome of `addCreditCard`. */
module CardApplication {
  import opened Common

  const MinimumLimit := "Minimum credit limit is \U{20B9}10,000"
  const Refused := "Failed to apply for credit card. Please try again."
  const Unexpected := "An unexpected error occurred. Please try again."

  /** `parseInt(value) || 0`; `parsed` stands for what `parseInt` makes of the text,
      None for NaN. */
  function LimitOf(parsed: Option<int>): (limit: int)
    ensures parsed.None? ==> limit == 0
    ensures parsed.Some? ==> limit == parsed.value
  {
    if parsed.Some? && parsed.value != 0 then parsed.value else 0
  }

  /** The one check before the request. */
  function LimitError(limit: int): (e: Option<string>)
    ensures e.None? <==> limit >= 10000
  {
    if limit < 10000 then Some(MinimumLimit) else None
  }

  /** A limit text that does not read as a number becomes 0 and is refused. */
  lemma {:induction false} UnreadableLimitRefused()
    ensures LimitError(LimitOf(None)) == Some(MinimumLimit)
  {
  }

  /** What `addCreditCard` gave: a card with its number, nothing, or an exception. */
  datatype Outcome = Issued(number: string) | NoCard | Threw

  class Application {
    var name: string
    var kind: string
    var creditLimit: int
    var error: string
    var isSubmitting: bool
    var success: bool
    var cardNumber: string

    constructor ()
      ensures name == "" && kind == "Standard" && creditLimit == 50000
      ensures error == "" && !isSubmitting && !success && cardNumber == ""
    {
      name := "";
      kind := "Standard";
      creditLimit := 50000;
      error := "";
      isSubmitting := false;
      success := false;
      cardNumber := "";
    }

    /** The effect on `user`: the holder name becomes the user's full name when it is
        set, and stays otherwise. */
    method Prefill(fullName: Option<string>)
      modifies this`name
      ensures name == if Truthy(fullName) then fullName.value else old(name)
    {
      if Truthy(fullName) {
        name := fullName.value;
      }
    }

    /** `handleInputChange` on the limit field. */
    method EditLimit(parsed: Option<int>)
      modifies this`creditLimit
      ensures creditLimit == LimitOf(parsed)
    {
      creditLimit := LimitOf(parsed);
    }

    /** `handleSubmit`: a limit under 10,000 is refused before any request, leaving
        `isSubmitting`, `success` and the card number as they were; otherwise the
        card's number is recorded on success, an error is shown on no card or an
        exception, and submitting always ends. */
    method Submit(o: Outcome)
      modifies this`error, this`isSubmitting, this`success, this`cardNumber
      ensures creditLimit < 10000 ==>
        error == MinimumLimit && isSubmitting == old(isSubmitting) &&
        success == old(success) && cardNumber == old(cardNumber)
      ensures creditLimit >= 10000 ==> !isSubmitting
      ensures creditLimit >= 10000 && o.Issued? ==> success && cardNumber == o.number && error == ""
      ensures creditLimit >= 10000 && o.NoCard? ==>
        error == Refused && success == old(success) && cardNumber == old(cardNumber)
      ensures creditLimit >= 10000 && o.Threw? ==>
        error == Unexpected && success == old(success) && cardNumber == old(cardNumber)
    {
      error := "";
      var refusal := LimitError(creditLimit);
      if refusal.Some? {
        error := refusal.value;
        return;
      }
      isSubmitting := true;
      match o {
        case Issued(number) =>
          cardNumber := number;
          success := true;
        case NoCard =>
          error := Refused;
        case Threw =>
          error := Unexpected;
      }
      isSubmitting := false;
    }
  }
}
