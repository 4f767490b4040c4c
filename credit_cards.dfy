/** `POST /api/credit-cards`: issues a card and then opens a companion account for
    it, in two separate inserts, both numbered with the same masked card number. */
module CreditCardsRoute {
  import opened Common
  import opened Ledger

  datatype Request = Request(
    userId: Option<string>, kind: Option<string>, limit: Option<int>, name: Option<string>)

  /** The only check the handler makes: the four required fields are truthy. */
  predicate Complete(req: Request) {
    Truthy(req.userId) && Truthy(req.kind) && TruthyNum(req.limit) && Truthy(req.name)
  }

  const Mask: string := "\U{2022}\U{2022}\U{2022}\U{2022} "

  /** `•••• ${Math.floor(1000 + Math.random() * 9000)}`, for a draw standing for the
      integer part of `Math.random() * 9000`. */
  function MaskedNumber(draw: nat): string
    requires draw < 9000
  {
    Mask + NatToString(1000 + draw)
  }

  /** The masked number is four bullets, a space and four digits reading back as the draw. */
  lemma {:induction false} MaskedNumberShape(draw: nat)
    requires draw < 9000
    ensures |MaskedNumber(draw)| == 9 && MaskedNumber(draw)[..5] == Mask
    ensures AllDigits(MaskedNumber(draw)[5..]) && ParseDigits(MaskedNumber(draw)[5..]) == 1000 + draw
  {
    assert Pow10(4) == 10000 && Pow10(3) == 1000 by {
      assert Pow10(1) == 10 && Pow10(2) == 100;
    }
    NatToStringLength(1000 + draw, 4);
    ParseNatToString(1000 + draw);
    assert MaskedNumber(draw)[5..] == NatToString(1000 + draw);
  }

  /** Two cards get the same masked number exactly when they drew the same value:
      there are only 9000 masked numbers. */
  lemma {:induction false} MaskedNumbersCollide(d1: nat, d2: nat)
    requires d1 < 9000 && d2 < 9000
    ensures MaskedNumber(d1) == MaskedNumber(d2) <==> d1 == d2
  {
    MaskedNumberShape(d1);
    MaskedNumberShape(d2);
    if MaskedNumber(d1) == MaskedNumber(d2) {
      assert MaskedNumber(d1)[5..] == MaskedNumber(d2)[5..];
    }
  }

  /** The card row: nothing owed yet, the whole limit available, issued now. */
  function NewCard(req: Request, number: string, now: nat): (card: CardRow)
    requires Complete(req)
    ensures card.userId == req.userId.value && card.name == req.name.value && card.kind == req.kind.value
    ensures card.limit == req.limit.value && card.balance == 0 && card.available == card.limit
    ensures card.number == number && card.issuedDate == now
  {
    CardRow(req.userId.value, req.name.value, req.kind.value, req.limit.value, 0, req.limit.value, number, now)
  }

  /** The companion account: named after the card type, numbered with the masked
      number, of type 'Credit Card', balance 0 and the card's limit as credit limit. */
  function Companion(req: Request, id: string, number: string): (a: AccountRow)
    requires Complete(req)
    ensures a.id == id && a.userId == req.userId.value && a.name == req.kind.value + " Credit Card"
    ensures a.number == number && a.kind == "Credit Card" && a.balance == 0 && a.creditLimit == req.limit
  {
    AccountRow(id, req.userId.value, req.kind.value + " Credit Card", number, "Credit Card", 0, req.limit)
  }

  /** The handler. `draw` is the random draw, `newId` the id the database gives the
      companion account, and the two messages the database's error texts. */
  method Post(db: Store, req: Option<Request>, now: nat, draw: nat, newId: string,
              cardOk: bool, cardMessage: string, accountOk: bool, accountMessage: string)
    returns (r: Response<CardRow>)
    requires db.Valid() && draw < 9000 && IdAbsent(db.accounts, newId)
    modifies db`accounts, db`creditCards
    ensures db.Valid()
    ensures req.None? ==> r == Fail(500, "Internal server error") && unchanged(db)
    ensures req.Some? && !Complete(req.value) ==> r == Fail(400, "Missing required fields") && unchanged(db)
    ensures req.Some? && Complete(req.value) ==>
      var card := NewCard(req.value, MaskedNumber(draw), now);
      db.creditCards == old(db.creditCards) + (if cardOk then [card] else []) &&
      db.accounts == old(db.accounts) +
        (if cardOk && accountOk then [Companion(req.value, newId, MaskedNumber(draw))] else []) &&
      r == if !cardOk then Fail(500, cardMessage)
           else if !accountOk then Fail(500, accountMessage)
           else Ok(201, card)
  {
    if req.None? {
      return Fail(500, "Internal server error");
    }
    var body := req.value;
    if !Complete(body) {
      return Fail(400, "Missing required fields");
    }
    var masked := MaskedNumber(draw);
    var card := NewCard(body, masked, now);
    db.InsertCard(card, cardOk);
    if !cardOk {
      return Fail(500, cardMessage);
    }
    db.InsertAccount(Companion(body, newId, masked), accountOk);
    if !accountOk {
      return Fail(500, accountMessage);
    }
    return Ok(201, card);
  }

  /** Issuing a card whose masked number an account already carries makes both
      accounts unreachable through a lookup by number. */
  lemma {:induction false} CollisionHidesAccount(accs: seq<AccountRow>, i: nat, req: Request, id: string, draw: nat)
    requires Complete(req) && draw < 9000 && i < |accs| && accs[i].number == MaskedNumber(draw)
    ensures Single(accs + [Companion(req, id, MaskedNumber(draw))], NumberColumn, accs[i].number).None?
  {
    var after := accs + [Companion(req, id, MaskedNumber(draw))];
    assert after[i] == accs[i];
    SharedNumberNotFound(after, i, |accs|);
  }
}
