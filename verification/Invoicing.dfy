/** Invoices (contracts/core/src/invoice.rs): raising, accepting and paying. */
module Invoicing {
  import opened Common
  import opened State

  predicate Accepts(config: Config, denom: Denom) {
    exists i | 0 <= i < |config.acceptedAssets| :: config.acceptedAssets[i].denom == denom
  }

  /** The invoice as first stored: nothing counts as paid, whatever the caller says was paid, but the amount due is
      already reduced by it. */
  function Drafted(id: U64, sender: Addr, payee: Addr, receivable: Coin, due: U128, service: ServiceType,
                   docUri: string): Invoice {
    Invoice(id, sender, payee, id, docUri, Coin(receivable.denom, due), receivable, Coin(receivable.denom, 0),
            service, Raised)
  }

  /** Why raising an invoice fails, in the order the source tests. */
  function RaiseError(s: Store, sender: Addr, funds: seq<Coin>, payee: Addr, receivable: Coin, amountPaid: Coin)
    : Option<Error>
  {
    if funds != [] then Some(FundsNotAccepted)
    else if sender == payee then Some(SenderIsReceiver)
    else if receivable.denom != amountPaid.denom then Some(DenomsDiffer)
    else if s.config.None? then Some(NotFound)
    else if !Accepts(s.config.value, receivable.denom) then Some(AssetNotAccepted)
    else if sender !in s.profiles then Some(NoProfile)
    else if s.profiles[sender].kycStatus != Approved then Some(CreatorNotVerified)
    else if payee !in s.profiles[sender].contacts then Some(NotInContacts)
    else if payee !in s.profiles then Some(NoCounterpartyProfile)
    else if s.profiles[payee].kycStatus == Unverified then Some(CounterpartyNotVerified)
    else if receivable.amount < amountPaid.amount then Some(Panic)
    else if NextInvoiceId(s).None? || NextInvoiceId(s).value == U64_MAX then Some(Panic)
    else None
  }

  /** A raised invoice is stored under the next id, indexed with both parties, and minted as a token held by the
      contract; the counter then skips one. */
  function RaiseOutcome(s: Store, sender: Addr, funds: seq<Coin>, payee: Addr, receivable: Coin, amountPaid: Coin,
                        service: ServiceType, docUri: string): Outcome {
    var failure := RaiseError(s, sender, funds, payee, receivable, amountPaid);
    if failure.Some? then Err(failure.value)
    else
      var id := NextInvoiceId(s).value;
      var me, you := s.profiles[sender], s.profiles[payee];
      Ok(Effect(
        s.(invoices := s.invoices[id := Drafted(id, sender, payee, receivable, receivable.amount - amountPaid.amount,
                                                service, docUri)],
           profiles := s.profiles[sender := me.(generatedInvoices := me.generatedInvoices + [id])]
                                 [payee := you.(assignedInvoices := you.assignedInvoices + [id])],
           invoiceId := Some(id + 1)),
        [Mint(s.config.value.nftAddress, id, s.contract)]))
  }

  method CreateInvoice(s: Storage, sender: Addr, funds: seq<Coin>, payee: Addr, receivable: Coin, amountPaid: Coin,
                       service: ServiceType, docUri: string) returns (r: Result<seq<Message>, Error>)
    modifies s
    ensures Realises(r, s.View(),
                     RaiseOutcome(old(s.View()), sender, funds, payee, receivable, amountPaid, service, docUri))
  {
    if funds != [] {
      return Err(FundsNotAccepted);
    }
    if sender == payee {
      return Err(SenderIsReceiver);
    }
    if receivable.denom != amountPaid.denom {
      return Err(DenomsDiffer);
    }
    if s.config.None? {
      return Err(NotFound);
    }
    var config := s.config.value;
    if !Accepts(config, receivable.denom) {
      return Err(AssetNotAccepted);
    }
    if sender !in s.profiles {
      return Err(NoProfile);
    }
    var senderInfo := s.profiles[sender];
    if senderInfo.kycStatus != Approved {
      return Err(CreatorNotVerified);
    }
    if payee !in senderInfo.contacts {
      return Err(NotInContacts);
    }
    if payee !in s.profiles {
      return Err(NoCounterpartyProfile);
    }
    var receiverInfo := s.profiles[payee];
    if receiverInfo.kycStatus == Unverified {
      return Err(CounterpartyNotVerified);
    }
    if receivable.amount < amountPaid.amount {
      return Err(Panic);
    }
    var next := s.GetInvoiceId();
    if next.None? {
      return Err(Panic);
    }
    var id := next.value;
    var invoice := Drafted(id, sender, payee, receivable, receivable.amount - amountPaid.amount, service, docUri);
    s.invoices := s.invoices[id := invoice];
    senderInfo := senderInfo.(generatedInvoices := senderInfo.generatedInvoices + [id]);
    s.profiles := s.profiles[sender := senderInfo];
    receiverInfo := receiverInfo.(assignedInvoices := receiverInfo.assignedInvoices + [id]);
    s.profiles := s.profiles[payee := receiverInfo];
    if id == U64_MAX {
      return Err(Panic);
    }
    s.invoiceId := Some(id + 1);
    return Ok([Mint(config.nftAddress, id, s.contract)]);
  }

  /** Why a payment fails, in the order the source tests. */
  function PayError(s: Store, sender: Addr, funds: seq<Coin>, id: U64): Option<Error> {
    if |funds| != 1 then Some(NotOneToken)
    else if s.config.None? then Some(NotFound)
    else if !Accepts(s.config.value, funds[0].denom) then Some(AssetNotAccepted)
    else if id !in s.invoices then Some(NotFound)
    else
      var invoice := s.invoices[id];
      if invoice.payeeAddress != sender then Some(SenderIsReceiver)
      else if invoice.status == Raised then Some(NotYetAccepted)
      else if invoice.status == Paid then Some(AlreadyPaid)
      else if invoice.amountPaid.amount + funds[0].amount > U128_MAX then Some(Panic)
      else if invoice.amountPaid.amount + funds[0].amount > invoice.receivable.amount then Some(ExceedsReceivable)
      else None
  }

  /** The invoice after a payment brings the amount paid to `paid`. */
  function PaidUpTo(invoice: Invoice, paid: U128): Invoice
    requires paid <= invoice.receivable.amount
  {
    invoice.(amountPaid := invoice.amountPaid.(amount := paid),
             dueAmount := invoice.dueAmount.(amount := invoice.receivable.amount - paid),
             status := if paid == invoice.receivable.amount then Paid else PartiallyPaid)
  }

  /** The whole payment is forwarded to the invoice's issuer; the payment that completes the invoice also hands the
      token over. */
  function PayOutcome(s: Store, sender: Addr, funds: seq<Coin>, id: U64): Outcome {
    var failure := PayError(s, sender, funds, id);
    if failure.Some? then Err(failure.value)
    else
      var invoice := s.invoices[id];
      var paid := PaidUpTo(invoice, invoice.amountPaid.amount + funds[0].amount);
      Ok(Effect(
        s.(invoices := s.invoices[id := paid]),
        if paid.status == Paid
        then [TransferNft(s.config.value.nftAddress, id, invoice.from), Send(invoice.from, funds[0])]
        else [Send(invoice.from, funds[0])]))
  }

  method PayInvoice(s: Storage, sender: Addr, funds: seq<Coin>, id: U64) returns (r: Result<seq<Message>, Error>)
    modifies s`invoices
    ensures Realises(r, s.View(), PayOutcome(old(s.View()), sender, funds, id))
  {
    if |funds| != 1 {
      return Err(NotOneToken);
    }
    var fund := funds[0];
    if s.config.None? {
      return Err(NotFound);
    }
    var config := s.config.value;
    if !Accepts(config, fund.denom) {
      return Err(AssetNotAccepted);
    }
    if id !in s.invoices {
      return Err(NotFound);
    }
    var invoice := s.invoices[id];
    if invoice.payeeAddress != sender {
      return Err(SenderIsReceiver);
    }
    match invoice.status {
      case Raised => return Err(NotYetAccepted);
      case Paid => return Err(AlreadyPaid);
      case Accepted =>
      case PartiallyPaid =>
    }
    var amountPaid, receivable := invoice.amountPaid.amount, invoice.receivable.amount;
    if amountPaid + fund.amount > U128_MAX {
      return Err(Panic);
    }
    if amountPaid + fund.amount > receivable {
      return Err(ExceedsReceivable);
    }
    var messages: seq<Message> := [];
    if amountPaid + fund.amount == receivable {
      invoice := invoice.(amountPaid := invoice.amountPaid.(amount := amountPaid + fund.amount), status := Paid);
      invoice := invoice.(dueAmount := invoice.dueAmount.(amount := 0));
      s.invoices := s.invoices[id := invoice];
      messages := [TransferNft(config.nftAddress, id, invoice.from)];
    } else {
      invoice := invoice.(amountPaid := invoice.amountPaid.(amount := amountPaid + fund.amount));
      invoice := invoice.(dueAmount := invoice.dueAmount.(amount := receivable - (amountPaid + fund.amount)));
      invoice := invoice.(status := PartiallyPaid);
      s.invoices := s.invoices[id := invoice];
    }
    messages := messages + [Send(invoice.from, fund)];
    ghost var paid := PaidUpTo(old(s.invoices)[id], amountPaid + fund.amount);
    assert invoice == paid;
    assert messages == if paid.status == Paid
                       then [TransferNft(config.nftAddress, id, paid.from), Send(paid.from, fund)]
                       else [Send(paid.from, fund)];
    return Ok(messages);
  }

  function AcceptInvoiceOutcome(s: Store, sender: Addr, id: U64): Outcome {
    if id !in s.invoices then Err(NotFound)
    else if s.invoices[id].payeeAddress != sender then Err(Unauthorized)
    else if s.invoices[id].status != Raised then Err(AlreadyAccepted)
    else Ok(Effect(s.(invoices := s.invoices[id := s.invoices[id].(status := Accepted)]), []))
  }

  method AcceptInvoice(s: Storage, sender: Addr, id: U64) returns (r: Result<seq<Message>, Error>)
    modifies s`invoices
    ensures Realises(r, s.View(), AcceptInvoiceOutcome(old(s.View()), sender, id))
  {
    if id !in s.invoices {
      return Err(NotFound);
    }
    var invoice := s.invoices[id];
    if invoice.payeeAddress != sender {
      return Err(Unauthorized);
    }
    if invoice.status != Raised {
      return Err(AlreadyAccepted);
    }
    invoice := invoice.(status := Accepted);
    s.invoices := s.invoices[id := invoice];
    return Ok([]);
  }
}
