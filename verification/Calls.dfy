/** Exactly when each call of contracts/core is taken, and which refusal comes first, on the storage and the call
    alone. */
module Calls {
  import opened Common
  import opened State
  import opened Contract
  import opened Invariants
  import Profile
  import Invoicing

  /** A configuration is set, and one of its assets has this denom. */
  predicate Lists(config: Option<Config>, denom: Denom) {
    config.Some? && exists asset :: asset in config.value.acceptedAssets && asset.denom == denom
  }

  lemma AcceptsIffListed(config: Config, denom: Denom)
    ensures Invoicing.Accepts(config, denom) <==> Lists(Some(config), denom)
  {
    if asset :| asset in config.acceptedAssets && asset.denom == denom {
      var i :| 0 <= i < |config.acceptedAssets| && config.acceptedAssets[i] == asset;
    }
  }

  function ErrorOf(o: Outcome): Option<Error> {
    if o.Err? then Some(o.error) else None
  }

  // ---------------------------------------------------------------- invoices

  /** The counter can give out one more id and still move past it. */
  predicate HasNextId(s: Store) {
    (if s.invoiceId.Some? then s.invoiceId.value else 0) + 2 <= U64_MAX
  }

  /** An invoice is raised exactly when nothing is attached, the receivable is in a listed denom, and an approved
      profile raises it on a contact that may be billed, for no less than is declared as paid. */
  lemma RaiseSucceedsIff(s: Store, tx: Tx)
    requires tx.msg.CreateInvoice?
    ensures Dispatch(s, tx).Ok? <==>
            && tx.funds == [] && tx.sender != tx.msg.payee
            && tx.msg.receivable.denom == tx.msg.amountPaid.denom && Lists(s.config, tx.msg.receivable.denom)
            && tx.sender in s.profiles && s.profiles[tx.sender].kycStatus == Approved
            && tx.msg.payee in s.profiles[tx.sender].contacts
            && tx.msg.payee in s.profiles && s.profiles[tx.msg.payee].kycStatus != Unverified
            && tx.msg.amountPaid.amount <= tx.msg.receivable.amount && HasNextId(s)
  {
    if s.config.Some? {
      AcceptsIffListed(s.config.value, tx.msg.receivable.denom);
    }
    hide Invoicing.Accepts, Lists;
  }

  /** Under the invariant a contact can always be billed: neither verification nor a missing profile stops it. */
  lemma AnyContactIsBilledIff(s: Store, tx: Tx)
    requires Inv(s) && tx.msg.CreateInvoice?
    ensures Dispatch(s, tx).Ok? <==>
            && tx.funds == [] && tx.msg.receivable.denom == tx.msg.amountPaid.denom
            && Lists(s.config, tx.msg.receivable.denom)
            && tx.sender in s.profiles && tx.msg.payee in s.profiles[tx.sender].contacts
            && tx.msg.amountPaid.amount <= tx.msg.receivable.amount && HasNextId(s)
  {
    hide Dispatch, Lists, Numbered, Indexed, Linked, NoDuplicates, Converse;
    RaiseSucceedsIff(s, tx);
    if tx.sender in s.profiles {
      assert ListsOk(tx.sender, s.profiles[tx.sender], s.profiles.Keys);
      if tx.msg.payee in s.profiles {
        assert ListsOk(tx.msg.payee, s.profiles[tx.msg.payee], s.profiles.Keys);
      }
    }
  }

  /** Each refusal of an invoice means that its test failed and that every test before it passed. */
  lemma RaiseRefusalsInOrder(s: Store, tx: Tx)
    requires tx.msg.CreateInvoice?
    ensures var refusal, me, payee := ErrorOf(Dispatch(s, tx)), tx.sender, tx.msg.payee;
            var noFunds := tx.funds == [];
            var toOther := noFunds && me != payee;
            var oneDenom := toOther && tx.msg.receivable.denom == tx.msg.amountPaid.denom;
            var configured := oneDenom && s.config.Some?;
            var listed := configured && Lists(s.config, tx.msg.receivable.denom);
            var known := listed && me in s.profiles;
            var approved := known && s.profiles[me].kycStatus == Approved;
            var contact := approved && payee in s.profiles[me].contacts;
            var payeeKnown := contact && payee in s.profiles;
            var payeeVerified := payeeKnown && s.profiles[payee].kycStatus != Unverified;
            var fits := payeeVerified && tx.msg.amountPaid.amount <= tx.msg.receivable.amount && HasNextId(s);
            && (refusal == Some(FundsNotAccepted) <==> !noFunds)
            && (refusal == Some(SenderIsReceiver) <==> noFunds && !toOther)
            && (refusal == Some(DenomsDiffer) <==> toOther && !oneDenom)
            && (refusal == Some(NotFound) <==> oneDenom && !configured)
            && (refusal == Some(AssetNotAccepted) <==> configured && !listed)
            && (refusal == Some(NoProfile) <==> listed && !known)
            && (refusal == Some(CreatorNotVerified) <==> known && !approved)
            && (refusal == Some(NotInContacts) <==> approved && !contact)
            && (refusal == Some(NoCounterpartyProfile) <==> contact && !payeeKnown)
            && (refusal == Some(CounterpartyNotVerified) <==> payeeKnown && !payeeVerified)
            && (refusal == Some(Panic) <==> payeeVerified && !fits)
            && (refusal == None <==> fits)
  {
    if s.config.Some? {
      AcceptsIffListed(s.config.value, tx.msg.receivable.denom);
    }
    hide Invoicing.Accepts, Lists;
  }

  /** A payment is taken exactly when the payee of an accepted and unpaid invoice attaches one coin, in a listed denom,
      of no more than the rest. */
  lemma PaySucceedsIff(s: Store, tx: Tx, id: U64)
    requires tx.msg == PayInvoice(id)
    ensures Dispatch(s, tx).Ok? <==>
            && |tx.funds| == 1 && Lists(s.config, tx.funds[0].denom)
            && id in s.invoices && s.invoices[id].payeeAddress == tx.sender
            && s.invoices[id].status in {Accepted, PartiallyPaid}
            && s.invoices[id].amountPaid.amount + tx.funds[0].amount <= s.invoices[id].receivable.amount
  {
    if s.config.Some? && |tx.funds| == 1 {
      AcceptsIffListed(s.config.value, tx.funds[0].denom);
    }
    hide Invoicing.Accepts, Lists;
  }

  lemma PayRefusalsInOrder(s: Store, tx: Tx, id: U64)
    requires tx.msg == PayInvoice(id)
    ensures var refusal := ErrorOf(Dispatch(s, tx));
            var oneCoin := |tx.funds| == 1;
            var configured := oneCoin && s.config.Some?;
            var listed := configured && Lists(s.config, tx.funds[0].denom);
            var stored := listed && id in s.invoices;
            var byPayee := stored && s.invoices[id].payeeAddress == tx.sender;
            var agreed := byPayee && s.invoices[id].status != Raised;
            var unpaid := agreed && s.invoices[id].status != Paid;
            var summed := unpaid && s.invoices[id].amountPaid.amount + tx.funds[0].amount <= U128_MAX;
            var fits := summed
                        && s.invoices[id].amountPaid.amount + tx.funds[0].amount <= s.invoices[id].receivable.amount;
            && (refusal == Some(NotOneToken) <==> !oneCoin)
            && (refusal == Some(NotFound) <==> (oneCoin && !configured) || (listed && !stored))
            && (refusal == Some(AssetNotAccepted) <==> configured && !listed)
            && (refusal == Some(SenderIsReceiver) <==> stored && !byPayee)
            && (refusal == Some(NotYetAccepted) <==> byPayee && !agreed)
            && (refusal == Some(AlreadyPaid) <==> agreed && !unpaid)
            && (refusal == Some(Panic) <==> unpaid && !summed)
            && (refusal == Some(ExceedsReceivable) <==> summed && !fits)
            && (refusal == None <==> fits)
  {
    if s.config.Some? && |tx.funds| == 1 {
      AcceptsIffListed(s.config.value, tx.funds[0].denom);
    }
    hide Invoicing.Accepts, Lists;
  }

  /** An invoice is accepted exactly by its payee, while it is just raised. */
  lemma AcceptInvoiceSucceedsIff(s: Store, tx: Tx, id: U64)
    requires tx.msg == AcceptInvoice(id)
    ensures var refusal := ErrorOf(Dispatch(s, tx));
            var stored := id in s.invoices;
            var byPayee := stored && s.invoices[id].payeeAddress == tx.sender;
            var raised := byPayee && s.invoices[id].status == Raised;
            && (refusal == Some(NotFound) <==> !stored)
            && (refusal == Some(Unauthorized) <==> stored && !byPayee)
            && (refusal == Some(AlreadyAccepted) <==> byPayee && !raised)
            && (refusal == None <==> raised)
  {
  }

  // ---------------------------------------------------------------- contacts and configuration

  /** A request is recorded exactly between two different profiles, unless one is already pending that way. */
  lemma RequestSucceedsIff(s: Store, tx: Tx)
    requires tx.msg.CreateRequest?
    ensures var refusal, me, other := ErrorOf(Dispatch(s, tx)), tx.sender, tx.msg.address;
            var toOther := me != other;
            var known := toOther && me in s.profiles;
            var first := known && other !in s.profiles[me].sentRequests;
            var otherKnown := first && other in s.profiles;
            && (refusal == Some(Unauthorized) <==> !toOther)
            && (refusal == Some(NoProfile) <==> toOther && !known)
            && (refusal == Some(RequestAlreadySent) <==> known && !first)
            && (refusal == Some(NoCounterpartyProfile) <==> first && !otherKnown)
            && (refusal == None <==> otherKnown)
  {
  }

  /** A request is accepted exactly when nothing is attached and it is recorded on both sides. */
  lemma AcceptRequestSucceedsIff(s: Store, tx: Tx)
    requires tx.msg.AcceptRequest?
    ensures var refusal, me, other := ErrorOf(Dispatch(s, tx)), tx.sender, tx.msg.address;
            var noFunds := tx.funds == [];
            var known := noFunds && me in s.profiles;
            var received := known && other in s.profiles[me].receivedRequests;
            var otherKnown := received && other in s.profiles;
            var sent := otherKnown && me in s.profiles[other].sentRequests;
            && (refusal == Some(FundsNotAccepted) <==> !noFunds)
            && (refusal == Some(NoProfile) <==> noFunds && !known)
            && (refusal == Some(NoRequestFound) <==> known && !received)
            && (refusal == Some(NoCounterpartyProfile) <==> received && !otherKnown)
            && (refusal == Some(Panic) <==> otherKnown && !sent)
            && (refusal == None <==> sent)
  {
    hide Profile.RemoveFirst;
  }

  /** Under the invariant a request is accepted exactly when it is on the list of requests received. */
  lemma ReceivedIsAcceptedIff(s: Store, tx: Tx)
    requires Mirrored(s.profiles) && tx.msg.AcceptRequest?
    ensures Dispatch(s, tx).Ok? <==>
            && tx.funds == [] && tx.sender in s.profiles
            && tx.msg.address in s.profiles[tx.sender].receivedRequests
  {
    AcceptRequestSucceedsIff(s, tx);
    AcceptNeverPanics(s, tx.sender, tx.funds, tx.msg.address);
    hide Profile.AcceptOutcome, Mirrored;
  }

  /** A profile is created exactly once for each address; the configuration can always be set. */
  lemma ProfileSucceedsIff(s: Store, tx: Tx)
    ensures tx.msg.CreateProfile? ==>
              var refusal, noFunds := ErrorOf(Dispatch(s, tx)), tx.funds == [];
              && (refusal == Some(FundsNotAccepted) <==> !noFunds)
              && (refusal == Some(ProfileExists) <==> noFunds && tx.sender in s.profiles)
              && (refusal == None <==> noFunds && tx.sender !in s.profiles)
    ensures tx.msg.SetConfig? ==> ErrorOf(Dispatch(s, tx)) == None
  {
    hide Profile.RequestOutcome, Profile.AcceptOutcome;
    hide Invoicing.RaiseOutcome, Invoicing.PayOutcome, Invoicing.AcceptInvoiceOutcome;
  }
}
