/** Who owns the token of an invoice: what the collections record, against the invoice's status and the configured
    collection. */
module Custody {
  import opened Common
  import opened State
  import opened Contract
  import opened Invariants
  import opened Tokens
  import opened Runs
  import Invoicing

  // ---------------------------------------------------------------- what the collections hold for one invoice

  /** The collection an invoice's token was minted in. */
  function Home(receipts: seq<Receipt>, id: U64): Option<Addr> {
    var events := TokenEvents(receipts, id);
    if events != [] && events[0].Mint? then Some(events[0].collection) else None
  }

  /** The token was handed over in the collection it was minted in. */
  predicate HandedOver(events: seq<Message>) {
    |events| == 2 && !events[0].Send? && !events[1].Send? && events[0].collection == events[1].collection
  }

  /** Where the contract is the minter, an id exists only as the token minted for its invoice; and that token, minted
      in such a collection, is the contract's until it is handed over. */
  ghost predicate Kept(
    tokens: Collections, home: Option<Addr>, events: seq<Message>, contract: Addr, id: U64, stored: bool)
  {
    && (forall c: Addr {:trigger tokens.Owner(c, id)} :: c in tokens.minter && tokens.Owner(c, id).Some? ==>
                                                           home == Some(c))
    && (stored ==>
          && home.Some? && home.value in tokens.minter
          && (!HandedOver(events) ==> tokens.Owner(home.value, id) == Some(contract)))
  }

  ghost predicate InCustody(h: History, id: U64) {
    Kept(h.tokens, Home(h.receipts, id), TokenEvents(h.receipts, id), h.store.contract, id, id in h.store.invoices)
  }

  lemma KeptElsewhere(tokens: Collections, tokens': Collections, home: Option<Addr>, events: seq<Message>,
                      contract: Addr, id: U64, stored: bool)
    requires Kept(tokens, home, events, contract, id, stored) && SameTokens(tokens, tokens', id)
    ensures Kept(tokens', home, events, contract, id, stored)
  {
  }

  lemma KeptFromOthers(tokens: Collections, home: Option<Addr>, events: seq<Message>, contract: Addr, id: U64,
                       stored: bool, collection: Addr, other: U64, now: Option<Token>)
    requires Kept(tokens, home, events, contract, id, stored) && tokens.OpenToOthers(contract, collection, other)
    ensures Kept(tokens.Changed(collection, other, now), home, events, contract, id, stored)
  {
    var tokens' := tokens.Changed(collection, other, now);
    forall c: Addr | c in tokens'.minter && tokens'.Owner(c, id).Some?
      ensures home == Some(c)
    {
      assert tokens.Owner(c, id).Some?;
    }
  }

  lemma KeptAtMint(tokens: Collections, contract: Addr, id: U64, collection: Addr)
    requires Kept(tokens, None, [], contract, id, false) && collection in tokens.minter
    ensures var m := Mint(collection, id, contract);
            Kept(tokens.After(m), Some(collection), [m], contract, id, true)
  {
    var tokens' := tokens.After(Mint(collection, id, contract));
    forall c: Addr | c in tokens'.minter && tokens'.Owner(c, id).Some?
      ensures c == collection
    {
      assert c != collection ==> tokens.Owner(c, id).Some?;
    }
  }

  lemma KeptAtHandOver(
    tokens: Collections, home: Addr, minted: Message, contract: Addr, id: U64, collection: Addr, recipient: Addr)
    requires Kept(tokens, Some(home), [minted], contract, id, true) && minted.Mint? && minted.collection == home
    requires tokens.Movable(contract, collection, id)
    ensures var m := TransferNft(collection, id, recipient);
            Kept(tokens.After(m), Some(home), [minted, m], contract, id, true)
  {
    var m := TransferNft(collection, id, recipient);
    var tokens' := tokens.After(m);
    assert HandedOver([minted, m]) <==> collection == home;
    forall c: Addr | c in tokens'.minter && tokens'.Owner(c, id).Some?
      ensures c == home
    {
      assert tokens.Owner(c, id).Some?;
    }
  }

  // ---------------------------------------------------------------- one step

  /** What a payment does to the collections: nothing, or with the last payment a hand-over where it is configured. */
  lemma PayDelivers(h: History, e: Event, id: U64)
    requires Succeeds(h, e) && e.tx.msg == PayInvoice(id)
    ensures h.store.config.Some? && id in h.store.invoices && id in Step(h, e).store.invoices
    ensures var nft, to := h.store.config.value.nftAddress, h.store.invoices[id].from;
            if Step(h, e).store.invoices[id].status == Paid
            then h.tokens.Movable(h.store.contract, nft, id)
                 && Step(h, e).tokens == h.tokens.After(TransferNft(nft, id, to))
            else Step(h, e).tokens == h.tokens
  {
    StepShape(h, e);
    hide Dispatch, Answer, Step;
    PayShape(h.store, e.tx, id);
    var nft, to := h.store.config.value.nftAddress, h.store.invoices[id].from;
    var t, m := TransferNft(nft, id, to), Send(to, e.tx.funds[0]);
    DeliverTwo(h.tokens, h.store.contract, t, m, e.bankAccepts);
    DeliverOne(h.tokens, h.store.contract, m, e.bankAccepts);
    DeliverOne(h.tokens.After(t), h.store.contract, m, e.bankAccepts);
  }

  lemma RaiseDelivers(h: History, e: Event)
    requires Succeeds(h, e) && e.tx.msg.CreateInvoice?
    ensures h.store.config.Some? && h.store.config.value.nftAddress in h.tokens.minter
    ensures NextInvoiceId(h.store).Some?
    ensures Step(h, e).tokens ==
            h.tokens.After(Mint(h.store.config.value.nftAddress, NextInvoiceId(h.store).value, h.store.contract))
  {
    StepShape(h, e);
    hide Dispatch, Answer, Step;
    RaiseShape(h.store, e.tx);
    DeliverOne(h.tokens, h.store.contract, Dispatch(h.store, e.tx).value.messages[0], e.bankAccepts);
  }

  lemma {:induction false} NoTokenMessages(messages: seq<Message>, id: U64)
    requires TokensOf(messages, id) == []
    ensures forall m :: m in messages && !m.Send? ==> m.token != id
    decreases |messages|
  {
    if messages == [] {
    } else {
      assert messages == [messages[0]] + messages[1..];
      NoTokenMessages(messages[1..], id);
    }
  }

  lemma PaymentKeepsCustody(h: History, e: Event, id: U64)
    requires Booked(h, id) && InCustody(h, id) && Succeeds(h, e) && e.tx.msg == PayInvoice(id)
    ensures InCustody(Step(h, e), id)
  {
    var tx, h' := e.tx, Step(h, e);
    StepShape(h, e);
    hide Dispatch, Answer, Step, TokenEvents, TokensOf, Trail, Forwards, AmountSent, OnLadder, Kept;
    var events := TokenEvents(h.receipts, id);
    ReceiptsNext(h.receipts, Receipt(tx, Dispatch(h.store, tx).value.messages, h'.store), id);
    assert events + [] == events;
    PayShape(h.store, tx, id);
    PayMessages(h.store, tx, id, id);
    PayDelivers(h, e, id);
    if h'.store.invoices[id].status == Paid {
      var nft, to := h.store.config.value.nftAddress, h.store.invoices[id].from;
      assert events == [events[0]] && events + [TransferNft(nft, id, to)] == [events[0], TransferNft(nft, id, to)];
      KeptAtHandOver(h.tokens, events[0].collection, events[0], h.store.contract, id, nft, to);
    }
  }

  lemma SuccessKeepsCustody(h: History, e: Event, id: U64)
    requires Inv(h.store) && Booked(h, id) && InCustody(h, id) && Succeeds(h, e)
    ensures InCustody(Step(h, e), id)
  {
    var tx, h' := e.tx, Step(h, e);
    StepShape(h, e);
    hide Inv, Dispatch, Answer, Step, TokenEvents, TokensOf, Trail, Forwards, AmountSent, OnLadder, Kept;
    var effect := Dispatch(h.store, tx).value;
    var events := TokenEvents(h.receipts, id);
    ContractAddressStays(h.store, tx);
    ReceiptsNext(h.receipts, Receipt(tx, effect.messages, effect.store), id);
    assert events + [] == events;
    if !Concerns(tx, h'.store, id) {
      UnconcernedIsUntouched(h.store, tx, id);
      NoTokenMessages(effect.messages, id);
      DeliverElsewhere(h.tokens, h.store.contract, effect.messages, e.bankAccepts, id);
      KeptElsewhere(h.tokens, h'.tokens, Home(h.receipts, id), events, h.store.contract, id, id in h.store.invoices);
    } else if Creates(tx, h'.store, id) {
      CreateShape(h.store, tx, id);
      RaiseDelivers(h, e);
      RaiseShape(h.store, tx);
      var m := Mint(h.store.config.value.nftAddress, id, h.store.contract);
      assert [] + [m] == [m];
      KeptAtMint(h.tokens, h.store.contract, id, h.store.config.value.nftAddress);
    } else if tx.msg == AcceptInvoice(id) {
      AcceptShape(h.store, tx, id);
      MessagesOfOne(Mint("", id, ""), id);
    } else {
      PaymentKeepsCustody(h, e, id);
    }
  }

  lemma StepKeepsCustody(h: History, e: Event, id: U64)
    requires Inv(h.store) && Booked(h, id) && InCustody(h, id)
    ensures InCustody(Step(h, e), id)
  {
    hide Inv, Booked, Dispatch, TokenEvents;
    if Succeeds(h, e) {
      SuccessKeepsCustody(h, e, id);
    } else {
      StepShape(h, e);
      if e.Outside? && h.tokens.OpenToOthers(h.store.contract, e.collection, e.id) {
        KeptFromOthers(h.tokens, Home(h.receipts, id), TokenEvents(h.receipts, id), h.store.contract, id,
                       id in h.store.invoices, e.collection, e.id, e.now);
      }
    }
  }

  lemma {:induction false} RunKeepsCustody(h: History, events: seq<Event>, id: U64)
    requires Inv(h.store) && Booked(h, id) && InCustody(h, id)
    ensures InCustody(Run(h, events), id)
    decreases |events|
  {
    hide Inv, Booked, InCustody, Step;
    if events == [] {
    } else {
      StepKeepsInv(h, events[0]);
      StepKeepsBooks(h, events[0], id);
      StepKeepsCustody(h, events[0], id);
      RunKeepsCustody(Step(h, events[0]), events[1..], id);
    }
  }

  /** The facts about reachable histories that the theorems below start from. */
  lemma ReachedCustody(h: History, id: U64)
    requires Reached(h)
    ensures Inv(h.store) && Booked(h, id) && InCustody(h, id)
  {
    EveryInvoiceIsBooked(h, id);
    ReachedInv(h);
    var contract, minter, events :| Run(Start(contract, minter), events) == h;
    InitialInv(contract);
    hide Inv;
    RunKeepsCustody(Start(contract, minter), events, id);
  }

  // ---------------------------------------------------------------- which messages are taken

  /** Raising an invoice is refused by the token contract exactly when the contract is not the minter of the configured
      collection; the id is never taken. */
  lemma MintGoesThroughIff(h: History, tx: Tx, bankAccepts: bool)
    requires Reached(h) && tx.msg.CreateInvoice? && Dispatch(h.store, tx).Ok?
    ensures h.store.config.Some?
    ensures Succeeds(h, Call(tx, bankAccepts)) <==> h.store.config.value.nftAddress in h.tokens.minter
  {
    hide Dispatch, TokenEvents, Trail, Forwards, Step, Run, Reached, Mirrored, Indexed, Linked;
    RaiseShape(h.store, tx);
    var id := NextInvoiceId(h.store).value;
    ReachedCustody(h, id);
    FreshId(h.store, id);
    DeliverOne(h.tokens, h.store.contract, Dispatch(h.store, tx).value.messages[0], bankAccepts);
    SucceedsIff(h, tx, bankAccepts);
    assert h.store.config.value.nftAddress in h.tokens.minter ==>
             h.tokens.Owner(h.store.config.value.nftAddress, id) == None;
  }

  /** The payee pays exactly the rest of an accepted invoice in an accepted denom. */
  predicate IsLastPayment(s: Store, tx: Tx, id: U64) {
    && id in s.invoices && s.invoices[id].status in {Accepted, PartiallyPaid}
    && tx.msg == PayInvoice(id) && tx.sender == s.invoices[id].payeeAddress && |tx.funds| == 1
    && s.config.Some? && Invoicing.Accepts(s.config.value, tx.funds[0].denom)
    && tx.funds[0].amount + s.invoices[id].amountPaid.amount == s.invoices[id].receivable.amount
  }

  /** The last payment sends the token and the money, in this order; it succeeds when both are taken. */
  lemma LastPaymentSucceedsIff(h: History, tx: Tx, id: U64, bankAccepts: bool)
    requires Inv(h.store) && IsLastPayment(h.store, tx, id)
    ensures Succeeds(h, Call(tx, bankAccepts)) <==>
            bankAccepts && h.tokens.Movable(h.store.contract, h.store.config.value.nftAddress, id)
    ensures var h' := Step(h, Call(tx, bankAccepts));
            && id in h'.store.invoices
            && (h'.store.invoices[id].status == Paid <==> Succeeds(h, Call(tx, bankAccepts)))
  {
    hide Inv, Dispatch;
    AnyAcceptedDenomSettles(h.store, tx, id);
    PayShape(h.store, tx, id);
    StepShape(h, Call(tx, bankAccepts));
    SucceedsIff(h, tx, bankAccepts);
    hide Step, Succeeds;
    var nft, to := h.store.config.value.nftAddress, h.store.invoices[id].from;
    var t, m := TransferNft(nft, id, to), Send(to, tx.funds[0]);
    DeliverTwo(h.tokens, h.store.contract, t, m, bankAccepts);
    DeliverOne(h.tokens.After(t), h.store.contract, m, bankAccepts);
  }

  /** The token of an unpaid invoice is the contract's, in the collection it was minted in. */
  lemma UnpaidIsKept(h: History, id: U64)
    requires Reached(h) && id in h.store.invoices && h.store.invoices[id].status != Paid
    ensures Home(h.receipts, id).Some? && Home(h.receipts, id).value in h.tokens.minter
    ensures h.tokens.Owner(Home(h.receipts, id).value, id) == Some(h.store.contract)
  {
    ReachedCustody(h, id);
    hide Inv, TokenEvents, Trail, Forwards, AmountSent, OnLadder, Reached;
  }

  /** The payment that completes an invoice goes through, as far as the token contract is concerned, exactly when the
      contract may move that id in the collection configured now: always, when the token was minted there; never, when
      it is another collection in which the contract is the minter. */
  lemma LastPaymentGoesThroughIff(h: History, tx: Tx, id: U64, bankAccepts: bool)
    requires Reached(h) && IsLastPayment(h.store, tx, id)
    ensures var nft := h.store.config.value.nftAddress;
            && (Succeeds(h, Call(tx, bankAccepts)) <==> bankAccepts && h.tokens.Movable(h.store.contract, nft, id))
            && (Home(h.receipts, id) == Some(nft) ==> h.tokens.Movable(h.store.contract, nft, id))
            && (nft in h.tokens.minter && Home(h.receipts, id) != Some(nft) ==>
                  !h.tokens.Movable(h.store.contract, nft, id))
  {
    ReachedCustody(h, id);
    hide Inv, Booked, Reached, Home, Succeeds;
    LastPaymentSucceedsIff(h, tx, id, bankAccepts);
    UnpaidIsKept(h, id);
    var nft := h.store.config.value.nftAddress;
    assert h.tokens.Movable(h.store.contract, nft, id) ==> h.tokens.Owner(nft, id).Some?;
  }

  // ---------------------------------------------------------------- custody follows the status

  lemma BecomesPaid(h: History, e: Event, id: U64)
    requires Inv(h.store) && id in h.store.invoices && h.store.invoices[id].status != Paid
    requires id in Step(h, e).store.invoices && Step(h, e).store.invoices[id].status == Paid
    ensures Succeeds(h, e) && e.tx.msg == PayInvoice(id)
  {
    StepShape(h, e);
    hide Inv, Dispatch, Step;
    if !Concerns(e.tx, Step(h, e).store, id) {
      UnconcernedIsUntouched(h.store, e.tx, id);
    } else if Creates(e.tx, Step(h, e).store, id) {
      CreateShape(h.store, e.tx, id);
    } else if e.tx.msg == AcceptInvoice(id) {
      AcceptShape(h.store, e.tx, id);
    }
  }

  /** Until an invoice is paid the contract owns its token. The step that makes it paid gives the token to the issuer,
      if and only if the collection configured before that step is the one the token was minted in; otherwise the
      contract keeps it. */
  lemma CustodyFollowsStatusIff(h: History, e: Event, id: U64)
    requires Reached(h) && id in h.store.invoices && h.store.invoices[id].status != Paid
    ensures Home(h.receipts, id).Some? && id in Step(h, e).store.invoices
    ensures h.tokens.Owner(Home(h.receipts, id).value, id) == Some(h.store.contract)
    ensures Step(h, e).store.invoices[id].status == Paid ==>
              && h.store.config.Some?
              && var home, from, nft :=
                   Home(h.receipts, id).value, h.store.invoices[id].from, h.store.config.value.nftAddress;
                 var owner := Step(h, e).tokens.Owner(home, id);
                 && owner == Some(if nft == home then from else h.store.contract)
                 && (from != h.store.contract ==> (owner == Some(from) <==> nft == home))
  {
    UnpaidIsKept(h, id);
    ReachedInv(h);
    hide Inv, Reached, Home, Dispatch;
    StepProgresses(h, e, id);
    if Step(h, e).store.invoices[id].status == Paid {
      BecomesPaid(h, e, id);
      PayDelivers(h, e, id);
    }
  }

  lemma TokenEventsStart(h: History, e: Event, id: U64)
    ensures TokenEvents(h.receipts, id) <= TokenEvents(Step(h, e).receipts, id)
  {
    StepShape(h, e);
    hide Dispatch, Step, TokensOf;
    if Succeeds(h, e) {
      ReceiptsNext(h.receipts, Receipt(e.tx, Dispatch(h.store, e.tx).value.messages, Step(h, e).store), id);
    }
  }

  lemma {:induction false} TokenEventsStay(h: History, events: seq<Event>, id: U64)
    ensures TokenEvents(h.receipts, id) <= TokenEvents(Run(h, events).receipts, id)
    decreases |events|
  {
    hide Step, TokenEvents;
    if events == [] {
    } else {
      TokenEventsStart(h, events[0], id);
      TokenEventsStay(Step(h, events[0]), events[1..], id);
    }
  }

  /** The last payment's token message names the collection configured before it. */
  lemma PaidByTransfer(h: History, e: Event, id: U64)
    requires Inv(h.store) && id in h.store.invoices && h.store.invoices[id].status != Paid
    requires id in Step(h, e).store.invoices && Step(h, e).store.invoices[id].status == Paid
    ensures h.store.config.Some? && Step(h, e).store.contract == h.store.contract
    ensures TokenEvents(Step(h, e).receipts, id) ==
            TokenEvents(h.receipts, id)
            + [TransferNft(h.store.config.value.nftAddress, id, h.store.invoices[id].from)]
  {
    BecomesPaid(h, e, id);
    StepShape(h, e);
    hide Inv, Dispatch, Step, TokenEvents, TokensOf, SendsOf, Trail, Forwards, Answer;
    PayShape(h.store, e.tx, id);
    PayMessages(h.store, e.tx, id, id);
    ReceiptsNext(h.receipts, Receipt(e.tx, Dispatch(h.store, e.tx).value.messages, Step(h, e).store), id);
  }

  lemma {:induction false} ContractStays(h: History, events: seq<Event>)
    ensures Run(h, events).store.contract == h.store.contract
    decreases |events|
  {
    hide Dispatch;
    if events == [] {
    } else {
      StepShape(h, events[0]);
      if Succeeds(h, events[0]) {
        ContractAddressStays(h.store, events[0].tx);
      }
      ContractStays(Step(h, events[0]), events[1..]);
    }
  }

  /** A token left behind is never recovered: whatever is called later, the contract owns it. */
  lemma StrandedForever(h: History, e: Event, later: seq<Event>, id: U64)
    requires Reached(h) && id in h.store.invoices && h.store.invoices[id].status != Paid
    requires id in Step(h, e).store.invoices && Step(h, e).store.invoices[id].status == Paid
    requires h.store.config.Some? && Home(h.receipts, id) != Some(h.store.config.value.nftAddress)
    ensures Home(h.receipts, id).Some?
    ensures var h' := Run(Step(h, e), later);
            && id in h'.store.invoices && h'.store.invoices[id].status == Paid
            && h'.tokens.Owner(Home(h.receipts, id).value, id) == Some(h.store.contract)
  {
    ReachedCustody(h, id);
    PaidByTransfer(h, e, id);
    var paid := Step(h, e);
    ReachedStep(h, e);
    ReachedCustody(paid, id);
    ReachedRun(paid, later);
    hide Reached, Step, Dispatch, Inv, TokenEvents, Trail, Forwards, AmountSent, OnLadder;
    InvoicesOnlyProgress(paid, later, id);
    TokenEventsStay(paid, later, id);
    ReachedCustody(Run(paid, later), id);
    ContractStays(paid, later);
  }

  // ---------------------------------------------------------------- a collection that moves, and one that stays

  /** Calling `SetConfig` always succeeds, whoever calls, and leaves tokens and receipts about them alone. */
  lemma Reconfigured(h: History, tx: Tx, bankAccepts: bool, id: U64)
    requires tx.msg.SetConfig?
    ensures Step(h, Call(tx, bankAccepts)).store ==
            h.store.(config := Some(Config(tx.msg.nftAddress, tx.msg.owner, tx.msg.acceptedAssets)))
    ensures Step(h, Call(tx, bankAccepts)).tokens == h.tokens
    ensures Home(Step(h, Call(tx, bankAccepts)).receipts, id) == Home(h.receipts, id)
  {
    ReceiptsNext(h.receipts, Receipt(tx, [], Step(h, Call(tx, bankAccepts)).store), id);
    MessagesOfOne(Mint("", id, ""), id);
    assert TokenEvents(h.receipts, id) + [] == TokenEvents(h.receipts, id);
  }

  /** The configuration is moved to another collection before the last payment. The payment then completes the invoice
      exactly when the contract may move that id there, and is refused without effect otherwise; either way the contract
      still owns the token that was minted for the invoice. */
  lemma MovedCollectionStrandsToken(h: History, config: Tx, payment: Tx, id: U64)
    requires Reached(h) && id in h.store.invoices && config.msg.SetConfig?
    requires Home(h.receipts, id) != Some(config.msg.nftAddress)
    requires IsLastPayment(Step(h, Call(config, true)).store, payment, id)
    ensures Home(h.receipts, id).Some?
    ensures var moved := Step(h, Call(config, true));
            var after := Step(moved, Call(payment, true));
            && id in after.store.invoices
            && (after.store.invoices[id].status == Paid
                <==> h.tokens.Movable(h.store.contract, config.msg.nftAddress, id))
            && (!h.tokens.Movable(h.store.contract, config.msg.nftAddress, id) ==> after == moved)
            && after.tokens.Owner(Home(h.receipts, id).value, id) == Some(h.store.contract)
  {
    ReachedStep(h, Call(config, true));
    ReachedInv(h);
    StepKeepsInv(h, Call(config, true));
    Reconfigured(h, config, true, id);
    hide Inv, Reached, Dispatch, Home;
    var moved := Step(h, Call(config, true));
    StepShape(moved, Call(payment, true));
    hide Step, Succeeds;
    UnpaidIsKept(h, id);
    LastPaymentSucceedsIff(moved, payment, id, true);
    CustodyFollowsStatusIff(moved, Call(payment, true), id);
  }

  predicate KeepsCollection(events: seq<Event>, collection: Addr) {
    forall k :: 0 <= k < |events| ==>
      (events[k].Call? && events[k].tx.msg.SetConfig? ==> events[k].tx.msg.nftAddress == collection)
  }

  /** The configuration, if set, and every token message about one invoice so far name one collection. */
  predicate OneCollection(h: History, collection: Addr, id: U64) {
    && (h.store.config.Some? ==> h.store.config.value.nftAddress == collection)
    && forall m :: m in TokenEvents(h.receipts, id) ==> !m.Send? && m.collection == collection
  }

  lemma CallKeepsCollection(s: Store, tx: Tx, collection: Addr, id: U64)
    requires Dispatch(s, tx).Ok?
    requires s.config.Some? ==> s.config.value.nftAddress == collection
    requires tx.msg.SetConfig? ==> tx.msg.nftAddress == collection
    ensures var e := Dispatch(s, tx).value;
            && (e.store.config.Some? ==> e.store.config.value.nftAddress == collection)
            && forall m :: m in TokensOf(e.messages, id) ==> !m.Send? && m.collection == collection
  {
    match tx.msg {
      case PayInvoice(other) =>
        PayShape(s, tx, other);
        PayMessages(s, tx, other, id);
      case CreateInvoice(_, _, _, _, _) =>
        RaiseShape(s, tx);
        MessagesOfOne(Dispatch(s, tx).value.messages[0], id);
      case _ =>
    }
  }

  lemma StepKeepsCollection(h: History, e: Event, collection: Addr, id: U64)
    requires OneCollection(h, collection, id)
    requires e.Call? && e.tx.msg.SetConfig? ==> e.tx.msg.nftAddress == collection
    ensures OneCollection(Step(h, e), collection, id)
  {
    StepShape(h, e);
    hide Dispatch, TokenEvents, TokensOf, Step;
    if Succeeds(h, e) {
      CallKeepsCollection(h.store, e.tx, collection, id);
      ReceiptsNext(h.receipts, Receipt(e.tx, Dispatch(h.store, e.tx).value.messages, Step(h, e).store), id);
    }
  }

  lemma {:induction false} RunKeepsCollection(h: History, events: seq<Event>, collection: Addr, id: U64)
    requires OneCollection(h, collection, id) && KeepsCollection(events, collection)
    ensures OneCollection(Run(h, events), collection, id)
    decreases |events|
  {
    hide OneCollection, Step;
    if events == [] {
    } else {
      assert KeepsCollection(events[1..], collection);
      StepKeepsCollection(h, events[0], collection, id);
      RunKeepsCollection(Step(h, events[0]), events[1..], collection, id);
    }
  }

  lemma StepKeepsMinter(h: History, e: Event)
    ensures Step(h, e).tokens.minter == h.tokens.minter
  {
    hide Dispatch;
    if Succeeds(h, e) {
      DeliverKeepsMinter(h.tokens, h.store.contract, Dispatch(h.store, e.tx).value.messages, e.bankAccepts);
    }
  }

  lemma {:induction false} MinterStays(h: History, events: seq<Event>)
    ensures Run(h, events).tokens.minter == h.tokens.minter
    decreases |events|
  {
    hide Step;
    if events == [] {
    } else {
      StepKeepsMinter(h, events[0]);
      MinterStays(Step(h, events[0]), events[1..]);
    }
  }

  lemma PaymentIsTaken(h: History, tx: Tx, id: U64)
    requires Reached(h) && tx.msg == PayInvoice(id) && Dispatch(h.store, tx).Ok?
    requires h.store.config.Some? && OneCollection(h, h.store.config.value.nftAddress, id)
    ensures Succeeds(h, Call(tx, true))
  {
    ReachedCustody(h, id);
    PayShape(h.store, tx, id);
    hide Inv, Dispatch, TokenEvents, Trail, Forwards, AmountSent, OnLadder, Reached;
    if IsLastPayment(h.store, tx, id) {
      UnpaidIsKept(h, id);
      assert TokenEvents(h.receipts, id)[0] in TokenEvents(h.receipts, id);
      LastPaymentGoesThroughIff(h, tx, id, true);
    } else {
      SucceedsIff(h, tx, true);
      DeliverOne(h.tokens, h.store.contract, Send(h.store.invoices[id].from, tx.funds[0]), true);
    }
  }

  /** If the configuration never names another collection, and the contract is the minter of that one, no token message
      is ever refused: whatever the handler takes, succeeds, once the bank pays. */
  lemma NoTokenMessageIsRefused(contract: Addr, minter: set<Addr>, events: seq<Event>, collection: Addr, tx: Tx)
    requires KeepsCollection(events, collection) && collection in minter
    ensures var h := Run(Start(contract, minter), events);
            Succeeds(h, Call(tx, true)) <==> Dispatch(h.store, tx).Ok?
  {
    var h := Run(Start(contract, minter), events);
    assert Reached(h);
    SucceedsIff(h, tx, true);
    MinterStays(Start(contract, minter), events);
    ReachedInv(h);
    var id := if tx.msg.PayInvoice? then tx.msg.invoiceId else 0;
    assert OneCollection(Start(contract, minter), collection, id);
    RunKeepsCollection(Start(contract, minter), events, collection, id);
    hide Run, Reached, Dispatch, Inv, TokenEvents;
    if Dispatch(h.store, tx).Ok? {
      match tx.msg {
        case CreateInvoice(_, _, _, _, _) =>
          MintGoesThroughIff(h, tx, true);
        case PayInvoice(_) =>
          PayShape(h.store, tx, id);
          PaymentIsTaken(h, tx, id);
        case AcceptInvoice(other) =>
          AcceptShape(h.store, tx, other);
        case _ =>
          QuietShape(h.store, tx);
      }
    }
  }

  /** Custody as a function of status: nobody for an unused id, the contract for an unpaid invoice, the issuer for a
      paid one. */
  function RightfulOwner(s: Store, id: U64): Option<Addr> {
    if id !in s.invoices then None
    else if s.invoices[id].status == Paid then Some(s.invoices[id].from)
    else Some(s.contract)
  }

  predicate ActsOn(e: Event, collection: Addr, id: U64) {
    e.Outside? && e.collection == collection && e.id == id
  }

  lemma PaidIsLeftAlone(s: Store, tx: Tx, id: U64)
    requires Inv(s) && id in s.invoices && s.invoices[id].status == Paid && Dispatch(s, tx).Ok?
    ensures !Concerns(tx, Dispatch(s, tx).value.store, id)
  {
    hide Inv, Dispatch;
    if Creates(tx, Dispatch(s, tx).value.store, id) {
      CreateShape(s, tx, id);
    } else if tx.msg == AcceptInvoice(id) {
      AcceptShape(s, tx, id);
    } else if tx.msg == PayInvoice(id) {
      PayShape(s, tx, id);
    }
  }

  /** Nothing the contract does moves the token of a paid invoice. */
  lemma PaidTokenStays(h: History, e: Event, collection: Addr, id: U64)
    requires Inv(h.store) && id in h.store.invoices && h.store.invoices[id].status == Paid
    requires !ActsOn(e, collection, id)
    ensures Step(h, e).tokens.Owner(collection, id) == h.tokens.Owner(collection, id)
    ensures id in Step(h, e).store.invoices && Step(h, e).store.invoices[id] == h.store.invoices[id]
  {
    hide Inv, Dispatch;
    StepProgresses(h, e, id);
    StepShape(h, e);
    if Succeeds(h, e) {
      hide Step;
      var effect := Dispatch(h.store, e.tx).value;
      if Concerns(e.tx, effect.store, id) {
        PaidIsLeftAlone(h.store, e.tx, id);
      }
      UnconcernedIsUntouched(h.store, e.tx, id);
      NoTokenMessages(effect.messages, id);
      DeliverElsewhere(h.tokens, h.store.contract, effect.messages, e.bankAccepts, id);
    }
  }

  lemma UnpaidIsRightful(h: History, collection: Addr, id: U64)
    requires Reached(h) && OneCollection(h, collection, id) && collection in h.tokens.minter
    requires id in h.store.invoices ==> h.store.invoices[id].status != Paid
    ensures h.tokens.Owner(collection, id) == RightfulOwner(h.store, id)
  {
    ReachedCustody(h, id);
    if id in h.store.invoices {
      UnpaidIsKept(h, id);
    }
    hide Inv, TokenEvents, Trail, Forwards, AmountSent, OnLadder, Reached;
    var events := TokenEvents(h.receipts, id);
    if id in h.store.invoices {
      assert events[0] in events;
    }
  }

  lemma NewIsUnpaid(h: History, e: Event, id: U64)
    requires Inv(h.store) && id !in h.store.invoices && id in Step(h, e).store.invoices
    ensures Step(h, e).store.invoices[id].status == Raised
  {
    hide Inv, Dispatch;
    StepShape(h, e);
    hide Step;
    if !Concerns(e.tx, Step(h, e).store, id) {
      UnconcernedIsUntouched(h.store, e.tx, id);
    } else if Creates(e.tx, Step(h, e).store, id) {
      CreateShape(h.store, e.tx, id);
    } else {
      StoredInvoiceOfCall(h.store, e.tx, id);
    }
  }

  lemma StepKeepsOwner(h: History, e: Event, collection: Addr, id: U64)
    requires Reached(h) && OneCollection(h, collection, id) && collection in h.tokens.minter
    requires e.Call? && e.tx.msg.SetConfig? ==> e.tx.msg.nftAddress == collection
    requires !ActsOn(e, collection, id) && h.tokens.Owner(collection, id) == RightfulOwner(h.store, id)
    ensures Step(h, e).tokens.Owner(collection, id) == RightfulOwner(Step(h, e).store, id)
  {
    ReachedCustody(h, id);
    ReachedStep(h, e);
    StepKeepsMinter(h, e);
    StepKeepsCollection(h, e, collection, id);
    hide Inv, InCustody, Step, Reached, TokenEvents, Trail, Forwards, AmountSent, OnLadder;
    if !(id in Step(h, e).store.invoices && Step(h, e).store.invoices[id].status == Paid) {
      UnpaidIsRightful(Step(h, e), collection, id);
    } else if id !in h.store.invoices {
      NewIsUnpaid(h, e, id);
    } else if h.store.invoices[id].status == Paid {
      PaidTokenStays(h, e, collection, id);
    } else {
      CustodyFollowsStatusIff(h, e, id);
      StepProgresses(h, e, id);
      var events := TokenEvents(h.receipts, id);
      assert events[0] in events;
    }
  }

  lemma {:induction false} RunKeepsOwner(h: History, events: seq<Event>, collection: Addr, id: U64)
    requires Reached(h) && OneCollection(h, collection, id) && collection in h.tokens.minter
    requires KeepsCollection(events, collection) && forall e :: e in events ==> !ActsOn(e, collection, id)
    requires h.tokens.Owner(collection, id) == RightfulOwner(h.store, id)
    ensures Run(h, events).tokens.Owner(collection, id) == RightfulOwner(Run(h, events).store, id)
    decreases |events|
  {
    hide Reached, OneCollection, ActsOn, RightfulOwner, Step;
    if events == [] {
    } else {
      assert KeepsCollection(events[1..], collection);
      assert events[0] in events;
      StepKeepsOwner(h, events[0], collection, id);
      ReachedStep(h, events[0]);
      StepKeepsMinter(h, events[0]);
      StepKeepsCollection(h, events[0], collection, id);
      RunKeepsOwner(Step(h, events[0]), events[1..], collection, id);
    }
  }

  /** While the configured collection never changes, the owner of every token is a function of its invoice's status: the
      contract until it is paid, the issuer from then on, unless others act on it later. */
  lemma CustodyIsStatus(contract: Addr, minter: set<Addr>, events: seq<Event>, collection: Addr, id: U64)
    requires KeepsCollection(events, collection) && collection in minter
    requires forall e :: e in events ==> !ActsOn(e, collection, id)
    ensures var h := Run(Start(contract, minter), events);
            h.tokens.Owner(collection, id) == RightfulOwner(h.store, id)
  {
    var start := Start(contract, minter);
    assert Run(start, []) == start;
    assert Reached(start);
    RunKeepsOwner(start, events, collection, id);
  }
}
