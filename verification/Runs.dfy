/** Whole runs of contracts/core: reachable states, each invoice's payments, status history and token, and the money
    that passes through the contract. */
module Runs {
  import opened Common
  import opened State
  import opened Contract
  import opened Invariants
  import opened Tokens
  import Invoicing
  import Profile
  import Queries

  // ---------------------------------------------------------------- runs

  /** A successful transaction, the messages it sent, and the storage it left. */
  datatype Receipt = Receipt(tx: Tx, messages: seq<Message>, after: Store)

  /** The contract's storage, the token collections around it, and the successful transactions so far. */
  datatype History = History(store: Store, tokens: Collections, receipts: seq<Receipt>)

  /** A transaction, with whether the bank pays what the call forwards; or what others do to a token. */
  datatype Event =
    | Call(tx: Tx, bankAccepts: bool)
    | Outside(collection: Addr, id: U64, now: Option<Token>)

  /** The collections after the messages of a call, if they take all of them. */
  function Delivery(h: History, tx: Tx, bankAccepts: bool): Option<Collections> {
    match Dispatch(h.store, tx)
    case Ok(effect) => h.tokens.Deliver(h.store.contract, effect.messages, bankAccepts)
    case Err(_) => Some(h.tokens)
  }

  function Answer(h: History, tx: Tx, bankAccepts: bool): Outcome {
    Committed(h.store, tx, Delivery(h, tx, bankAccepts).Some?)
  }

  predicate Succeeds(h: History, e: Event) {
    e.Call? && Answer(h, e.tx, e.bankAccepts).Ok?
  }

  function Step(h: History, e: Event): History {
    match e
    case Call(tx, bankAccepts) =>
      (match Answer(h, tx, bankAccepts)
       case Ok(effect) =>
         History(effect.store, Delivery(h, tx, bankAccepts).value,
                 h.receipts + [Receipt(tx, effect.messages, effect.store)])
       case Err(_) => h)
    case Outside(collection, id, now) =>
      if h.tokens.OpenToOthers(h.store.contract, collection, id)
      then h.(tokens := h.tokens.Changed(collection, id, now)) else h
  }

  function Run(h: History, events: seq<Event>): History
    decreases |events|
  {
    if events == [] then h else Run(Step(h, events[0]), events[1..])
  }

  /** A new contract, the minter of some collections; no collection has tokens yet. */
  function Start(contract: Addr, minter: set<Addr>): History {
    History(InitialStore(contract), Collections(minter, map[]), [])
  }

  ghost predicate Reached(h: History) {
    exists contract, minter, events :: Run(Start(contract, minter), events) == h
  }

  ghost predicate Reachable(s: Store) {
    exists h :: Reached(h) && h.store == s
  }

  /** A call that succeeds leaves the handler's outcome; nothing else touches the storage. */
  lemma StepShape(h: History, e: Event)
    ensures Succeeds(h, e) ==>
              && Dispatch(h.store, e.tx).Ok?
              && h.tokens.Deliver(h.store.contract, Dispatch(h.store, e.tx).value.messages, e.bankAccepts).Some?
              && var effect := Dispatch(h.store, e.tx).value;
                 Step(h, e) == History(effect.store,
                                       h.tokens.Deliver(h.store.contract, effect.messages, e.bankAccepts).value,
                                       h.receipts + [Receipt(e.tx, effect.messages, effect.store)])
    ensures !Succeeds(h, e) ==> Step(h, e) == h.(tokens := Step(h, e).tokens)
    ensures e.Call? && !Succeeds(h, e) ==> Step(h, e) == h
  {
    hide Dispatch;
  }

  /** A call succeeds exactly when its handler does and every message it sends is taken. */
  lemma SucceedsIff(h: History, tx: Tx, bankAccepts: bool)
    ensures Succeeds(h, Call(tx, bankAccepts)) <==>
            && Dispatch(h.store, tx).Ok?
            && h.tokens.Deliver(h.store.contract, Dispatch(h.store, tx).value.messages, bankAccepts).Some?
  {
    hide Dispatch;
  }

  lemma {:induction false} RunSplits(h: History, first: seq<Event>, second: seq<Event>)
    ensures Run(h, first + second) == Run(Run(h, first), second)
    decreases |first|
  {
    hide Step;
    if first == [] {
      assert first + second == second;
    } else {
      assert (first + second)[1..] == first[1..] + second;
      RunSplits(Step(h, first[0]), first[1..], second);
    }
  }

  lemma ReachedRun(h: History, events: seq<Event>)
    requires Reached(h)
    ensures Reached(Run(h, events))
  {
    hide Run;
    var contract, minter, before :| Run(Start(contract, minter), before) == h;
    RunSplits(Start(contract, minter), before, events);
  }

  lemma ReachedStep(h: History, e: Event)
    requires Reached(h)
    ensures Reached(Step(h, e))
  {
    hide Step, Reached;
    assert [e][1..] == [];
    ReachedRun(h, [e]);
  }

  lemma StepKeepsInv(h: History, e: Event)
    requires Inv(h.store)
    ensures Inv(Step(h, e).store)
  {
    hide Inv, Dispatch;
    StepShape(h, e);
    if Succeeds(h, e) {
      CallKeepsInv(h.store, e.tx);
    }
  }

  lemma {:induction false} RunKeepsInv(h: History, events: seq<Event>)
    requires Inv(h.store)
    ensures Inv(Run(h, events).store)
    decreases |events|
  {
    hide Inv, Step;
    if events == [] {
    } else {
      StepKeepsInv(h, events[0]);
      RunKeepsInv(Step(h, events[0]), events[1..]);
    }
  }

  lemma ReachedInv(h: History)
    requires Reached(h)
    ensures Inv(h.store)
  {
    var contract, minter, events :| Run(Start(contract, minter), events) == h;
    InitialInv(contract);
    hide Inv;
    RunKeepsInv(Start(contract, minter), events);
  }

  /** Every reachable state satisfies the invariant. */
  lemma ReachableInv(s: Store)
    requires Reachable(s)
    ensures Inv(s)
  {
    hide Inv, Reached;
    var h :| Reached(h) && h.store == s;
    ReachedInv(h);
  }

  // ---------------------------------------------------------------- what a call does to one invoice

  function SendsOf(messages: seq<Message>): seq<Message> {
    if messages == [] then []
    else if messages[0].Send? then [messages[0]] + SendsOf(messages[1..])
    else SendsOf(messages[1..])
  }

  function TokensOf(messages: seq<Message>, id: U64): seq<Message> {
    if messages == [] then []
    else if !messages[0].Send? && messages[0].token == id then [messages[0]] + TokensOf(messages[1..], id)
    else TokensOf(messages[1..], id)
  }

  /** A call that creates the invoice `id`. */
  predicate Creates(tx: Tx, after: Store, id: U64) {
    tx.msg.CreateInvoice? && after.invoiceId.Some? && after.invoiceId.value == id + 1
  }

  predicate Concerns(tx: Tx, after: Store, id: U64) {
    Creates(tx, after, id) || tx.msg == AcceptInvoice(id) || tx.msg == PayInvoice(id)
  }

  lemma MessagesOfOne(m: Message, id: U64)
    ensures SendsOf([m]) == if m.Send? then [m] else []
    ensures TokensOf([m], id) == if !m.Send? && m.token == id then [m] else []
    ensures SendsOf([]) == [] && TokensOf([], id) == []
  {
    assert [m][1..] == [];
  }

  lemma MessagesOfTwo(a: Message, b: Message, id: U64)
    ensures SendsOf([a, b]) == SendsOf([a]) + SendsOf([b])
    ensures TokensOf([a, b], id) == TokensOf([a], id) + TokensOf([b], id)
  {
    assert [a, b][1..] == [b];
    MessagesOfOne(a, id);
    MessagesOfOne(b, id);
  }

  lemma PayShape(s: Store, tx: Tx, id: U64)
    requires tx.msg == PayInvoice(id) && Dispatch(s, tx).Ok?
    ensures s.config.Some? && |tx.funds| == 1 && id in s.invoices
    ensures s.invoices[id].status in {Accepted, PartiallyPaid} && s.invoices[id].payeeAddress == tx.sender
    ensures s.invoices[id].amountPaid.amount + tx.funds[0].amount <= s.invoices[id].receivable.amount
    ensures var i, e := s.invoices[id], Dispatch(s, tx).value;
            var i' := Invoicing.PaidUpTo(i, i.amountPaid.amount + tx.funds[0].amount);
            && e.store == s.(invoices := s.invoices[id := i'])
            && e.messages == if i'.status == Paid
                             then [TransferNft(s.config.value.nftAddress, id, i.from), Send(i.from, tx.funds[0])]
                             else [Send(i.from, tx.funds[0])]
  {
  }

  /** A payment sends the whole payment to the issuer; the token moves when the payment completes the invoice. */
  lemma PayMessages(s: Store, tx: Tx, id: U64, about: U64)
    requires tx.msg == PayInvoice(id) && Dispatch(s, tx).Ok?
    ensures s.config.Some? && |tx.funds| == 1 && id in s.invoices && id in Dispatch(s, tx).value.store.invoices
    ensures SendsOf(Dispatch(s, tx).value.messages) == [Send(s.invoices[id].from, tx.funds[0])]
    ensures TokensOf(Dispatch(s, tx).value.messages, about) ==
            if about == id && Dispatch(s, tx).value.store.invoices[id].status == Paid
            then [TransferNft(s.config.value.nftAddress, id, s.invoices[id].from)] else []
  {
    PayShape(s, tx, id);
    hide Dispatch, SendsOf, TokensOf;
    var t, m := TransferNft(s.config.value.nftAddress, id, s.invoices[id].from), Send(s.invoices[id].from, tx.funds[0]);
    MessagesOfOne(t, about);
    MessagesOfOne(m, about);
    MessagesOfTwo(t, m, about);
  }

  lemma AcceptShape(s: Store, tx: Tx, id: U64)
    requires tx.msg == AcceptInvoice(id) && Dispatch(s, tx).Ok?
    ensures id in s.invoices && s.invoices[id].status == Raised && s.invoices[id].payeeAddress == tx.sender
    ensures Dispatch(s, tx).value == Effect(s.(invoices := s.invoices[id := s.invoices[id].(status := Accepted)]), [])
  {
  }

  lemma QuietShape(s: Store, tx: Tx)
    requires Dispatch(s, tx).Ok?
    requires !tx.msg.CreateInvoice? && !tx.msg.AcceptInvoice? && !tx.msg.PayInvoice?
    ensures Dispatch(s, tx).value.messages == [] && Dispatch(s, tx).value.store.invoices == s.invoices
  {
    hide Profile.RemoveFirst;
  }

  /** Calls other than a payment send no money. */
  lemma OnlyPaymentsSend(s: Store, tx: Tx)
    requires !tx.msg.PayInvoice? && Dispatch(s, tx).Ok?
    ensures SendsOf(Dispatch(s, tx).value.messages) == []
  {
    match tx.msg {
      case CreateInvoice(_, _, _, _, _) =>
        RaiseShape(s, tx);
        MessagesOfOne(Dispatch(s, tx).value.messages[0], 0);
      case AcceptInvoice(id) => AcceptShape(s, tx, id);
      case _ => QuietShape(s, tx);
    }
  }

  /** An invoice the call does not concern stays as it is, and no message is about its token. */
  lemma UnconcernedIsUntouched(s: Store, tx: Tx, id: U64)
    requires Inv(s) && Dispatch(s, tx).Ok? && !Concerns(tx, Dispatch(s, tx).value.store, id)
    ensures id in s.invoices <==> id in Dispatch(s, tx).value.store.invoices
    ensures id in s.invoices ==> Dispatch(s, tx).value.store.invoices[id] == s.invoices[id]
    ensures TokensOf(Dispatch(s, tx).value.messages, id) == []
  {
    hide Inv, Dispatch;
    match tx.msg {
      case PayInvoice(other) =>
        PayShape(s, tx, other);
        PayMessages(s, tx, other, id);
      case CreateInvoice(_, _, _, _, _) =>
        RaiseShape(s, tx);
        MessagesOfOne(Dispatch(s, tx).value.messages[0], id);
      case AcceptInvoice(other) =>
        AcceptShape(s, tx, other);
      case _ =>
        QuietShape(s, tx);
    }
  }

  lemma CreateShape(s: Store, tx: Tx, id: U64)
    requires Inv(s) && Dispatch(s, tx).Ok? && Creates(tx, Dispatch(s, tx).value.store, id)
    ensures s.config.Some? && id !in s.invoices && id in Dispatch(s, tx).value.store.invoices
    ensures var i, e := Dispatch(s, tx).value.store.invoices[id], Dispatch(s, tx).value;
            && i.status == Raised && i.amountPaid.amount == 0 && i.from == tx.sender
            && e.messages == [Mint(s.config.value.nftAddress, id, s.contract)]
            && TokensOf(e.messages, id) == [Mint(s.config.value.nftAddress, id, s.contract)]
  {
    hide Mirrored, Indexed, Linked, Dispatch;
    RaiseShape(s, tx);
    FreshId(s, id);
    MessagesOfOne(Dispatch(s, tx).value.messages[0], id);
  }

  // ---------------------------------------------------------------- per-invoice books

  function AmountSent(sends: seq<Message>): nat {
    if sends == [] then 0
    else AmountSent(sends[..|sends| - 1]) + (if sends[|sends| - 1].Send? then sends[|sends| - 1].coin.amount else 0)
  }

  /** The part of it sent in one denom. */
  function AmountSentIn(sends: seq<Message>, denom: Denom): nat {
    if sends == [] then 0
    else
      var last := sends[|sends| - 1];
      AmountSentIn(sends[..|sends| - 1], denom)
      + (if last.Send? && last.coin.denom == denom then last.coin.amount else 0)
  }

  /** The bank messages of the payments of one invoice. */
  function Forwards(receipts: seq<Receipt>, id: U64): seq<Message> {
    if receipts == [] then []
    else
      var init, r := receipts[..|receipts| - 1], receipts[|receipts| - 1];
      if r.tx.msg == PayInvoice(id) then Forwards(init, id) + SendsOf(r.messages) else Forwards(init, id)
  }

  /** Every message about the token of one invoice, in order. */
  function TokenEvents(receipts: seq<Receipt>, id: U64): seq<Message> {
    if receipts == [] then []
    else TokenEvents(receipts[..|receipts| - 1], id) + TokensOf(receipts[|receipts| - 1].messages, id)
  }

  /** The statuses an invoice is given, in order. */
  function Trail(receipts: seq<Receipt>, id: U64): seq<Status> {
    if receipts == [] then []
    else
      var init, r := receipts[..|receipts| - 1], receipts[|receipts| - 1];
      if Concerns(r.tx, r.after, id) && id in r.after.invoices
      then Trail(init, id) + [r.after.invoices[id].status]
      else Trail(init, id)
  }

  /** A prefix of Raised, Accepted, any number of PartiallyPaid, Paid. */
  predicate OnLadder(trail: seq<Status>) {
    forall k :: 0 <= k < |trail| ==>
      if k == 0 then trail[k] == Raised
      else if k == 1 then trail[k] == Accepted
      else trail[k] == PartiallyPaid || (trail[k] == Paid && k == |trail| - 1)
  }

  /** Minted once, to the contract; handed to the issuer once, when and only when the invoice is paid. */
  predicate CustodyEvents(events: seq<Message>, contract: Addr, i: Invoice) {
    && |events| == (if i.status == Paid then 2 else 1)
    && events[0].Mint? && events[0].token == i.id && events[0].owner == contract
    && (i.status == Paid ==> events[1].TransferNft? && events[1].token == i.id && events[1].recipient == i.from)
  }

  /** The payments, the token messages and the statuses of one invoice agree with the invoice. */
  predicate Agrees(forwards: seq<Message>, events: seq<Message>, trail: seq<Status>, contract: Addr, i: Invoice) {
    && AmountSent(forwards) == i.amountPaid.amount
    && (forall m :: m in forwards ==> m.Send? && m.to == i.from)
    && CustodyEvents(events, contract, i)
    && trail != [] && OnLadder(trail) && trail[|trail| - 1] == i.status
  }

  predicate Booked(h: History, id: U64) {
    var forwards, events, trail := Forwards(h.receipts, id), TokenEvents(h.receipts, id), Trail(h.receipts, id);
    if id in h.store.invoices then Agrees(forwards, events, trail, h.store.contract, h.store.invoices[id])
    else forwards == [] && events == [] && trail == []
  }

  lemma AmountSentNext(sends: seq<Message>, m: Message)
    requires m.Send?
    ensures AmountSent(sends + [m]) == AmountSent(sends) + m.coin.amount
  {
    assert (sends + [m])[..|sends|] == sends;
  }

  lemma ReceiptsNext(receipts: seq<Receipt>, r: Receipt, id: U64)
    ensures Forwards(receipts + [r], id) ==
            if r.tx.msg == PayInvoice(id) then Forwards(receipts, id) + SendsOf(r.messages) else Forwards(receipts, id)
    ensures TokenEvents(receipts + [r], id) == TokenEvents(receipts, id) + TokensOf(r.messages, id)
    ensures Trail(receipts + [r], id) ==
            if Concerns(r.tx, r.after, id) && id in r.after.invoices
            then Trail(receipts, id) + [r.after.invoices[id].status] else Trail(receipts, id)
  {
    assert (receipts + [r])[..|receipts|] == receipts;
  }

  lemma ContractAddressStays(s: Store, tx: Tx)
    requires Dispatch(s, tx).Ok?
    ensures Dispatch(s, tx).value.store.contract == s.contract
  {
  }

  lemma LadderExtends(trail: seq<Status>, next: Status)
    requires trail != [] && OnLadder(trail)
    requires var last := trail[|trail| - 1];
             (last == Raised && next == Accepted)
             || (last in {Accepted, PartiallyPaid} && next in {PartiallyPaid, Paid})
    ensures OnLadder(trail + [next])
  {
  }

  lemma AgreesAtCreation(contract: Addr, i: Invoice, collection: Addr)
    requires i.status == Raised && i.amountPaid.amount == 0
    ensures Agrees([], [Mint(collection, i.id, contract)], [Raised], contract, i)
  {
  }

  lemma AgreesAfterAccept(
    forwards: seq<Message>, events: seq<Message>, trail: seq<Status>, contract: Addr, i: Invoice)
    requires Agrees(forwards, events, trail, contract, i) && i.status == Raised
    ensures Agrees(forwards, events, trail + [Accepted], contract, i.(status := Accepted))
  {
    LadderExtends(trail, Accepted);
  }

  lemma AgreesAfterPayment(
    forwards: seq<Message>, events: seq<Message>, trail: seq<Status>, contract: Addr, i: Invoice, coin: Coin,
    collection: Addr)
    requires Agrees(forwards, events, trail, contract, i) && i.status in {Accepted, PartiallyPaid}
    requires i.amountPaid.amount + coin.amount <= i.receivable.amount
    ensures var i' := Invoicing.PaidUpTo(i, i.amountPaid.amount + coin.amount);
            Agrees(forwards + [Send(i.from, coin)],
                   events + (if i'.status == Paid then [TransferNft(collection, i.id, i.from)] else []),
                   trail + [i'.status], contract, i')
  {
    AmountSentNext(forwards, Send(i.from, coin));
    LadderExtends(trail, Invoicing.PaidUpTo(i, i.amountPaid.amount + coin.amount).status);
  }

  lemma StoredInvoiceOfCall(s: Store, tx: Tx, id: U64)
    requires Dispatch(s, tx).Ok? && (tx.msg == AcceptInvoice(id) || tx.msg == PayInvoice(id))
    ensures id in s.invoices
  {
  }

  lemma CallKeepsBooks(h: History, tx: Tx, id: U64, h': History)
    requires Inv(h.store) && Booked(h, id) && Dispatch(h.store, tx).Ok?
    requires h'.store == Dispatch(h.store, tx).value.store
    requires h'.receipts == h.receipts + [Receipt(tx, Dispatch(h.store, tx).value.messages, h'.store)]
    ensures Booked(h', id)
  {
    hide Inv, Dispatch, Forwards, TokenEvents, Trail, SendsOf, TokensOf, Agrees;
    var e := Dispatch(h.store, tx).value;
    var forwards, events, trail := Forwards(h.receipts, id), TokenEvents(h.receipts, id), Trail(h.receipts, id);
    ContractAddressStays(h.store, tx);
    ReceiptsNext(h.receipts, Receipt(tx, e.messages, e.store), id);
    assert events + [] == events;
    if !Concerns(tx, e.store, id) {
      UnconcernedIsUntouched(h.store, tx, id);
    } else if Creates(tx, e.store, id) {
      CreateShape(h.store, tx, id);
      CallKeepsInv(h.store, tx);
      StoredInvoiceIsOk(e.store, id);
      var minted := Mint(h.store.config.value.nftAddress, id, h.store.contract);
      assert [] + [minted] == [minted] && [] + [Raised] == [Raised];
      AgreesAtCreation(h.store.contract, e.store.invoices[id], h.store.config.value.nftAddress);
    } else {
      StoredInvoiceOfCall(h.store, tx, id);
      var i := h.store.invoices[id];
      StoredInvoiceIsOk(h.store, id);
      if tx.msg == AcceptInvoice(id) {
        AcceptShape(h.store, tx, id);
        MessagesOfOne(Mint("", id, ""), id);
        AgreesAfterAccept(forwards, events, trail, h.store.contract, i);
      } else {
        PayShape(h.store, tx, id);
        PayMessages(h.store, tx, id, id);
        AgreesAfterPayment(forwards, events, trail, h.store.contract, i, tx.funds[0],
                           h.store.config.value.nftAddress);
      }
    }
  }

  lemma StepKeepsBooks(h: History, e: Event, id: U64)
    requires Inv(h.store) && Booked(h, id)
    ensures Booked(Step(h, e), id)
  {
    hide Inv, Dispatch, Forwards, TokenEvents, Trail, SendsOf, TokensOf, Agrees;
    StepShape(h, e);
    hide Step;
    if Succeeds(h, e) {
      CallKeepsBooks(h, e.tx, id, Step(h, e));
    }
  }

  lemma {:induction false} RunKeepsBooks(h: History, events: seq<Event>, id: U64)
    requires Inv(h.store) && Booked(h, id)
    ensures Booked(Run(h, events), id)
    decreases |events|
  {
    hide Inv, Booked, Step;
    if events == [] {
    } else {
      StepKeepsInv(h, events[0]);
      StepKeepsBooks(h, events[0], id);
      RunKeepsBooks(Step(h, events[0]), events[1..], id);
    }
  }

  /** Over every run and for every invoice: the bank messages of its payments all go to its issuer and add up to its
      amount paid, which never exceeds the receivable; its token is minted once and handed over once, in the step that
      makes it Paid; and its statuses climb the ladder. */
  lemma EveryInvoiceIsBooked(h: History, id: U64)
    requires Reached(h)
    ensures Booked(h, id)
    ensures id in h.store.invoices ==>
              h.store.invoices[id].amountPaid.amount <= h.store.invoices[id].receivable.amount
  {
    ReachedInv(h);
    var contract, minter, events :| Run(Start(contract, minter), events) == h;
    InitialInv(contract);
    hide Inv;
    RunKeepsBooks(Start(contract, minter), events, id);
    hide Booked;
    if id in h.store.invoices {
      StoredInvoiceIsOk(h.store, id);
    }
  }

  // ---------------------------------------------------------------- payments in the receivable's own denom

  lemma AmountSentInNext(sends: seq<Message>, m: Message, denom: Denom)
    requires m.Send?
    ensures AmountSentIn(sends + [m], denom) ==
            AmountSentIn(sends, denom) + if m.coin.denom == denom then m.coin.amount else 0
  {
    assert (sends + [m])[..|sends|] == sends;
  }

  /** A payment sends on what it carries, counted in any denom. */
  lemma PaymentIsSent(h: History, e: Event, id: U64, denom: Denom)
    requires Succeeds(h, e) && e.tx.msg == PayInvoice(id)
    ensures |e.tx.funds| == 1
    ensures AmountSentIn(Forwards(Step(h, e).receipts, id), denom) ==
            AmountSentIn(Forwards(h.receipts, id), denom)
            + if e.tx.funds[0].denom == denom then e.tx.funds[0].amount else 0
  {
    StepShape(h, e);
    hide Dispatch, SendsOf, Forwards, TokenEvents, TokensOf, Trail, AmountSentIn, Answer, Step;
    PayMessages(h.store, e.tx, id, id);
    var effect := Dispatch(h.store, e.tx).value;
    ReceiptsNext(h.receipts, Receipt(e.tx, effect.messages, effect.store), id);
    AmountSentInNext(Forwards(h.receipts, id), SendsOf(effect.messages)[0], denom);
  }

  /** A payment adds its amount to the amount paid whatever its denom, so it adds as much to what was paid in the
      receivable's denom exactly when it is of that denom, or empty. */
  lemma PaymentInOwnDenomIff(h: History, e: Event, id: U64)
    requires Succeeds(h, e) && e.tx.msg == PayInvoice(id)
    ensures |e.tx.funds| == 1 && id in h.store.invoices && id in Step(h, e).store.invoices
    ensures var i, i' := h.store.invoices[id], Step(h, e).store.invoices[id];
            var denom := i.receivable.denom;
            (AmountSentIn(Forwards(Step(h, e).receipts, id), denom) - AmountSentIn(Forwards(h.receipts, id), denom)
             == i'.amountPaid.amount - i.amountPaid.amount
             <==> e.tx.funds[0].denom == denom || e.tx.funds[0].amount == 0)
  {
    StepShape(h, e);
    hide Dispatch, Forwards, AmountSentIn, Answer, Step;
    PayShape(h.store, e.tx, id);
    PaymentIsSent(h, e, id, h.store.invoices[id].receivable.denom);
  }

  /** A payment of the invoice carried one coin, and its only bank message passes that coin on. */
  predicate Forwarding(r: Receipt, id: U64) {
    r.tx.msg == PayInvoice(id) ==>
      |r.tx.funds| == 1 && |SendsOf(r.messages)| == 1
      && SendsOf(r.messages)[0].Send? && SendsOf(r.messages)[0].coin == r.tx.funds[0]
  }

  predicate AllForwarding(receipts: seq<Receipt>, id: U64) {
    forall r :: r in receipts ==> Forwarding(r, id)
  }

  lemma StepForwards(h: History, e: Event, id: U64)
    requires AllForwarding(h.receipts, id)
    ensures AllForwarding(Step(h, e).receipts, id)
  {
    StepShape(h, e);
    hide Dispatch, SendsOf, Step, TokensOf;
    if Succeeds(h, e) && e.tx.msg == PayInvoice(id) {
      PayMessages(h.store, e.tx, id, id);
    }
  }

  lemma {:induction false} RunForwards(h: History, events: seq<Event>, id: U64)
    requires AllForwarding(h.receipts, id)
    ensures AllForwarding(Run(h, events).receipts, id)
    decreases |events|
  {
    hide AllForwarding, Step;
    if events == [] {
    } else {
      StepForwards(h, events[0], id);
      RunForwards(Step(h, events[0]), events[1..], id);
    }
  }

  /** The payment attached nothing of another denom. */
  predicate OfDenom(r: Receipt, denom: Denom) {
    forall coin :: coin in r.tx.funds ==> coin.denom == denom || coin.amount == 0
  }

  lemma {:induction false} PaymentsOfDenom(receipts: seq<Receipt>, id: U64, denom: Denom)
    requires AllForwarding(receipts, id)
    ensures AmountSentIn(Forwards(receipts, id), denom) <= AmountSent(Forwards(receipts, id))
    ensures AmountSentIn(Forwards(receipts, id), denom) == AmountSent(Forwards(receipts, id))
       <==> forall r :: r in receipts && r.tx.msg == PayInvoice(id) ==> OfDenom(r, denom)
    decreases |receipts|
  {
    hide SendsOf;
    if receipts == [] {
    } else {
      var init, r := receipts[..|receipts| - 1], receipts[|receipts| - 1];
      assert receipts == init + [r];
      assert Forwarding(r, id);
      PaymentsOfDenom(init, id, denom);
      if r.tx.msg == PayInvoice(id) {
        var m := SendsOf(r.messages)[0];
        assert SendsOf(r.messages) == [m];
        AmountSentNext(Forwards(init, id), m);
        AmountSentInNext(Forwards(init, id), m, denom);
        assert OfDenom(r, denom) <==> (m.coin.denom == denom || m.coin.amount == 0);
      }
    }
  }

  /** Counted in the receivable's own denom, the payments add up to the amount paid exactly when no payer ever attached
      anything of another denom: the amount paid is a bare number that any accepted denom increases. */
  lemma PaidInOwnDenomIff(h: History, id: U64)
    requires Reached(h) && id in h.store.invoices
    ensures var i := h.store.invoices[id];
            (AmountSentIn(Forwards(h.receipts, id), i.receivable.denom) == i.amountPaid.amount
             <==> forall r :: r in h.receipts && r.tx.msg == PayInvoice(id) ==> OfDenom(r, i.receivable.denom))
  {
    EveryInvoiceIsBooked(h, id);
    var contract, minter, events :| Run(Start(contract, minter), events) == h;
    RunForwards(Start(contract, minter), events, id);
    PaymentsOfDenom(h.receipts, id, h.store.invoices[id].receivable.denom);
  }

  /** Any accepted denom settles any accepted invoice: the check is on the asset list, not on the receivable's denom,
      which nothing here mentions. */
  lemma AnyAcceptedDenomSettles(s: Store, tx: Tx, id: U64)
    requires Inv(s) && id in s.invoices && s.invoices[id].status in {Accepted, PartiallyPaid}
    requires tx.msg == PayInvoice(id) && tx.sender == s.invoices[id].payeeAddress && |tx.funds| == 1
    requires s.config.Some? && Invoicing.Accepts(s.config.value, tx.funds[0].denom)
    requires tx.funds[0].amount + s.invoices[id].amountPaid.amount == s.invoices[id].receivable.amount
    ensures Dispatch(s, tx).Ok?
    ensures Dispatch(s, tx).value.store ==
            s.(invoices := s.invoices[id := Invoicing.PaidUpTo(s.invoices[id], s.invoices[id].receivable.amount)])
  {
    hide Inv;
    StoredInvoiceIsOk(s, id);
  }

  // ---------------------------------------------------------------- an invoice over time

  function Rank(status: Status): nat {
    match status
    case Raised => 0
    case Accepted => 1
    case PartiallyPaid => 2
    case Paid => 3
  }

  /** The terms never change, the amount paid and the status never go back, and a paid invoice is final. */
  predicate Progressed(i: Invoice, i': Invoice) {
    && i' == i.(dueAmount := i'.dueAmount, amountPaid := i'.amountPaid, status := i'.status)
    && i.amountPaid.denom == i'.amountPaid.denom && i.amountPaid.amount <= i'.amountPaid.amount
    && Rank(i.status) <= Rank(i'.status)
    && (i.status == Paid ==> i' == i)
  }

  lemma StepProgresses(h: History, e: Event, id: U64)
    requires Inv(h.store) && id in h.store.invoices
    ensures id in Step(h, e).store.invoices && Progressed(h.store.invoices[id], Step(h, e).store.invoices[id])
  {
    hide Inv, Dispatch;
    StepShape(h, e);
    hide Step;
    if Succeeds(h, e) {
      var tx, after := e.tx, Step(h, e).store;
      if !Concerns(tx, after, id) {
        UnconcernedIsUntouched(h.store, tx, id);
      } else if Creates(tx, after, id) {
        CreateShape(h.store, tx, id);
      } else if tx.msg == AcceptInvoice(id) {
        AcceptShape(h.store, tx, id);
      } else {
        PayShape(h.store, tx, id);
      }
    }
  }

  lemma {:induction false} InvoicesOnlyProgress(h: History, events: seq<Event>, id: U64)
    requires Inv(h.store) && id in h.store.invoices
    ensures id in Run(h, events).store.invoices && Progressed(h.store.invoices[id], Run(h, events).store.invoices[id])
    decreases |events|
  {
    hide Inv, Step;
    if events == [] {
    } else {
      StepKeepsInv(h, events[0]);
      StepProgresses(h, events[0], id);
      InvoicesOnlyProgress(Step(h, events[0]), events[1..], id);
    }
  }

  /** A payment of a positive amount strictly reduces what is owed, by exactly that amount, and never below zero. */
  lemma PaymentReducesDebt(s: Store, tx: Tx, id: U64)
    requires Inv(s) && tx.msg == PayInvoice(id) && Dispatch(s, tx).Ok?
    ensures id in s.invoices && |tx.funds| == 1 && id in Dispatch(s, tx).value.store.invoices
    ensures 0 <= Queries.Owed(Dispatch(s, tx).value.store.invoices[id])
              == Queries.Owed(s.invoices[id]) - tx.funds[0].amount
  {
    hide Inv;
    PayShape(s, tx, id);
  }

  /** At creation the amount due and the amount paid add up to the receivable exactly when the caller declares nothing
      as already paid; after any payment they always do. */
  lemma DuePlusPaidIff(s: Store, tx: Tx, id: U64)
    requires Inv(s) && Dispatch(s, tx).Ok? && Concerns(tx, Dispatch(s, tx).value.store, id) && !tx.msg.AcceptInvoice?
    ensures id in Dispatch(s, tx).value.store.invoices
    ensures var i := Dispatch(s, tx).value.store.invoices[id];
            (i.dueAmount.amount + i.amountPaid.amount == i.receivable.amount
             <==> (tx.msg.PayInvoice? || tx.msg.amountPaid.amount == 0))
  {
    if tx.msg.PayInvoice? {
      hide Inv;
      PayShape(s, tx, id);
    } else {
      CreateShape(s, tx, id);
      hide Inv;
    }
  }

  // ---------------------------------------------------------------- who acts on an invoice

  predicate ByItsParties(r: Receipt, id: U64, i: Invoice) {
    && (Creates(r.tx, r.after, id) ==> r.tx.sender == i.from)
    && (r.tx.msg == AcceptInvoice(id) || r.tx.msg == PayInvoice(id) ==> r.tx.sender == i.payeeAddress)
  }

  predicate Authorised(h: History, id: U64) {
    forall r :: r in h.receipts ==>
      if id in h.store.invoices then ByItsParties(r, id, h.store.invoices[id]) else !Concerns(r.tx, r.after, id)
  }

  lemma StepKeepsAuthority(h: History, e: Event, id: U64)
    requires Inv(h.store) && Authorised(h, id)
    ensures Authorised(Step(h, e), id)
  {
    hide Inv, Dispatch;
    StepShape(h, e);
    if id in h.store.invoices {
      StepProgresses(h, e, id);
    }
    hide Step;
    if Succeeds(h, e) {
      var tx, after := e.tx, Step(h, e).store;
      if !Concerns(tx, after, id) {
        UnconcernedIsUntouched(h.store, tx, id);
      } else if Creates(tx, after, id) {
        CreateShape(h.store, tx, id);
      } else if tx.msg == AcceptInvoice(id) {
        AcceptShape(h.store, tx, id);
      } else {
        PayShape(h.store, tx, id);
      }
    }
  }

  lemma {:induction false} RunKeepsAuthority(h: History, events: seq<Event>, id: U64)
    requires Inv(h.store) && Authorised(h, id)
    ensures Authorised(Run(h, events), id)
    decreases |events|
  {
    hide Inv, Step, Authorised;
    if events == [] {
    } else {
      StepKeepsInv(h, events[0]);
      StepKeepsAuthority(h, events[0], id);
      RunKeepsAuthority(Step(h, events[0]), events[1..], id);
    }
  }

  /** Over every run an invoice is raised by its issuer, and accepted and paid by its payee only. */
  lemma OnlyThePartiesAct(h: History, id: U64)
    requires Reached(h) && id in h.store.invoices
    ensures forall r :: r in h.receipts ==> ByItsParties(r, id, h.store.invoices[id])
  {
    var contract, minter, events :| Run(Start(contract, minter), events) == h;
    InitialInv(contract);
    hide Inv, ByItsParties, Concerns;
    RunKeepsAuthority(Start(contract, minter), events, id);
  }

  function WithOwner(s: Store, owner: Addr): Store {
    if s.config.Some? then s.(config := Some(s.config.value.(owner := owner))) else s
  }

  /** The same answer, and the same effect but for the owner on record. */
  predicate SameButOwner(o: Outcome, o': Outcome, owner: Addr) {
    match (o, o')
    case (Err(e), Err(e')) => e == e'
    case (Ok(effect), Ok(effect')) =>
      effect'.messages == effect.messages && effect'.store == WithOwner(effect.store, owner)
    case _ => false
  }

  lemma ContactsIgnoreOwner(s: Store, sender: Addr, funds: seq<Coin>, address: Addr, owner: Addr)
    ensures SameButOwner(Profile.RequestOutcome(s, sender, address),
                         Profile.RequestOutcome(WithOwner(s, owner), sender, address), owner)
    ensures SameButOwner(Profile.AcceptOutcome(s, sender, funds, address),
                         Profile.AcceptOutcome(WithOwner(s, owner), sender, funds, address), owner)
  {
    hide Profile.RemoveFirst;
  }

  lemma PaymentsIgnoreOwner(s: Store, sender: Addr, funds: seq<Coin>, id: U64, owner: Addr)
    ensures SameButOwner(Invoicing.PayOutcome(s, sender, funds, id),
                         Invoicing.PayOutcome(WithOwner(s, owner), sender, funds, id), owner)
  {
  }

  /** The configured owner restricts nobody: whoever calls, every call but `SetConfig` is refused or not, and does what
      it does, as if the owner were any other address; and `SetConfig` is never refused and forgets the owner before
      it. */
  lemma OwnerRestrictsNothing(s: Store, tx: Tx, owner: Addr)
    ensures if tx.msg.SetConfig? then Dispatch(s, tx).Ok? && Dispatch(WithOwner(s, owner), tx) == Dispatch(s, tx)
            else SameButOwner(Dispatch(s, tx), Dispatch(WithOwner(s, owner), tx), owner)
  {
    hide Profile.RequestOutcome, Profile.AcceptOutcome, Invoicing.PayOutcome;
    match tx.msg {
      case CreateRequest(address) => ContactsIgnoreOwner(s, tx.sender, tx.funds, address, owner);
      case AcceptRequest(address) => ContactsIgnoreOwner(s, tx.sender, tx.funds, address, owner);
      case PayInvoice(id) => PaymentsIgnoreOwner(s, tx.sender, tx.funds, id, owner);
      case _ =>
    }
  }

  // ---------------------------------------------------------------- ids

  function Creations(receipts: seq<Receipt>): nat {
    if receipts == [] then 0
    else Creations(receipts[..|receipts| - 1]) + (if receipts[|receipts| - 1].tx.msg.CreateInvoice? then 1 else 0)
  }

  lemma SameIdsSameCount(a: map<U64, Invoice>, b: map<U64, Invoice>)
    requires forall id :: id in a <==> id in b
    ensures |a| == |b|
  {
    assert a.Keys == b.Keys;
    assert |a.Keys| == |a| && |b.Keys| == |b|;
  }

  lemma StepCountsCreations(h: History, event: Event)
    requires Inv(h.store) && Creations(h.receipts) == |h.store.invoices|
    ensures Creations(Step(h, event).receipts) == |Step(h, event).store.invoices|
  {
    hide Inv, Dispatch;
    StepShape(h, event);
    hide Step;
    if Succeeds(h, event) {
      var tx := event.tx;
      var e := Dispatch(h.store, tx).value;
      assert Step(h, event).receipts[..|h.receipts|] == h.receipts;
      match tx.msg {
        case CreateInvoice(_, _, _, _, _) =>
          RaiseShape(h.store, tx);
          CreateShape(h.store, tx, e.store.invoiceId.value - 1);
        case AcceptInvoice(id) =>
          AcceptShape(h.store, tx, id);
          SameIdsSameCount(h.store.invoices, e.store.invoices);
        case PayInvoice(id) =>
          PayShape(h.store, tx, id);
          SameIdsSameCount(h.store.invoices, e.store.invoices);
        case _ =>
          QuietShape(h.store, tx);
      }
    }
  }

  lemma {:induction false} RunCountsCreations(h: History, events: seq<Event>)
    requires Inv(h.store) && Creations(h.receipts) == |h.store.invoices|
    ensures Creations(Run(h, events).receipts) == |Run(h, events).store.invoices|
    decreases |events|
  {
    hide Inv, Step, Creations;
    if events == [] {
    } else {
      StepKeepsInv(h, events[0]);
      StepCountsCreations(h, events[0]);
      RunCountsCreations(Step(h, events[0]), events[1..]);
    }
  }

  lemma NumberedIds(s: Store)
    requires Inv(s)
    ensures var n := |s.invoices|;
            && s.invoiceId.Some? && s.invoiceId.value == 1_000_000 + 2 * n
            && forall id :: id in s.invoices <==> exists k :: 0 <= k < n && id == 1_000_001 + 2 * k
  {
    hide Mirrored, Indexed, Linked;
    forall id: U64
      ensures id in s.invoices <==> exists k :: 0 <= k < |s.invoices| && id == 1_000_001 + 2 * k
    {
      assert id in s.invoices <==> Issued(id, |s.invoices|);
      if id in s.invoices {
        assert id == 1_000_001 + 2 * ((id - 1_000_001) / 2);
      }
    }
  }

  /** After n successful creations the ids in use are exactly 1000001, 1000003, ..., and the counter is 1000000 + 2n. */
  lemma IdsAfterCreations(h: History)
    requires Reached(h)
    ensures var n := Creations(h.receipts);
            && h.store.invoiceId.Some? && h.store.invoiceId.value == 1_000_000 + 2 * n
            && forall id :: id in h.store.invoices <==> exists k :: 0 <= k < n && id == 1_000_001 + 2 * k
  {
    ReachedInv(h);
    var contract, minter, events :| Run(Start(contract, minter), events) == h;
    InitialInv(contract);
    hide Inv;
    RunCountsCreations(Start(contract, minter), events);
    hide Run, Creations;
    NumberedIds(h.store);
  }

  // ---------------------------------------------------------------- money through the contract

  function FundsIn(funds: seq<Coin>, denom: Denom): nat {
    if funds == [] then 0
    else FundsIn(funds[1..], denom) + (if funds[0].denom == denom then funds[0].amount else 0)
  }

  /** What arrived with successful calls, what the bank messages sent on, and what came with calls that neither refuse
      nor forward funds. */
  function Income(receipts: seq<Receipt>, denom: Denom): nat {
    if receipts == [] then 0
    else Income(receipts[..|receipts| - 1], denom) + FundsIn(receipts[|receipts| - 1].tx.funds, denom)
  }

  function Outgo(receipts: seq<Receipt>, denom: Denom): nat {
    if receipts == [] then 0
    else Outgo(receipts[..|receipts| - 1], denom) + AmountSentIn(SendsOf(receipts[|receipts| - 1].messages), denom)
  }

  predicate IgnoresFunds(msg: ExecuteMsg) {
    msg.CreateRequest? || msg.SetConfig? || msg.AcceptInvoice?
  }

  function Stray(receipts: seq<Receipt>, denom: Denom): nat {
    if receipts == [] then 0
    else
      Stray(receipts[..|receipts| - 1], denom)
      + (if IgnoresFunds(receipts[|receipts| - 1].tx.msg) then FundsIn(receipts[|receipts| - 1].tx.funds, denom) else 0)
  }

  lemma CallBalances(s: Store, tx: Tx, denom: Denom)
    requires Dispatch(s, tx).Ok?
    ensures FundsIn(tx.funds, denom) ==
            AmountSentIn(SendsOf(Dispatch(s, tx).value.messages), denom)
            + if IgnoresFunds(tx.msg) then FundsIn(tx.funds, denom) else 0
  {
    if tx.msg.PayInvoice? {
      PayMessages(s, tx, tx.msg.invoiceId, 0);
      var sends := SendsOf(Dispatch(s, tx).value.messages);
      assert tx.funds[1..] == [] && sends[..0] == [];
    } else {
      OnlyPaymentsSend(s, tx);
    }
  }

  lemma {:induction false} RunBalances(h: History, events: seq<Event>, denom: Denom)
    requires Income(h.receipts, denom) == Outgo(h.receipts, denom) + Stray(h.receipts, denom)
    ensures var after := Run(h, events).receipts;
            Income(after, denom) == Outgo(after, denom) + Stray(after, denom)
    decreases |events|
  {
    hide Dispatch, SendsOf;
    if events == [] {
    } else {
      StepShape(h, events[0]);
      hide Step;
      if Succeeds(h, events[0]) {
        CallBalances(h.store, events[0].tx, denom);
        assert Step(h, events[0]).receipts[..|h.receipts|] == h.receipts;
      }
      RunBalances(Step(h, events[0]), events[1..], denom);
    }
  }

  lemma {:induction false} NoStrayIff(receipts: seq<Receipt>, denom: Denom)
    ensures Stray(receipts, denom) == 0
       <==> forall r :: r in receipts && IgnoresFunds(r.tx.msg) ==> FundsIn(r.tx.funds, denom) == 0
    decreases |receipts|
  {
    if receipts == [] {
    } else {
      assert receipts == receipts[..|receipts| - 1] + [receipts[|receipts| - 1]];
      NoStrayIff(receipts[..|receipts| - 1], denom);
    }
  }

  /** Conservation: in each denom, what the contract keeps over any run is what was attached to the calls that ignore
      funds. It keeps nothing of any payment, and nothing at all exactly when no such call carried funds. */
  lemma ContractKeepsOnlyStrayFunds(h: History, denom: Denom)
    requires Reached(h)
    ensures Income(h.receipts, denom) - Outgo(h.receipts, denom) == Stray(h.receipts, denom)
    ensures Income(h.receipts, denom) == Outgo(h.receipts, denom)
       <==> forall r :: r in h.receipts && IgnoresFunds(r.tx.msg) ==> FundsIn(r.tx.funds, denom) == 0
  {
    var contract, minter, events :| Run(Start(contract, minter), events) == h;
    RunBalances(Start(contract, minter), events, denom);
    NoStrayIff(h.receipts, denom);
  }

  // ---------------------------------------------------------------- reachable states, for the queries

  /** In every reachable state the books balance, denom by denom. */
  lemma BooksAlwaysBalance(s: Store, denom: Denom)
    requires Reachable(s)
    ensures Queries.SumOver(s.profiles.Keys, a => Queries.Outstanding(Queries.UnpaidOf(s, a, Receivable), denom))
         == Queries.SumOver(s.profiles.Keys, a => Queries.Outstanding(Queries.UnpaidOf(s, a, Payable), denom))
         == Queries.ScanAll(s.invoices, denom, Queries.Bound(s))
  {
    ReachableInv(s);
    Queries.DoubleEntry(s, denom);
  }

  /** In every reachable state no query about invoices or contacts fails, for any address, and no total underflows; the
      pending and the executed answers are scans of the invoice map. */
  lemma QueriesAlwaysAnswer(s: Store, address: Addr)
    requires Reachable(s)
    ensures Queries.InvoiceAnswer(s, address, false).Ok? && Queries.InvoiceAnswer(s, address, true).Ok?
    ensures forall paid {:trigger Queries.InvoiceAnswer(s, address, paid)} ::
              && Queries.IsScan(Queries.InvoiceAnswer(s, address, paid).value.sent, s, address, true, paid)
              && Queries.IsScan(Queries.InvoiceAnswer(s, address, paid).value.received, s, address, false, paid)
    ensures Queries.NoneOverpaid(Queries.UnpaidOf(s, address, Receivable))
    ensures Queries.NoneOverpaid(Queries.UnpaidOf(s, address, Payable))
    ensures address in s.profiles ==>
              && Queries.ContactAnswer(s.profiles, s.profiles[address].receivedRequests).Ok?
              && Queries.ContactAnswer(s.profiles, s.profiles[address].sentRequests).Ok?
              && Queries.ContactAnswer(s.profiles, s.profiles[address].contacts).Ok?
  {
    ReachableInv(s);
    hide Inv;
    Queries.PendingAndExecutedPartition(s, address);
    Queries.AnswersAreScans(s, address, false);
    Queries.AnswersAreScans(s, address, true);
    Queries.TotalsNeverUnderflow(s, address, Receivable);
    Queries.TotalsNeverUnderflow(s, address, Payable);
    if address in s.profiles {
      Queries.ContactQueriesNeverFail(s, address);
    }
  }
}
