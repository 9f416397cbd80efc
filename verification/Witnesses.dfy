/** Concrete runs, from a new contract, in which the code does not do what it is meant to do. */
module Witnesses {
  import opened Common
  import opened State
  import opened Contract
  import opened Invariants
  import opened Tokens
  import opened Runs
  import opened Custody
  import Profile
  import Invoicing

  function Fresh(a: Addr): ContactInfo {
    Profile.NewProfile(a, "", "", "", "", "")
  }

  lemma NewIsReached(contract: Addr, minter: set<Addr>)
    ensures Reached(Start(contract, minter))
  {
    assert Run(Start(contract, minter), []) == Start(contract, minter);
  }

  /** A call that sends no message succeeds whenever its handler does. */
  lemma Quietly(h: History, tx: Tx) returns (h': History)
    requires Reached(h) && Dispatch(h.store, tx).Ok? && Dispatch(h.store, tx).value.messages == []
    ensures h' == Step(h, Call(tx, true)) && Reached(h')
    ensures h' == History(Dispatch(h.store, tx).value.store, h.tokens,
                          h.receipts + [Receipt(tx, [], Dispatch(h.store, tx).value.store)])
  {
    hide Dispatch, Reached;
    ReachedStep(h, Call(tx, true));
    SucceedsIff(h, tx, true);
    StepShape(h, Call(tx, true));
    h' := Step(h, Call(tx, true));
  }

  /** Two profiles that know nobody. */
  lemma TwoProfiles(contract: Addr, minter: set<Addr>, a: Addr, b: Addr) returns (h: History)
    requires a != b
    ensures Reached(h) && h.tokens == Collections(minter, map[])
    ensures h.store == InitialStore(contract).(profiles := map[a := Fresh(a), b := Fresh(b)])
  {
    NewIsReached(contract, minter);
    hide Reached, Step;
    h := Quietly(Start(contract, minter), Tx(a, [], CreateProfile("", "", "", "", "")));
    h := Quietly(h, Tx(b, [], CreateProfile("", "", "", "", "")));
  }

  /** Each asks the other before either answers, and both accept: each lists the other twice. */
  lemma CrossingRequestsListTwice(contract: Addr, minter: set<Addr>, a: Addr, b: Addr) returns (h: History)
    requires a != b
    ensures Reached(h) && a in h.store.profiles && b in h.store.profiles
    ensures h.store.profiles[a].contacts == [b, b] && h.store.profiles[b].contacts == [a, a]
  {
    h := TwoProfiles(contract, minter, a, b);
    hide Reached, Step;
    h := Quietly(h, Tx(a, [], CreateRequest(b)));
    h := Quietly(h, Tx(b, [], CreateRequest(a)));
    h := Quietly(h, Tx(a, [], AcceptRequest(b)));
    h := Quietly(h, Tx(b, [], AcceptRequest(a)));
  }

  // ---------------------------------------------------------------- one accepted invoice

  const ID: U64 := 1_000_001

  /** The two denoms in which invoices and payments are accepted. */
  function BothAccepted(collection: Addr, owned: Denom, other: Denom): Config {
    Config(collection, "", [Asset("", owned, 0, None), Asset("", other, 0, None)])
  }

  lemma BothAreAccepted(collection: Addr, owned: Denom, other: Denom)
    ensures Invoicing.Accepts(BothAccepted(collection, owned, other), owned)
    ensures Invoicing.Accepts(BothAccepted(collection, owned, other), other)
  {
    var assets := BothAccepted(collection, owned, other).acceptedAssets;
    assert assets[0].denom == owned && assets[1].denom == other;
  }

  function Bill(a: Addr, b: Addr, receivable: Coin, status: Status): Invoice {
    Invoice(ID, a, b, ID, "", receivable, receivable, Coin(receivable.denom, 0), Unspecified, status)
  }

  /** Two profiles in contact. */
  lemma TwoContacts(contract: Addr, minter: set<Addr>, a: Addr, b: Addr) returns (h: History)
    requires a != b
    ensures Reached(h) && h.tokens == Collections(minter, map[])
    ensures h.store == InitialStore(contract).(
                         profiles := map[a := Fresh(a).(contacts := [b]), b := Fresh(b).(contacts := [a])])
  {
    h := TwoProfiles(contract, minter, a, b);
    hide Reached, Step;
    var nobody: seq<Addr> := [];
    assert nobody + [a] == [a] && nobody + [b] == [b] && [a][1..] == nobody && [b][1..] == nobody;
    h := Quietly(h, Tx(a, [], CreateRequest(b)));
    h := Quietly(h, Tx(b, [], AcceptRequest(a)));
  }

  function Raising(a: Addr, b: Addr, receivable: Coin): Tx {
    Tx(a, [], CreateInvoice(b, receivable, Coin(receivable.denom, 0), Unspecified, ""))
  }

  /** The handler raises the first invoice between the two. */
  lemma FirstBill(s: Store, a: Addr, b: Addr, receivable: Coin)
    requires a != b && a in s.profiles && b in s.profiles && s.invoiceId == Some(FIRST_INVOICE_ID)
    requires s.profiles[a].kycStatus == s.profiles[b].kycStatus == Approved && b in s.profiles[a].contacts
    requires s.config.Some? && Invoicing.Accepts(s.config.value, receivable.denom)
    ensures var outcome := Dispatch(s, Raising(a, b, receivable));
            && outcome.Ok? && outcome.value.messages == [Mint(s.config.value.nftAddress, ID, s.contract)]
            && outcome.value.store.config == s.config && outcome.value.store.contract == s.contract
            && outcome.value.store.invoices == s.invoices[ID := Bill(a, b, receivable, Raised)]
  {
  }

  /** A sole invoice that is accepted and not yet paid, its token minted in `collection`. */
  ghost predicate OneBill(h: History, contract: Addr, minter: set<Addr>, a: Addr, b: Addr, receivable: Coin,
                          collection: Addr, other: Denom) {
    && Reached(h) && h.store.contract == contract
    && h.store.config == Some(BothAccepted(collection, receivable.denom, other))
    && h.store.invoices == map[ID := Bill(a, b, receivable, Accepted)]
    && h.tokens == Collections(minter, map[(collection, ID) := Token(contract, false)])
  }

  lemma AcceptedBy(h: History, b: Addr) returns (h': History)
    requires Reached(h) && ID in h.store.invoices
    requires h.store.invoices[ID].payeeAddress == b && h.store.invoices[ID].status == Raised
    ensures Reached(h') && h'.tokens == h.tokens
    ensures h'.store == h.store.(invoices := h.store.invoices[ID := h.store.invoices[ID].(status := Accepted)])
  {
    hide Reached, Step;
    h' := Quietly(h, Tx(b, [], AcceptInvoice(ID)));
  }

  /** A bill of `a` to `b`, accepted by `b`. */
  lemma AcceptedBill(contract: Addr, minter: set<Addr>, a: Addr, b: Addr, receivable: Coin, collection: Addr,
                     other: Denom) returns (h: History)
    requires a != b && collection in minter
    ensures OneBill(h, contract, minter, a, b, receivable, collection, other)
  {
    var config := BothAccepted(collection, receivable.denom, other);
    h := TwoContacts(contract, minter, a, b);
    hide Reached, Step;
    h := Quietly(h, Tx(a, [], SetConfig(config.nftAddress, config.owner, config.acceptedAssets)));
    BothAreAccepted(collection, receivable.denom, other);
    FirstBill(h.store, a, b, receivable);
    hide Dispatch;
    var raising := Raising(a, b, receivable);
    DeliverOne(h.tokens, contract, Mint(collection, ID, contract), true);
    SucceedsIff(h, raising, true);
    StepShape(h, Call(raising, true));
    ReachedStep(h, Call(raising, true));
    h := Step(h, Call(raising, true));
    h := AcceptedBy(h, b);
  }

  /** The payee pays everything at once. */
  function PayingAll(b: Addr, denom: Denom, amount: U128): Tx {
    Tx(b, [Coin(denom, amount)], PayInvoice(ID))
  }

  // ---------------------------------------------------------------- the runs

  lemma NothingSent(h: History, denom: Denom)
    requires Reached(h) && ID in h.store.invoices && h.store.invoices[ID].amountPaid.amount == 0
    ensures AmountSentIn(Forwards(h.receipts, ID), denom) == 0
  {
    EveryInvoiceIsBooked(h, ID);
    var contract, minter, events :| Run(Start(contract, minter), events) == h;
    RunForwards(Start(contract, minter), events, ID);
    PaymentsOfDenom(h.receipts, ID, denom);
  }

  /** A bill in one denom is paid in full in another: the issuer receives nothing of the denom it asked for. */
  lemma SettledInAnotherDenom(contract: Addr, minter: set<Addr>, a: Addr, b: Addr, receivable: Coin,
                              collection: Addr, other: Denom) returns (h: History)
    requires a != b && collection in minter && other != receivable.denom
    ensures Reached(h) && ID in h.store.invoices
    ensures h.store.invoices[ID].receivable == receivable && h.store.invoices[ID].status == Paid
    ensures h.store.invoices[ID].amountPaid.amount == receivable.amount
    ensures AmountSentIn(Forwards(h.receipts, ID), receivable.denom) == 0
    ensures AmountSentIn(Forwards(h.receipts, ID), other) == receivable.amount
  {
    h := AcceptedBill(contract, minter, a, b, receivable, collection, other);
    BothAreAccepted(collection, receivable.denom, other);
    var e := Call(PayingAll(b, other, receivable.amount), true);
    hide Reached, Step, Inv, Dispatch;
    ReachedInv(h);
    assert IsLastPayment(h.store, e.tx, ID);
    LastPaymentSucceedsIff(h, e.tx, ID, true);
    NothingSent(h, receivable.denom);
    NothingSent(h, other);
    PaymentIsSent(h, e, ID, receivable.denom);
    PaymentIsSent(h, e, ID, other);
    ReachedStep(h, e);
    AnyAcceptedDenomSettles(h.store, e.tx, ID);
    StepShape(h, e);
    h := Step(h, e);
  }

  function Moving(moved: Addr, denom: Denom): Tx {
    var config := BothAccepted(moved, denom, denom);
    Tx("", [], SetConfig(moved, config.owner, config.acceptedAssets))
  }

  /** The collection is changed while the bill is open, to one with no such token: the payee can no longer pay. */
  lemma LastPaymentRefused(contract: Addr, minter: set<Addr>, a: Addr, b: Addr, receivable: Coin, collection: Addr,
                           moved: Addr) returns (h: History)
    requires a != b && collection in minter && moved != collection
    ensures Reached(h) && IsLastPayment(h.store, PayingAll(b, receivable.denom, receivable.amount), ID)
    ensures !Succeeds(h, Call(PayingAll(b, receivable.denom, receivable.amount), true))
  {
    var payment := PayingAll(b, receivable.denom, receivable.amount);
    h := AcceptedBill(contract, minter, a, b, receivable, collection, receivable.denom);
    hide Reached, Step, Inv;
    h := Quietly(h, Moving(moved, receivable.denom));
    BothAreAccepted(moved, receivable.denom, receivable.denom);
    ReachedInv(h);
    LastPaymentSucceedsIff(h, payment, ID, true);
  }

  /** The same, but in the new collection somebody has given the contract a token with that id: the bill is paid, the
      issuer gets that token, and the contract keeps the one minted for the bill. */
  lemma TokenIsStranded(contract: Addr, minter: set<Addr>, a: Addr, b: Addr, receivable: Coin, collection: Addr,
                        moved: Addr) returns (h: History)
    requires a != b && collection in minter && moved !in minter
    ensures Reached(h) && ID in h.store.invoices && h.store.invoices[ID].status == Paid
    ensures h.store.invoices[ID].from == a
    ensures h.tokens.Owner(collection, ID) == Some(contract) && h.tokens.Owner(moved, ID) == Some(a)
  {
    var payment := PayingAll(b, receivable.denom, receivable.amount);
    h := AcceptedBill(contract, minter, a, b, receivable, collection, receivable.denom);
    var given := Outside(moved, ID, Some(Token(contract, false)));
    ReachedStep(h, given);
    h := Step(h, given);
    hide Reached, Step, Inv;
    h := Quietly(h, Moving(moved, receivable.denom));
    BothAreAccepted(moved, receivable.denom, receivable.denom);
    ReachedInv(h);
    LastPaymentSucceedsIff(h, payment, ID, true);
    hide Dispatch;
    StepProgresses(h, Call(payment, true), ID);
    PayDelivers(h, Call(payment, true), ID);
    ReachedStep(h, Call(payment, true));
    h := Step(h, Call(payment, true));
  }
}
