/** The storage read off the successful calls alone: configuration, profiles, contact lists, invoices and indexes are
    what a plain replay of the calls gives. */
module Replay {
  import opened Common
  import opened State
  import opened Contract
  import opened Invariants
  import opened Calls
  import opened Runs
  import Profile
  import Invoicing

  // ---------------------------------------------------------------- configuration, and the denoms taken under it

  /** The last configuration set. */
  function Configured(receipts: seq<Receipt>): Option<Config> {
    if receipts == [] then None
    else
      match receipts[|receipts| - 1].tx.msg
      case SetConfig(nft, owner, assets) => Some(Config(nft, owner, assets))
      case _ => Configured(receipts[..|receipts| - 1])
  }

  /** A payment carries one coin, and an invoice asks for one, in a denom the configuration lists. */
  predicate InListedDenom(config: Option<Config>, tx: Tx) {
    && (tx.msg.PayInvoice? ==> |tx.funds| == 1 && Lists(config, tx.funds[0].denom))
    && (tx.msg.CreateInvoice? ==> Lists(config, tx.msg.receivable.denom))
  }

  /** The configuration is the last one set, and every payment and invoice was in a denom listed at that time. */
  predicate ConfigReplayed(h: History) {
    && h.store.config == Configured(h.receipts)
    && forall k :: 0 <= k < |h.receipts| ==> InListedDenom(Configured(h.receipts[..k]), h.receipts[k].tx)
  }

  lemma CallOnConfig(s: Store, tx: Tx)
    requires Dispatch(s, tx).Ok?
    ensures InListedDenom(s.config, tx)
    ensures Dispatch(s, tx).value.store.config ==
            if tx.msg.SetConfig? then Some(Config(tx.msg.nftAddress, tx.msg.owner, tx.msg.acceptedAssets)) else s.config
  {
    if tx.msg.PayInvoice? {
      PaySucceedsIff(s, tx, tx.msg.invoiceId);
    } else if tx.msg.CreateInvoice? {
      RaiseSucceedsIff(s, tx);
    }
    hide Lists, Invoicing.Accepts, Profile.RemoveFirst;
  }

  lemma StepReplaysConfig(h: History, e: Event)
    requires ConfigReplayed(h)
    ensures ConfigReplayed(Step(h, e))
  {
    StepShape(h, e);
    hide Dispatch, Step, InListedDenom;
    if Succeeds(h, e) {
      CallOnConfig(h.store, e.tx);
      var after := Step(h, e).receipts;
      assert after[..|h.receipts|] == h.receipts;
      forall k | 0 <= k < |after|
        ensures InListedDenom(Configured(after[..k]), after[k].tx)
      {
        if k < |h.receipts| {
          assert after[..k] == h.receipts[..k];
        }
      }
    }
  }

  lemma {:induction false} RunReplaysConfig(h: History, events: seq<Event>)
    requires ConfigReplayed(h)
    ensures ConfigReplayed(Run(h, events))
    decreases |events|
  {
    hide ConfigReplayed, Step;
    if events == [] {
    } else {
      StepReplaysConfig(h, events[0]);
      RunReplaysConfig(Step(h, events[0]), events[1..]);
    }
  }

  /** Over every run the configuration is the last one set, each payment was one coin in a denom listed when it was
      made, and each receivable is in a denom listed when its invoice was raised. */
  lemma DenomsWereListed(h: History)
    requires Reached(h)
    ensures h.store.config == Configured(h.receipts)
    ensures forall k :: 0 <= k < |h.receipts| ==> InListedDenom(Configured(h.receipts[..k]), h.receipts[k].tx)
  {
    var contract, minter, events :| Run(Start(contract, minter), events) == h;
    RunReplaysConfig(Start(contract, minter), events);
  }

  // ---------------------------------------------------------------- request and contact lists

  /** The list with every `x` left out. */
  function Without(list: seq<Addr>, x: Addr): seq<Addr> {
    if list == [] then []
    else if list[0] == x then Without(list[1..], x)
    else [list[0]] + Without(list[1..], x)
  }

  /** The three lists of a profile that contact calls change. */
  datatype ContactLists = ContactLists(sent: seq<Addr>, received: seq<Addr>, contacts: seq<Addr>)

  /** A call's effect on the lists of `a`: who asks is received, who is accepted is a contact on both sides and no
      longer pending, and new entries go last. */
  function NextLists(lists: ContactLists, tx: Tx, a: Addr): ContactLists {
    match tx.msg
    case CreateRequest(to) =>
      if tx.sender == a then lists.(sent := lists.sent + [to])
      else if to == a then lists.(received := lists.received + [tx.sender])
      else lists
    case AcceptRequest(from) =>
      if tx.sender == a then lists.(received := Without(lists.received, from), contacts := lists.contacts + [from])
      else if from == a then lists.(sent := Without(lists.sent, tx.sender), contacts := lists.contacts + [tx.sender])
      else lists
    case _ => lists
  }

  function ListsReplay(receipts: seq<Receipt>, a: Addr): ContactLists {
    if receipts == [] then ContactLists([], [], [])
    else NextLists(ListsReplay(receipts[..|receipts| - 1], a), receipts[|receipts| - 1].tx, a)
  }

  function ListsOf(profiles: map<Addr, ContactInfo>, a: Addr): ContactLists {
    if a in profiles then ContactLists(profiles[a].sentRequests, profiles[a].receivedRequests, profiles[a].contacts)
    else ContactLists([], [], [])
  }

  lemma {:induction false} WithoutStranger(list: seq<Addr>, x: Addr)
    requires x !in list
    ensures Without(list, x) == list
    decreases |list|
  {
    if list == [] {
    } else {
      assert list == [list[0]] + list[1..];
      WithoutStranger(list[1..], x);
    }
  }

  lemma {:induction false} RemoveFirstIsWithout(list: seq<Addr>, x: Addr)
    requires NoDuplicates(list)
    ensures Profile.RemoveFirst(list, x) == Without(list, x)
    decreases |list|
  {
    if list == [] {
    } else {
      assert list == [list[0]] + list[1..];
      RemoveFirstIsWithout(list[1..], x);
      if list[0] == x {
        assert x !in list[1..];
        WithoutStranger(list[1..], x);
      }
    }
  }

  lemma AcceptOnLists(s: Store, tx: Tx, a: Addr)
    requires Mirrored(s.profiles) && tx.msg.AcceptRequest? && Dispatch(s, tx).Ok?
    ensures ListsOf(Dispatch(s, tx).value.store.profiles, a) == NextLists(ListsOf(s.profiles, a), tx, a)
  {
    var x, y := tx.sender, tx.msg.address;
    assert ListsOk(x, s.profiles[x], s.profiles.Keys) && ListsOk(y, s.profiles[y], s.profiles.Keys);
    RemoveFirstIsWithout(s.profiles[x].receivedRequests, y);
    RemoveFirstIsWithout(s.profiles[y].sentRequests, x);
    hide Mirrored, ListsOk, Profile.RemoveFirst, Without;
  }

  lemma CallOnLists(s: Store, tx: Tx, a: Addr)
    requires Inv(s) && Dispatch(s, tx).Ok?
    ensures ListsOf(Dispatch(s, tx).value.store.profiles, a) == NextLists(ListsOf(s.profiles, a), tx, a)
  {
    hide Mirrored, Numbered, Indexed, Linked, Profile.RemoveFirst, Without;
    match tx.msg {
      case AcceptRequest(_) => AcceptOnLists(s, tx, a);
      case CreateInvoice(_, _, _, _, _) =>
        RaiseShape(s, tx);
        hide Dispatch;
      case _ =>
    }
  }

  lemma StepReplaysLists(h: History, e: Event, a: Addr)
    requires Inv(h.store) && ListsOf(h.store.profiles, a) == ListsReplay(h.receipts, a)
    ensures ListsOf(Step(h, e).store.profiles, a) == ListsReplay(Step(h, e).receipts, a)
  {
    StepShape(h, e);
    hide Inv, Dispatch, Step, NextLists;
    if Succeeds(h, e) {
      CallOnLists(h.store, e.tx, a);
      assert Step(h, e).receipts[..|h.receipts|] == h.receipts;
    }
  }

  lemma {:induction false} RunReplaysLists(h: History, events: seq<Event>, a: Addr)
    requires Inv(h.store) && ListsOf(h.store.profiles, a) == ListsReplay(h.receipts, a)
    ensures ListsOf(Run(h, events).store.profiles, a) == ListsReplay(Run(h, events).receipts, a)
    decreases |events|
  {
    hide Inv, Step, ListsOf, ListsReplay;
    if events == [] {
    } else {
      StepKeepsInv(h, events[0]);
      StepReplaysLists(h, events[0], a);
      RunReplaysLists(Step(h, events[0]), events[1..], a);
    }
  }

  /** Over every run, each profile's requests sent, requests received and contacts are, in order, those of the replayed
      requests and acceptances. */
  lemma ListsAreReplayed(h: History, a: Addr)
    requires Reached(h)
    ensures ListsOf(h.store.profiles, a) == ListsReplay(h.receipts, a)
  {
    var contract, minter, events :| Run(Start(contract, minter), events) == h;
    InitialInv(contract);
    hide Inv;
    RunReplaysLists(Start(contract, minter), events, a);
  }

  // ---------------------------------------------------------------- profiles

  /** The call that registered an address. */
  function Registration(receipts: seq<Receipt>, a: Addr): Option<ExecuteMsg> {
    if receipts == [] then None
    else
      var tx := receipts[|receipts| - 1].tx;
      if tx.msg.CreateProfile? && tx.sender == a then Some(tx.msg)
      else Registration(receipts[..|receipts| - 1], a)
  }

  /** An address has a profile once registered, approved, in its own name, with the texts it was registered with. */
  predicate ProfileReplayed(profiles: map<Addr, ContactInfo>, registration: Option<ExecuteMsg>, a: Addr) {
    && (a in profiles <==> registration.Some?)
    && (a in profiles ==>
          var info, msg := profiles[a], registration.value;
          && msg.CreateProfile?
          && info.name == msg.name && info.emailId == msg.emailId && info.phoneNumber == msg.phoneNumber
          && info.companyName == msg.companyName && info.address == msg.street
          && info.owner == a && info.kycStatus == Approved)
  }

  lemma CallOnProfile(s: Store, tx: Tx, a: Addr, registration: Option<ExecuteMsg>)
    requires Dispatch(s, tx).Ok? && ProfileReplayed(s.profiles, registration, a)
    ensures ProfileReplayed(Dispatch(s, tx).value.store.profiles,
                            if tx.msg.CreateProfile? && tx.sender == a then Some(tx.msg) else registration, a)
  {
    hide Profile.RemoveFirst;
    if tx.msg.CreateInvoice? {
      RaiseShape(s, tx);
      hide Dispatch;
    }
  }

  lemma StepReplaysProfile(h: History, e: Event, a: Addr)
    requires ProfileReplayed(h.store.profiles, Registration(h.receipts, a), a)
    ensures ProfileReplayed(Step(h, e).store.profiles, Registration(Step(h, e).receipts, a), a)
  {
    StepShape(h, e);
    hide Dispatch, Step, ProfileReplayed;
    if Succeeds(h, e) {
      assert Step(h, e).receipts[..|h.receipts|] == h.receipts;
      CallOnProfile(h.store, e.tx, a, Registration(h.receipts, a));
    }
  }

  lemma {:induction false} RunReplaysProfile(h: History, events: seq<Event>, a: Addr)
    requires ProfileReplayed(h.store.profiles, Registration(h.receipts, a), a)
    ensures ProfileReplayed(Run(h, events).store.profiles, Registration(Run(h, events).receipts, a), a)
    decreases |events|
  {
    hide ProfileReplayed, Registration, Step;
    if events == [] {
    } else {
      StepReplaysProfile(h, events[0], a);
      RunReplaysProfile(Step(h, events[0]), events[1..], a);
    }
  }

  /** Over every run a profile exists exactly for the registered addresses, and says what they registered with. */
  lemma ProfilesAreAsRegistered(h: History, a: Addr)
    requires Reached(h)
    ensures ProfileReplayed(h.store.profiles, Registration(h.receipts, a), a)
  {
    var contract, minter, events :| Run(Start(contract, minter), events) == h;
    RunReplaysProfile(Start(contract, minter), events, a);
  }

  // ---------------------------------------------------------------- invoices

  /** What the calls so far did about one id: the call that raised it, whether it was accepted, and its payments. */
  datatype Life = Life(raising: Option<Tx>, agreed: bool, payments: nat, paid: nat)

  /** The n-th invoice raised, counted from zero, gets the id 1000001 + 2n. */
  function NextLife(life: Life, tx: Tx, id: U64, raisedBefore: nat): Life {
    match tx.msg
    case CreateInvoice(_, _, _, _, _) =>
      if id == 1_000_001 + 2 * raisedBefore then life.(raising := Some(tx)) else life
    case AcceptInvoice(x) => if x == id then life.(agreed := true) else life
    case PayInvoice(x) =>
      if x == id && |tx.funds| == 1
      then life.(payments := life.payments + 1, paid := life.paid + tx.funds[0].amount) else life
    case _ => life
  }

  function LifeOf(receipts: seq<Receipt>, id: U64): Life {
    if receipts == [] then Life(None, false, 0, 0)
    else
      var init := receipts[..|receipts| - 1];
      NextLife(LifeOf(init, id), receipts[|receipts| - 1].tx, id, Creations(init))
  }

  /** An invoice is stored once raised. Its terms are those of the call that raised it; what is paid, what is due and
      the status follow from the acceptance and the payments. */
  predicate InvoiceReplayed(invoices: map<U64, Invoice>, life: Life, id: U64) {
    if id !in invoices then life == Life(None, false, 0, 0)
    else
      life.raising.Some? && life.raising.value.msg.CreateInvoice? &&
      var i, issuer, msg := invoices[id], life.raising.value.sender, life.raising.value.msg;
      && i.id == id && i.nftId == id && i.from == issuer && i.payeeAddress == msg.payee
      && i.docUri == msg.docUri && i.serviceType == msg.serviceType && i.receivable == msg.receivable
      && i.amountPaid.denom == msg.receivable.denom && i.dueAmount.denom == msg.receivable.denom
      && i.amountPaid.amount == life.paid
      && (life.payments > 0 ==> life.agreed) && (life.payments == 0 ==> life.paid == 0)
      && i.dueAmount.amount == msg.receivable.amount - (if life.payments == 0 then msg.amountPaid.amount else life.paid)
      && i.status == (if !life.agreed then Raised
                      else if life.payments == 0 then Accepted
                      else if life.paid == msg.receivable.amount then Paid
                      else PartiallyPaid)
  }

  lemma RaiseOnInvoice(s: Store, tx: Tx, id: U64, life: Life)
    requires Inv(s) && tx.msg.CreateInvoice? && Dispatch(s, tx).Ok? && InvoiceReplayed(s.invoices, life, id)
    ensures InvoiceReplayed(Dispatch(s, tx).value.store.invoices, NextLife(life, tx, id, |s.invoices|), id)
  {
    hide Mirrored, Indexed, Linked, Numbered, Dispatch;
    RaiseShape(s, tx);
    FreshId(s, NextInvoiceId(s).value);
  }

  lemma CallOnInvoice(s: Store, tx: Tx, id: U64, life: Life)
    requires Inv(s) && Dispatch(s, tx).Ok? && InvoiceReplayed(s.invoices, life, id)
    ensures InvoiceReplayed(Dispatch(s, tx).value.store.invoices, NextLife(life, tx, id, |s.invoices|), id)
  {
    hide Inv, Dispatch;
    match tx.msg {
      case CreateInvoice(_, _, _, _, _) => RaiseOnInvoice(s, tx, id, life);
      case AcceptInvoice(x) => AcceptShape(s, tx, x);
      case PayInvoice(x) => PayShape(s, tx, x);
      case _ => QuietShape(s, tx);
    }
  }

  lemma StepReplaysInvoice(h: History, e: Event, id: U64)
    requires Inv(h.store) && Creations(h.receipts) == |h.store.invoices|
    requires InvoiceReplayed(h.store.invoices, LifeOf(h.receipts, id), id)
    ensures InvoiceReplayed(Step(h, e).store.invoices, LifeOf(Step(h, e).receipts, id), id)
  {
    StepShape(h, e);
    hide Inv, Dispatch, Step, InvoiceReplayed, NextLife, Creations;
    if Succeeds(h, e) {
      assert Step(h, e).receipts[..|h.receipts|] == h.receipts;
      CallOnInvoice(h.store, e.tx, id, LifeOf(h.receipts, id));
    }
  }

  lemma {:induction false} RunReplaysInvoice(h: History, events: seq<Event>, id: U64)
    requires Inv(h.store) && Creations(h.receipts) == |h.store.invoices|
    requires InvoiceReplayed(h.store.invoices, LifeOf(h.receipts, id), id)
    ensures InvoiceReplayed(Run(h, events).store.invoices, LifeOf(Run(h, events).receipts, id), id)
    decreases |events|
  {
    hide Inv, Step, InvoiceReplayed, LifeOf, Creations;
    if events == [] {
    } else {
      StepKeepsInv(h, events[0]);
      StepCountsCreations(h, events[0]);
      StepReplaysInvoice(h, events[0], id);
      RunReplaysInvoice(Step(h, events[0]), events[1..], id);
    }
  }

  /** Over every run each invoice, field by field, is what its raising, its acceptance and its payments make it. */
  lemma InvoicesAreReplayed(h: History, id: U64)
    requires Reached(h)
    ensures InvoiceReplayed(h.store.invoices, LifeOf(h.receipts, id), id)
  {
    var contract, minter, events :| Run(Start(contract, minter), events) == h;
    InitialInv(contract);
    hide Inv;
    RunReplaysInvoice(Start(contract, minter), events, id);
  }

  /** The ids of the invoices `a` raised, or was billed with, in order. */
  function IdsOf(receipts: seq<Receipt>, a: Addr, side: Side): seq<int> {
    if receipts == [] then []
    else
      var init, tx := receipts[..|receipts| - 1], receipts[|receipts| - 1].tx;
      if tx.msg.CreateInvoice? && (if side == Receivable then tx.sender else tx.msg.payee) == a
      then IdsOf(init, a, side) + [1_000_001 + 2 * Creations(init)]
      else IdsOf(init, a, side)
  }

  function IndexOf(profiles: map<Addr, ContactInfo>, a: Addr, side: Side): seq<U64> {
    if a !in profiles then []
    else if side == Receivable then profiles[a].generatedInvoices
    else profiles[a].assignedInvoices
  }

  lemma CallOnIndex(s: Store, tx: Tx, a: Addr, side: Side)
    requires Inv(s) && Dispatch(s, tx).Ok?
    ensures tx.msg.CreateInvoice? ==> 1_000_001 + 2 * |s.invoices| <= U64_MAX
    ensures IndexOf(Dispatch(s, tx).value.store.profiles, a, side) ==
            if tx.msg.CreateInvoice? && (if side == Receivable then tx.sender else tx.msg.payee) == a
            then IndexOf(s.profiles, a, side) + [1_000_001 + 2 * |s.invoices|]
            else IndexOf(s.profiles, a, side)
  {
    hide Mirrored, Indexed, Linked, Profile.RemoveFirst;
    if tx.msg.CreateInvoice? {
      hide Dispatch;
      RaiseShape(s, tx);
      FreshId(s, NextInvoiceId(s).value);
    }
  }

  lemma StepReplaysIndex(h: History, e: Event, a: Addr, side: Side)
    requires Inv(h.store) && Creations(h.receipts) == |h.store.invoices|
    requires IndexOf(h.store.profiles, a, side) == IdsOf(h.receipts, a, side)
    ensures IndexOf(Step(h, e).store.profiles, a, side) == IdsOf(Step(h, e).receipts, a, side)
  {
    StepShape(h, e);
    hide Inv, Dispatch, Step, Creations, IndexOf;
    if Succeeds(h, e) {
      assert Step(h, e).receipts[..|h.receipts|] == h.receipts;
      CallOnIndex(h.store, e.tx, a, side);
    }
  }

  lemma {:induction false} RunReplaysIndex(h: History, events: seq<Event>, a: Addr, side: Side)
    requires Inv(h.store) && Creations(h.receipts) == |h.store.invoices|
    requires IndexOf(h.store.profiles, a, side) == IdsOf(h.receipts, a, side)
    ensures IndexOf(Run(h, events).store.profiles, a, side) == IdsOf(Run(h, events).receipts, a, side)
    decreases |events|
  {
    hide Inv, Step, IndexOf, IdsOf, Creations;
    if events == [] {
    } else {
      StepKeepsInv(h, events[0]);
      StepCountsCreations(h, events[0]);
      StepReplaysIndex(h, events[0], a, side);
      RunReplaysIndex(Step(h, events[0]), events[1..], a, side);
    }
  }

  /** Over every run the two indexes of a profile are the ids of the invoices it raised and was billed with, in the
      order of the calls. */
  lemma IndexesAreReplayed(h: History, a: Addr, side: Side)
    requires Reached(h)
    ensures IndexOf(h.store.profiles, a, side) == IdsOf(h.receipts, a, side)
  {
    var contract, minter, events :| Run(Start(contract, minter), events) == h;
    InitialInv(contract);
    hide Inv;
    RunReplaysIndex(Start(contract, minter), events, a, side);
  }
}
