/** How often two profiles list each other: over whole runs, once for each request accepted between them. */
module Contacts {
  import opened Common
  import opened State
  import opened Contract
  import opened Invariants
  import opened Runs
  import Profile

  /** How often `a` lists `b`. */
  function Listings(profiles: map<Addr, ContactInfo>, a: Addr, b: Addr): nat {
    if a in profiles then Multiplicity(profiles[a].contacts, b) else 0
  }

  /** One of the two accepts a request of the other. */
  predicate Joins(tx: Tx, a: Addr, b: Addr) {
    tx.msg.AcceptRequest?
    && ((tx.sender == a && tx.msg.address == b) || (tx.sender == b && tx.msg.address == a))
  }

  /** The requests accepted between the two, in either direction. */
  function Acceptances(receipts: seq<Receipt>, a: Addr, b: Addr): nat {
    if receipts == [] then 0
    else Acceptances(receipts[..|receipts| - 1], a, b) + (if Joins(receipts[|receipts| - 1].tx, a, b) then 1 else 0)
  }

  lemma AcceptanceNext(receipts: seq<Receipt>, r: Receipt, a: Addr, b: Addr)
    ensures Acceptances(receipts + [r], a, b) == Acceptances(receipts, a, b) + if Joins(r.tx, a, b) then 1 else 0
  {
    assert (receipts + [r])[..|receipts|] == receipts;
  }

  lemma AcceptAddsListings(s: Store, tx: Tx, a: Addr, b: Addr)
    requires Mirrored(s.profiles) && tx.msg.AcceptRequest? && Dispatch(s, tx).Ok?
    ensures Listings(Dispatch(s, tx).value.store.profiles, a, b) ==
            Listings(s.profiles, a, b) + if Joins(tx, a, b) then 1 else 0
  {
    var x, y := tx.sender, tx.msg.address;
    assert ListsOk(x, s.profiles[x], s.profiles.Keys);
    MultiplicityAppend(s.profiles[x].contacts, y);
    MultiplicityAppend(s.profiles[y].contacts, x);
    hide Mirrored, ListsOk, Multiplicity, Profile.RemoveFirst;
  }

  lemma OthersAddNoListings(s: Store, tx: Tx, a: Addr, b: Addr)
    requires !tx.msg.AcceptRequest? && Dispatch(s, tx).Ok?
    ensures Listings(Dispatch(s, tx).value.store.profiles, a, b) == Listings(s.profiles, a, b)
  {
    match tx.msg {
      case CreateInvoice(_, _, _, _, _) =>
        RaiseShape(s, tx);
        hide Dispatch;
      case CreateProfile(_, _, _, _, _) =>
        assert Multiplicity([], b) == 0;
      case _ =>
    }
  }

  lemma NotJoining(tx: Tx, a: Addr, b: Addr)
    requires !tx.msg.AcceptRequest?
    ensures !Joins(tx, a, b)
  {
  }

  lemma StepCountsAcceptances(h: History, e: Event, a: Addr, b: Addr)
    requires Inv(h.store) && Listings(h.store.profiles, a, b) == Acceptances(h.receipts, a, b)
    ensures Listings(Step(h, e).store.profiles, a, b) == Acceptances(Step(h, e).receipts, a, b)
  {
    StepShape(h, e);
    hide Dispatch, Step, Acceptances, Listings, Mirrored, Numbered, Indexed, Linked, Joins;
    if Succeeds(h, e) {
      AcceptanceNext(h.receipts, Receipt(e.tx, Dispatch(h.store, e.tx).value.messages, Step(h, e).store), a, b);
      if e.tx.msg.AcceptRequest? {
        AcceptAddsListings(h.store, e.tx, a, b);
      } else {
        OthersAddNoListings(h.store, e.tx, a, b);
        NotJoining(e.tx, a, b);
      }
    }
  }

  lemma {:induction false} RunCountsAcceptances(h: History, events: seq<Event>, a: Addr, b: Addr)
    requires Inv(h.store) && Listings(h.store.profiles, a, b) == Acceptances(h.receipts, a, b)
    ensures Listings(Run(h, events).store.profiles, a, b) == Acceptances(Run(h, events).receipts, a, b)
    decreases |events|
  {
    hide Inv, Step, Listings, Acceptances;
    if events == [] {
    } else {
      StepKeepsInv(h, events[0]);
      StepCountsAcceptances(h, events[0], a, b);
      RunCountsAcceptances(Step(h, events[0]), events[1..], a, b);
    }
  }

  /** Over every run, `a` lists `b` as often as requests between the two were accepted. */
  lemma ListedOncePerAcceptance(h: History, a: Addr, b: Addr)
    requires Reached(h)
    ensures Listings(h.store.profiles, a, b) == Acceptances(h.receipts, a, b)
  {
    var contract, minter, events :| Run(Start(contract, minter), events) == h;
    InitialInv(contract);
    hide Inv;
    RunCountsAcceptances(Start(contract, minter), events, a, b);
  }

  /** A contact list is free of repetitions exactly when with nobody more than one request was accepted. */
  lemma ContactsAreDistinctIff(h: History, a: Addr)
    requires Reached(h) && a in h.store.profiles
    ensures NoDuplicates(h.store.profiles[a].contacts) <==> forall b :: Acceptances(h.receipts, a, b) <= 1
  {
    hide Reached, Multiplicity, NoDuplicates;
    var list := h.store.profiles[a].contacts;
    DistinctIffCountedOnce(list);
    forall b
      ensures Multiplicity(list, b) <= 1 <==> Acceptances(h.receipts, a, b) <= 1
    {
      ListedOncePerAcceptance(h, a, b);
      assert Listings(h.store.profiles, a, b) == Multiplicity(list, b);
    }
    if b :| Multiplicity(list, b) > 1 {
      assert Acceptances(h.receipts, a, b) > 1;
    }
  }
}
