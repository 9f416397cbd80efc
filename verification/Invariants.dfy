/** What every call of contracts/core keeps: the contact graph is mirrored, ids are consecutive odd numbers, the
    per-profile lists index the invoice map, and every invoice's amounts fit its status. */
module Invariants {
  import opened Common
  import opened State
  import opened Contract
  import Profile
  import Invoicing

  // ---------------------------------------------------------------- the invariant

  predicate NoDuplicates(list: seq<Addr>) {
    forall i, j :: 0 <= i < j < |list| ==> list[i] != list[j]
  }

  /** A profile is approved and its lists name other profiles, requests without repetition. */
  ghost predicate ListsOk(a: Addr, info: ContactInfo, known: set<Addr>) {
    && info.owner == a && info.kycStatus == Approved
    && NoDuplicates(info.sentRequests) && NoDuplicates(info.receivedRequests)
    && forall b :: b in info.sentRequests || b in info.receivedRequests || b in info.contacts ==> b in known && b != a
  }

  function Multiplicity(list: seq<Addr>, x: Addr): nat {
    multiset(list)[x]
  }

  /** What `a` sent to `b` is what `b` received from `a`; each counts the other equally often as a contact, which can
      be more than once: being in contact does not stop a request, so it can be repeated after it was accepted, and two
      crossing requests can both be accepted. */
  ghost predicate Converse(a: Addr, infoA: ContactInfo, b: Addr, infoB: ContactInfo) {
    && (b in infoA.sentRequests <==> a in infoB.receivedRequests)
    && Multiplicity(infoA.contacts, b) == Multiplicity(infoB.contacts, a)
  }

  ghost predicate Mirrored(profiles: map<Addr, ContactInfo>) {
    && (forall a {:trigger ListsOk(a, profiles[a], profiles.Keys)} ::
          a in profiles ==> ListsOk(a, profiles[a], profiles.Keys))
    && (forall a, b {:trigger Converse(a, profiles[a], b, profiles[b])} ::
          a in profiles && b in profiles ==> Converse(a, profiles[a], b, profiles[b]))
  }

  /** The ids handed out by `count` successful creations. */
  predicate Issued(id: U64, count: nat) {
    FIRST_INVOICE_ID < id < FIRST_INVOICE_ID + 2 * count && id % 2 == 1
  }

  ghost predicate Numbered(s: Store) {
    && s.invoiceId.Some? && s.invoiceId.value == FIRST_INVOICE_ID + 2 * |s.invoices|
    && forall id {:trigger Issued(id, |s.invoices|)} :: id in s.invoices <==> Issued(id, |s.invoices|)
  }

  /** The two sides of an invoice: who is owed, and who owes. */
  datatype Side = Receivable | Payable

  function Party(invoice: Invoice, side: Side): Addr {
    match side
    case Receivable => invoice.from
    case Payable => invoice.payeeAddress
  }

  function Index(info: ContactInfo, side: Side): seq<U64> {
    match side
    case Receivable => info.generatedInvoices
    case Payable => info.assignedInvoices
  }

  predicate Increasing(ids: seq<U64>) {
    forall i, j :: 0 <= i < j < |ids| ==> ids[i] < ids[j]
  }

  ghost predicate IsIndex(ids: seq<U64>, invoices: map<U64, Invoice>, side: Side, a: Addr) {
    Increasing(ids) && forall id :: id in ids <==> id in invoices && Party(invoices[id], side) == a
  }

  ghost predicate Indexed(s: Store) {
    forall a, side {:trigger IsIndex(Index(s.profiles[a], side), s.invoices, side, a)} ::
      a in s.profiles ==> IsIndex(Index(s.profiles[a], side), s.invoices, side, a)
  }

  /** Amounts by status. Until the first payment the amount due may be anything up to the receivable. */
  predicate InvoiceOk(id: U64, i: Invoice) {
    && i.id == i.nftId == id && i.from != i.payeeAddress
    && i.dueAmount.denom == i.receivable.denom == i.amountPaid.denom
    && match i.status
       case Raised => i.amountPaid.amount == 0 && i.dueAmount.amount <= i.receivable.amount
       case Accepted => i.amountPaid.amount == 0 && i.dueAmount.amount <= i.receivable.amount
       case PartiallyPaid =>
         i.amountPaid.amount < i.receivable.amount
         && i.dueAmount.amount == i.receivable.amount - i.amountPaid.amount
       case Paid => i.amountPaid.amount == i.receivable.amount && i.dueAmount.amount == 0
  }

  /** A stored invoice joins two profiles that are contacts of each other. */
  predicate Links(s: Store, id: U64, i: Invoice) {
    && InvoiceOk(id, i) && i.from in s.profiles && i.payeeAddress in s.profiles
    && i.payeeAddress in s.profiles[i.from].contacts && i.from in s.profiles[i.payeeAddress].contacts
  }

  ghost predicate Linked(s: Store) {
    forall id {:trigger Links(s, id, s.invoices[id])} :: id in s.invoices ==> Links(s, id, s.invoices[id])
  }

  ghost predicate Inv(s: Store) {
    Mirrored(s.profiles) && Numbered(s) && Indexed(s) && Linked(s)
  }

  // ---------------------------------------------------------------- contact calls

  lemma PrependKeepsDistinct(x: Addr, list: seq<Addr>)
    requires NoDuplicates(list) && x !in list
    ensures NoDuplicates([x] + list)
  {
  }

  lemma AppendKeepsDistinct(list: seq<Addr>, x: Addr)
    requires NoDuplicates(list) && x !in list
    ensures NoDuplicates(list + [x])
  {
  }

  lemma {:induction false} RemoveFirstRemoves(list: seq<Addr>, x: Addr)
    requires NoDuplicates(list)
    ensures NoDuplicates(Profile.RemoveFirst(list, x))
    ensures forall y :: y in Profile.RemoveFirst(list, x) <==> y in list && y != x
    decreases |list|
  {
    if list == [] {
    } else {
      assert list == [list[0]] + list[1..];
      assert list[0] !in list[1..];
      RemoveFirstRemoves(list[1..], x);
      if list[0] != x {
        PrependKeepsDistinct(list[0], Profile.RemoveFirst(list[1..], x));
      }
    }
  }

  /** Whether and how often `y` is on each list is the same before and after. */
  ghost predicate SameTowards(before: ContactInfo, after: ContactInfo, y: Addr) {
    && (y in after.sentRequests <==> y in before.sentRequests)
    && (y in after.receivedRequests <==> y in before.receivedRequests)
    && Multiplicity(after.contacts, y) == Multiplicity(before.contacts, y)
  }

  lemma ListedIffCounted(list: seq<Addr>, y: Addr)
    ensures y in list <==> Multiplicity(list, y) > 0
  {
  }

  /** Lists change only between `a` and `b`, and these two still match. */
  lemma RewriteKeepsMirror(p: map<Addr, ContactInfo>, p': map<Addr, ContactInfo>, a: Addr, b: Addr)
    requires Mirrored(p) && a in p && b in p && p'.Keys == p.Keys
    requires forall x :: x in p' ==> ListsOk(x, p'[x], p'.Keys)
    requires Converse(a, p'[a], b, p'[b]) && Converse(b, p'[b], a, p'[a])
    requires forall x, y :: x in p && !(x == a && y == b) && !(x == b && y == a) ==> SameTowards(p[x], p'[x], y)
    ensures Mirrored(p')
  {
    hide ListsOk, Multiplicity;
    forall x, y | x in p' && y in p'
      ensures Converse(x, p'[x], y, p'[y])
    {
      assert Converse(x, p[x], y, p[y]);
      if !(x == a && y == b) && !(x == b && y == a) {
        assert SameTowards(p[x], p'[x], y) && SameTowards(p[y], p'[y], x);
      }
    }
  }

  lemma RewrittenLists(p: map<Addr, ContactInfo>, a: Addr, infoA: ContactInfo, b: Addr, infoB: ContactInfo)
    requires Mirrored(p) && a in p && b in p
    requires ListsOk(a, infoA, p.Keys) && ListsOk(b, infoB, p.Keys)
    ensures var p' := p[a := infoA][b := infoB];
            p'.Keys == p.Keys && forall x :: x in p' ==> ListsOk(x, p'[x], p'.Keys)
  {
    hide ListsOk, Converse;
    assert p[a := infoA][b := infoB].Keys == p.Keys;
  }

  lemma SameTowardsItself(info: ContactInfo, y: Addr)
    ensures SameTowards(info, info, y)
  {
  }

  lemma RewriteTwoKeepsMirror(p: map<Addr, ContactInfo>, a: Addr, infoA: ContactInfo, b: Addr, infoB: ContactInfo)
    requires Mirrored(p) && a in p && b in p && a != b
    requires ListsOk(a, infoA, p.Keys) && ListsOk(b, infoB, p.Keys)
    requires Converse(a, infoA, b, infoB) && Converse(b, infoB, a, infoA)
    requires forall y :: y != b ==> SameTowards(p[a], infoA, y)
    requires forall y :: y != a ==> SameTowards(p[b], infoB, y)
    ensures Mirrored(p[a := infoA][b := infoB])
  {
    hide Mirrored, ListsOk, Converse, SameTowards;
    var p' := p[a := infoA][b := infoB];
    RewrittenLists(p, a, infoA, b, infoB);
    forall x, y | x in p && !(x == a && y == b) && !(x == b && y == a)
      ensures SameTowards(p[x], p'[x], y)
    {
      if x != a && x != b {
        SameTowardsItself(p[x], y);
      }
    }
    RewriteKeepsMirror(p, p', a, b);
  }

  lemma RequestKeepsMirror(s: Store, a: Addr, b: Addr)
    requires Mirrored(s.profiles) && Profile.RequestOutcome(s, a, b).Ok?
    ensures Mirrored(Profile.RequestOutcome(s, a, b).value.store.profiles)
  {
    var p := s.profiles;
    var infoA := p[a].(sentRequests := p[a].sentRequests + [b]);
    var infoB := p[b].(receivedRequests := p[b].receivedRequests + [a]);
    assert Converse(a, p[a], b, p[b]) && Converse(b, p[b], a, p[a]);
    assert ListsOk(a, p[a], p.Keys) && ListsOk(b, p[b], p.Keys);
    AppendKeepsDistinct(p[a].sentRequests, b);
    AppendKeepsDistinct(p[b].receivedRequests, a);
    hide NoDuplicates, Multiplicity;
    assert ListsOk(a, infoA, p.Keys) && ListsOk(b, infoB, p.Keys);
    RewriteTwoKeepsMirror(p, a, infoA, b, infoB);
  }

  /** With a mirrored graph the request is always found on the other side: accepting never panics and never
      misses a profile. */
  lemma AcceptNeverPanics(s: Store, a: Addr, funds: seq<Coin>, b: Addr)
    requires Mirrored(s.profiles)
    ensures Profile.AcceptOutcome(s, a, funds, b).Err? ==>
              Profile.AcceptOutcome(s, a, funds, b).error in {FundsNotAccepted, NoProfile, NoRequestFound}
  {
    if a in s.profiles && b in s.profiles[a].receivedRequests {
      assert ListsOk(a, s.profiles[a], s.profiles.Keys);
      assert Converse(b, s.profiles[b], a, s.profiles[a]);
    }
  }

  lemma MultiplicityAppend(list: seq<Addr>, x: Addr)
    ensures forall y :: Multiplicity(list + [x], y) == Multiplicity(list, y) + if x == y then 1 else 0
  {
  }

  lemma AcceptKeepsMirror(s: Store, a: Addr, funds: seq<Coin>, b: Addr)
    requires Mirrored(s.profiles) && Profile.AcceptOutcome(s, a, funds, b).Ok?
    ensures Mirrored(Profile.AcceptOutcome(s, a, funds, b).value.store.profiles)
  {
    var p := s.profiles;
    assert ListsOk(a, p[a], p.Keys);
    assert a != b && b in p;
    var infoA := p[a].(receivedRequests := Profile.RemoveFirst(p[a].receivedRequests, b),
                       contacts := p[a].contacts + [b]);
    var infoB := p[b].(sentRequests := Profile.RemoveFirst(p[b].sentRequests, a), contacts := p[b].contacts + [a]);
    assert Converse(a, p[a], b, p[b]) && Converse(b, p[b], a, p[a]);
    assert ListsOk(b, p[b], p.Keys);
    RemoveFirstRemoves(p[a].receivedRequests, b);
    RemoveFirstRemoves(p[b].sentRequests, a);
    MultiplicityAppend(p[a].contacts, b);
    MultiplicityAppend(p[b].contacts, a);
    hide NoDuplicates, Multiplicity, Profile.RemoveFirst;
    assert ListsOk(a, infoA, p.Keys) && ListsOk(b, infoB, p.Keys);
    RewriteTwoKeepsMirror(p, a, infoA, b, infoB);
  }

  lemma NewProfileKeepsMirror(p: map<Addr, ContactInfo>, a: Addr, info: ContactInfo)
    requires Mirrored(p) && a !in p && info.owner == a
    requires info.sentRequests == [] && info.receivedRequests == [] && info.contacts == []
    requires info.kycStatus == Approved
    ensures Mirrored(p[a := info])
  {
    var p' := p[a := info];
    forall x | x in p'
      ensures ListsOk(x, p'[x], p'.Keys)
    {
      assert x in p ==> ListsOk(x, p[x], p.Keys);
    }
    forall x, y | x in p' && y in p'
      ensures Converse(x, p'[x], y, p'[y])
    {
      assert x in p ==> ListsOk(x, p[x], p.Keys);
      assert y in p ==> ListsOk(y, p[y], p.Keys);
      assert x in p && y in p ==> Converse(x, p[x], y, p[y]);
    }
  }

  /** Profiles may be added and contact lists may grow, but no invoice list changes. */
  ghost predicate OnlyContactsChange(s: Store, s': Store) {
    && s'.invoices == s.invoices && s'.invoiceId == s.invoiceId
    && (forall a :: a in s.profiles ==>
          && a in s'.profiles
          && (forall side :: Index(s'.profiles[a], side) == Index(s.profiles[a], side))
          && (forall b :: b in s.profiles[a].contacts ==> b in s'.profiles[a].contacts))
    && (forall a, side :: a in s'.profiles && a !in s.profiles ==> Index(s'.profiles[a], side) == [])
  }

  lemma StrangersHaveNoInvoices(s: Store, a: Addr)
    requires Linked(s) && a !in s.profiles
    ensures forall side :: IsIndex([], s.invoices, side, a)
  {
    hide InvoiceOk;
    forall side
      ensures IsIndex([], s.invoices, side, a)
    {
      forall id | id in s.invoices
        ensures Party(s.invoices[id], side) != a
      {
        assert Links(s, id, s.invoices[id]);
      }
    }
  }

  lemma ContactsChangeKeepsInvoices(s: Store, s': Store)
    requires Inv(s) && OnlyContactsChange(s, s')
    ensures Numbered(s') && Indexed(s') && Linked(s')
  {
    hide Mirrored, InvoiceOk, IsIndex;
    forall a, side | a in s'.profiles
      ensures IsIndex(Index(s'.profiles[a], side), s'.invoices, side, a)
    {
      if a in s.profiles {
        assert IsIndex(Index(s.profiles[a], side), s.invoices, side, a);
      } else {
        StrangersHaveNoInvoices(s, a);
      }
    }
    forall id | id in s'.invoices
      ensures Links(s', id, s'.invoices[id])
    {
      assert Links(s, id, s.invoices[id]);
    }
    forall id
      ensures id in s'.invoices <==> Issued(id, |s'.invoices|)
    {
      assert Issued(id, |s.invoices|) <==> id in s.invoices;
    }
  }

  lemma ContactCallChangesContacts(s: Store, tx: Tx)
    requires Dispatch(s, tx).Ok?
    requires tx.msg.CreateRequest? || tx.msg.AcceptRequest? || tx.msg.CreateProfile? || tx.msg.SetConfig?
    ensures OnlyContactsChange(s, Dispatch(s, tx).value.store)
  {
    hide Profile.RemoveFirst;
  }

  lemma ContactCallKeepsMirror(s: Store, tx: Tx)
    requires Mirrored(s.profiles) && Dispatch(s, tx).Ok?
    requires tx.msg.CreateRequest? || tx.msg.AcceptRequest? || tx.msg.CreateProfile? || tx.msg.SetConfig?
    ensures Mirrored(Dispatch(s, tx).value.store.profiles)
  {
    hide Mirrored, Profile.RequestOutcome, Profile.AcceptOutcome;
    match tx.msg {
      case CreateRequest(address) => RequestKeepsMirror(s, tx.sender, address);
      case AcceptRequest(address) => AcceptKeepsMirror(s, tx.sender, tx.funds, address);
      case CreateProfile(_, _, _, _, _) =>
        NewProfileKeepsMirror(s.profiles, tx.sender, Dispatch(s, tx).value.store.profiles[tx.sender]);
      case SetConfig(_, _, _) =>
    }
  }

  lemma ContactCallKeepsInv(s: Store, tx: Tx)
    requires Inv(s) && Dispatch(s, tx).Ok?
    requires tx.msg.CreateRequest? || tx.msg.AcceptRequest? || tx.msg.CreateProfile? || tx.msg.SetConfig?
    ensures Inv(Dispatch(s, tx).value.store)
  {
    hide Mirrored, Numbered, Indexed, Linked, OnlyContactsChange, Dispatch;
    ContactCallKeepsMirror(s, tx);
    ContactCallChangesContacts(s, tx);
    ContactsChangeKeepsInvoices(s, Dispatch(s, tx).value.store);
  }

  lemma {:induction false} RemoveAppended(list: seq<Addr>, x: Addr)
    requires x !in list
    ensures Profile.RemoveFirst(list + [x], x) == list
    decreases |list|
  {
    if list == [] {
    } else {
      assert (list + [x])[1..] == list[1..] + [x];
      RemoveAppended(list[1..], x);
    }
  }

  /** Accepting a request undoes it: both request lists are back to what they were before it was sent, and each side
      has gained the other as a contact. */
  lemma AcceptUndoesRequest(s: Store, a: Addr, b: Addr)
    requires Mirrored(s.profiles) && Profile.RequestOutcome(s, a, b).Ok?
    ensures var requested := Profile.RequestOutcome(s, a, b).value.store;
            var p := s.profiles;
            Profile.AcceptOutcome(requested, b, [], a) ==
              Ok(Effect(s.(profiles := p[a := p[a].(contacts := p[a].contacts + [b])]
                                        [b := p[b].(contacts := p[b].contacts + [a])]), []))
  {
    var p := s.profiles;
    assert Converse(a, p[a], b, p[b]);
    RemoveAppended(p[b].receivedRequests, a);
    RemoveAppended(p[a].sentRequests, b);
    hide Mirrored, Profile.RemoveFirst;
    var q := Profile.RequestOutcome(s, a, b).value.store.profiles;
    assert q[a].sentRequests == p[a].sentRequests + [b] && q[b].receivedRequests == p[b].receivedRequests + [a];
    var infoA, infoB := p[a].(contacts := p[a].contacts + [b]), p[b].(contacts := p[b].contacts + [a]);
    assert q[b := infoB][a := infoA] == p[a := infoA][b := infoB];
  }

  /** What stops a request between two profiles is a request still pending, not being in contact. */
  lemma ContactsMayRequestIff(s: Store, a: Addr, b: Addr)
    requires Mirrored(s.profiles) && a in s.profiles && b in s.profiles[a].contacts
    ensures Profile.RequestOutcome(s, a, b).Ok? <==> b !in s.profiles[a].sentRequests
  {
    assert ListsOk(a, s.profiles[a], s.profiles.Keys);
  }

  lemma {:induction false} DistinctIffCountedOnce(list: seq<Addr>)
    ensures NoDuplicates(list) <==> forall x :: Multiplicity(list, x) <= 1
    decreases |list|
  {
    if list == [] {
    } else {
      var init, last := list[..|list| - 1], list[|list| - 1];
      assert list == init + [last];
      DistinctIffCountedOnce(init);
      MultiplicityAppend(init, last);
      ListedIffCounted(init, last);
      if last !in init && NoDuplicates(init) {
        AppendKeepsDistinct(init, last);
      } else if last in init {
        var i :| 0 <= i < |init| && init[i] == last;
        assert list[i] == list[|list| - 1];
        assert Multiplicity(list, last) > 1;
      } else {
        var x :| Multiplicity(init, x) > 1;
        assert Multiplicity(list, x) > 1;
        assert !NoDuplicates(list) by {
          var i, j :| 0 <= i < j < |init| && init[i] == init[j];
          assert list[i] == list[j];
        }
      }
    }
  }

  /** An accepted request keeps the contacts free of repetitions exactly when the two were not in contact before. */
  lemma AcceptKeepsContactsDistinctIff(s: Store, a: Addr, funds: seq<Coin>, b: Addr)
    requires Mirrored(s.profiles) && Profile.AcceptOutcome(s, a, funds, b).Ok?
    requires NoDuplicates(s.profiles[a].contacts)
    ensures var after := Profile.AcceptOutcome(s, a, funds, b).value.store;
            && a in after.profiles
            && (NoDuplicates(after.profiles[a].contacts) <==> b !in s.profiles[a].contacts)
  {
    assert ListsOk(a, s.profiles[a], s.profiles.Keys);
    var list := s.profiles[a].contacts;
    if b in list {
      var i :| 0 <= i < |list| && list[i] == b;
      assert (list + [b])[i] == (list + [b])[|list|];
    } else {
      AppendKeepsDistinct(list, b);
    }
  }

  // ---------------------------------------------------------------- invoice calls

  /** Three of the refusals of an invoice never happen: every profile is approved, and every contact has one. */
  lemma RaiseRefusals(s: Store, sender: Addr, funds: seq<Coin>, payee: Addr, receivable: Coin, amountPaid: Coin)
    requires Inv(s)
    ensures var refusal := Invoicing.RaiseError(s, sender, funds, payee, receivable, amountPaid);
            refusal.Some? ==>
              refusal.value !in {CreatorNotVerified, CounterpartyNotVerified, NoCounterpartyProfile}
  {
    hide Numbered, Indexed, Linked, NoDuplicates, Converse;
    if sender in s.profiles {
      assert ListsOk(sender, s.profiles[sender], s.profiles.Keys);
      if payee in s.profiles {
        assert ListsOk(payee, s.profiles[payee], s.profiles.Keys);
      }
    }
  }

  /** Paying in two parts leaves the storage of paying at once. */
  lemma PaymentsCompose(s: Store, sender: Addr, id: U64, denom: Denom, first: U128, second: U128)
    requires Inv(s) && Invoicing.PayOutcome(s, sender, [Coin(denom, first)], id).Ok?
    requires var s' := Invoicing.PayOutcome(s, sender, [Coin(denom, first)], id).value.store;
             Invoicing.PayOutcome(s', sender, [Coin(denom, second)], id).Ok?
    ensures first + second <= U128_MAX
    ensures var s' := Invoicing.PayOutcome(s, sender, [Coin(denom, first)], id).value.store;
            var once := Invoicing.PayOutcome(s, sender, [Coin(denom, first + second)], id);
            once.Ok? && once.value.store == Invoicing.PayOutcome(s', sender, [Coin(denom, second)], id).value.store
  {
    hide Inv;
    var s' := Invoicing.PayOutcome(s, sender, [Coin(denom, first)], id).value.store;
    var s'' := Invoicing.PayOutcome(s', sender, [Coin(denom, second)], id).value.store;
    assert s''.invoices == s.invoices[id := s''.invoices[id]];
  }

  lemma FreshId(s: Store, id: U64)
    requires Numbered(s) && NextInvoiceId(s) == Some(id)
    ensures id == FIRST_INVOICE_ID + 2 * |s.invoices| + 1 && id !in s.invoices
    ensures forall other :: other in s.invoices ==> other < id
  {
    assert id in s.invoices <==> Issued(id, |s.invoices|);
    forall other | other in s.invoices
      ensures other < id
    {
      assert Issued(other, |s.invoices|);
    }
  }

  lemma AppendToIndex(ids: seq<U64>, invoices: map<U64, Invoice>, side: Side, a: Addr, id: U64, invoice: Invoice)
    requires IsIndex(ids, invoices, side, a)
    requires forall other :: other in invoices ==> other < id
    ensures IsIndex(if Party(invoice, side) == a then ids + [id] else ids, invoices[id := invoice], side, a)
  {
    assert id !in ids;
    forall i | 0 <= i < |ids|
      ensures ids[i] < id
    {
      assert ids[i] in ids;
    }
  }

  lemma RaiseKeepsMirror(p: map<Addr, ContactInfo>, a: Addr, b: Addr, id: U64)
    requires Mirrored(p) && a in p && b in p && a != b
    ensures Mirrored(p[a := p[a].(generatedInvoices := p[a].generatedInvoices + [id])]
                      [b := p[b].(assignedInvoices := p[b].assignedInvoices + [id])])
  {
    var infoA := p[a].(generatedInvoices := p[a].generatedInvoices + [id]);
    var infoB := p[b].(assignedInvoices := p[b].assignedInvoices + [id]);
    assert Converse(a, p[a], b, p[b]) && Converse(b, p[b], a, p[a]);
    assert ListsOk(a, p[a], p.Keys) && ListsOk(b, p[b], p.Keys);
    hide Mirrored, Multiplicity, NoDuplicates;
    RewriteTwoKeepsMirror(p, a, infoA, b, infoB);
  }

  lemma RaiseKeepsIndexes(s: Store, s': Store, id: U64, a: Addr, b: Addr)
    requires Indexed(s) && (forall other :: other in s.invoices ==> other < id)
    requires a in s.profiles && b in s.profiles && a != b && id in s'.invoices
    requires s'.invoices == s.invoices[id := s'.invoices[id]]
    requires s'.invoices[id].from == a && s'.invoices[id].payeeAddress == b
    requires s'.profiles == s.profiles[a := s.profiles[a].(generatedInvoices := s.profiles[a].generatedInvoices + [id])]
                                      [b := s.profiles[b].(assignedInvoices := s.profiles[b].assignedInvoices + [id])]
    ensures Indexed(s')
  {
    hide IsIndex;
    forall x, side | x in s'.profiles
      ensures IsIndex(Index(s'.profiles[x], side), s'.invoices, side, x)
    {
      assert IsIndex(Index(s.profiles[x], side), s.invoices, side, x);
      AppendToIndex(Index(s.profiles[x], side), s.invoices, side, x, id, s'.invoices[id]);
    }
  }

  lemma RaiseKeepsLinks(s: Store, s': Store, id: U64)
    requires Linked(s) && id in s'.invoices && s'.invoices == s.invoices[id := s'.invoices[id]]
    requires forall a :: a in s.profiles ==> a in s'.profiles && s'.profiles[a].contacts == s.profiles[a].contacts
    requires InvoiceOk(id, s'.invoices[id])
    requires s'.invoices[id].from in s.profiles && s'.invoices[id].payeeAddress in s.profiles
    requires s'.invoices[id].payeeAddress in s.profiles[s'.invoices[id].from].contacts
    requires s'.invoices[id].from in s.profiles[s'.invoices[id].payeeAddress].contacts
    ensures Linked(s')
  {
    hide InvoiceOk;
    forall other | other in s'.invoices
      ensures Links(s', other, s'.invoices[other])
    {
      assert other in s.invoices ==> Links(s, other, s.invoices[other]);
    }
  }

  lemma RaiseShape(s: Store, tx: Tx)
    requires tx.msg.CreateInvoice? && Dispatch(s, tx).Ok?
    ensures NextInvoiceId(s).Some? && NextInvoiceId(s).value < U64_MAX
    ensures var s', id, a, b := Dispatch(s, tx).value.store, NextInvoiceId(s).value, tx.sender, tx.msg.payee;
            && a != b && a in s.profiles && b in s.profiles && b in s.profiles[a].contacts
            && s'.profiles ==
               s.profiles[a := s.profiles[a].(generatedInvoices := s.profiles[a].generatedInvoices + [id])]
                         [b := s.profiles[b].(assignedInvoices := s.profiles[b].assignedInvoices + [id])]
            && id in s'.invoices && s'.invoices == s.invoices[id := s'.invoices[id]]
            && s'.invoices[id].from == a && s'.invoices[id].payeeAddress == b && s'.invoices[id].status == Raised
            && InvoiceOk(id, s'.invoices[id]) && s'.invoiceId == Some(id + 1)
            && s.config.Some? && Dispatch(s, tx).value.messages == [Mint(s.config.value.nftAddress, id, s.contract)]
            && s'.invoices[id].dueAmount.amount == tx.msg.receivable.amount - tx.msg.amountPaid.amount
            && s'.invoices[id].receivable == tx.msg.receivable
            && s'.invoices[id].serviceType == tx.msg.serviceType && s'.invoices[id].docUri == tx.msg.docUri
  {
  }

  lemma RaiseKeepsNumbers(s: Store, s': Store, id: U64)
    requires Numbered(s) && NextInvoiceId(s) == Some(id)
    requires id in s'.invoices && s'.invoices == s.invoices[id := s'.invoices[id]]
    requires s'.invoiceId.Some? && s'.invoiceId.value == id + 1
    ensures Numbered(s')
  {
    FreshId(s, id);
    assert |s'.invoices| == |s.invoices| + 1;
    forall other
      ensures other in s'.invoices <==> Issued(other, |s'.invoices|)
    {
      assert other in s.invoices <==> Issued(other, |s.invoices|);
    }
  }

  lemma ContactsAreMutual(p: map<Addr, ContactInfo>, a: Addr, b: Addr)
    requires Mirrored(p) && a in p && b in p[a].contacts
    ensures b in p && a in p[b].contacts && a != b
  {
    assert ListsOk(a, p[a], p.Keys) && Converse(a, p[a], b, p[b]);
    ListedIffCounted(p[a].contacts, b);
    ListedIffCounted(p[b].contacts, a);
  }

  lemma RaiseKeepsInv(s: Store, tx: Tx)
    requires Inv(s) && tx.msg.CreateInvoice? && Dispatch(s, tx).Ok?
    ensures Inv(Dispatch(s, tx).value.store)
  {
    hide Mirrored, Numbered, Indexed, Linked, InvoiceOk;
    RaiseShape(s, tx);
    hide Dispatch;
    var s' := Dispatch(s, tx).value.store;
    var id, a, b := NextInvoiceId(s).value, tx.sender, tx.msg.payee;
    FreshId(s, id);
    ContactsAreMutual(s.profiles, a, b);
    RaiseKeepsNumbers(s, s', id);
    RaiseKeepsMirror(s.profiles, a, b, id);
    RaiseKeepsIndexes(s, s', id, a, b);
    RaiseKeepsLinks(s, s', id);
  }

  lemma RewriteKeepsIndex(
    ids: seq<U64>, invoices: map<U64, Invoice>, side: Side, a: Addr, id: U64, invoice: Invoice)
    requires IsIndex(ids, invoices, side, a) && id in invoices && Party(invoice, side) == Party(invoices[id], side)
    ensures IsIndex(ids, invoices[id := invoice], side, a)
  {
  }

  lemma RewriteKeepsIndexes(s: Store, id: U64, invoice: Invoice)
    requires Indexed(s) && id in s.invoices
    requires forall side :: Party(invoice, side) == Party(s.invoices[id], side)
    ensures Indexed(s.(invoices := s.invoices[id := invoice]))
  {
    var s' := s.(invoices := s.invoices[id := invoice]);
    hide IsIndex;
    forall a, side | a in s'.profiles
      ensures IsIndex(Index(s'.profiles[a], side), s'.invoices, side, a)
    {
      assert IsIndex(Index(s.profiles[a], side), s.invoices, side, a);
      RewriteKeepsIndex(Index(s.profiles[a], side), s.invoices, side, a, id, invoice);
    }
  }

  lemma RewriteKeepsNumbers(s: Store, id: U64, invoice: Invoice)
    requires Numbered(s) && id in s.invoices
    ensures Numbered(s.(invoices := s.invoices[id := invoice]))
  {
    var s' := s.(invoices := s.invoices[id := invoice]);
    assert s'.invoices.Keys == s.invoices.Keys;
    assert |s'.invoices| == |s'.invoices.Keys| == |s.invoices.Keys| == |s.invoices|;
    forall other
      ensures other in s'.invoices <==> Issued(other, |s'.invoices|)
    {
      assert other in s.invoices <==> Issued(other, |s.invoices|);
    }
  }

  lemma RewriteKeepsLinks(s: Store, id: U64, invoice: Invoice)
    requires Linked(s) && id in s.invoices && InvoiceOk(id, invoice)
    requires forall side :: Party(invoice, side) == Party(s.invoices[id], side)
    ensures Linked(s.(invoices := s.invoices[id := invoice]))
  {
    var s' := s.(invoices := s.invoices[id := invoice]);
    assert invoice.from == Party(invoice, Receivable) == s.invoices[id].from;
    assert invoice.payeeAddress == Party(invoice, Payable) == s.invoices[id].payeeAddress;
    hide InvoiceOk;
    forall other | other in s'.invoices
      ensures Links(s', other, s'.invoices[other])
    {
      assert Links(s, other, s.invoices[other]);
    }
  }

  /** One invoice is rewritten, between the same parties. */
  lemma RewriteKeepsInv(s: Store, id: U64, invoice: Invoice)
    requires Inv(s) && id in s.invoices && InvoiceOk(id, invoice)
    requires forall side :: Party(invoice, side) == Party(s.invoices[id], side)
    ensures Inv(s.(invoices := s.invoices[id := invoice]))
  {
    hide Mirrored, Numbered, Indexed, Linked, InvoiceOk, Party;
    RewriteKeepsIndexes(s, id, invoice);
    RewriteKeepsNumbers(s, id, invoice);
    RewriteKeepsLinks(s, id, invoice);
  }

  lemma StoredInvoiceIsOk(s: Store, id: U64)
    requires Inv(s) && id in s.invoices
    ensures InvoiceOk(id, s.invoices[id])
    ensures s.invoices[id].from in s.profiles && s.invoices[id].payeeAddress in s.profiles
    ensures s.invoices[id].payeeAddress in s.profiles[s.invoices[id].from].contacts
    ensures s.invoices[id].from in s.profiles[s.invoices[id].payeeAddress].contacts
  {
    hide Mirrored, Numbered, Indexed, InvoiceOk;
    assert Links(s, id, s.invoices[id]);
  }

  lemma AcceptInvoiceKeepsInv(s: Store, sender: Addr, id: U64)
    requires Inv(s) && Invoicing.AcceptInvoiceOutcome(s, sender, id).Ok?
    ensures Inv(Invoicing.AcceptInvoiceOutcome(s, sender, id).value.store)
  {
    hide Inv;
    StoredInvoiceIsOk(s, id);
    RewriteKeepsInv(s, id, s.invoices[id].(status := Accepted));
  }

  lemma PayKeepsInv(s: Store, sender: Addr, funds: seq<Coin>, id: U64)
    requires Inv(s) && Invoicing.PayOutcome(s, sender, funds, id).Ok?
    ensures Inv(Invoicing.PayOutcome(s, sender, funds, id).value.store)
  {
    hide Inv;
    StoredInvoiceIsOk(s, id);
    RewriteKeepsInv(s, id, Invoicing.PaidUpTo(s.invoices[id], s.invoices[id].amountPaid.amount + funds[0].amount));
  }

  /** Every call that succeeds keeps the invariant; a call that fails changes nothing. */
  lemma CallKeepsInv(s: Store, tx: Tx)
    requires Inv(s) && Dispatch(s, tx).Ok?
    ensures Inv(Dispatch(s, tx).value.store)
  {
    hide Inv, Invoicing.PayOutcome, Invoicing.AcceptInvoiceOutcome, Invoicing.RaiseOutcome;
    hide Profile.RequestOutcome, Profile.AcceptOutcome, Profile.ProfileOutcome;
    match tx.msg {
      case CreateInvoice(_, _, _, _, _) => RaiseKeepsInv(s, tx);
      case AcceptInvoice(id) => AcceptInvoiceKeepsInv(s, tx.sender, id);
      case PayInvoice(id) => PayKeepsInv(s, tx.sender, tx.funds, id);
      case _ => ContactCallKeepsInv(s, tx);
    }
  }

  lemma InitialInv(contract: Addr)
    ensures Inv(InitialStore(contract))
  {
  }
}
